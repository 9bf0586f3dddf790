/** A run that ends with the size znode made and not recorded. */
module Wedge {
  import opened Options
  import opened Text
  import opened Calls
  import opened ClusterSpec
  import opened DefaultingProperties
  import opened ClusterStatus
  import opened Generators
  import opened Reconcile
  import opened UpgradeInvariants
  import opened Runs
  import opened OwnerLabel
  import opened MetaRoot
  import opened Requeue
  import Deadline

  /** A spec with its defaults in place whose volumes are retained. */
  predicate Settled(spec: Spec) {
    !NeedsUpdate(spec) && !ReclaimsVolumes(spec)
  }

  /** The object in memory, when there is nothing to default. */
  ghost predicate Loaded(w: World, l: Local) {
    && Generable(l.z.spec) && l == Local(w, w.cr.(spec := l.z.spec), true)
    && l.z.spec.replicas == w.cr.spec.replicas != 0
    && l.z.spec.image.tag == w.cr.spec.image.tag && l.z.spec.image.tag != ""
  }

  /** With no claim to collect either, the pass begins with the config map. */
  lemma SettledPass(w: World, e: Weather) returns (l: Local)
    requires Settled(w.cr.spec) && View(w, e) == w.cr && !w.gone && Quiet(e)
    ensures Loaded(w, l) && l.z.spec == Defaulted(w.cr.spec, w.id.name)
    ensures Pass(w, e).0 == MiddleStages(l, e).w
  {
    DefaultedIsGenerable(w.cr.spec, w.id.name);
    assert e.Fate(GetCR) == Done;
    l := SettledSpec(w, e.now);
  }

  lemma SettledSpec(w: World, now: int) returns (l: Local)
    requires Settled(w.cr.spec)
    ensures l == Local(w, Prepared(w.cr, w.id.name, now), true)
    ensures Loaded(w, l) && !ReclaimsVolumes(l.z.spec) && l.z.spec == Defaulted(w.cr.spec, w.id.name)
  {
    DefaultedIsGenerable(w.cr.spec, w.id.name);
    l := Local(w, Prepared(w.cr, w.id.name, now), true);
  }

  /** The cluster after its first pass. */
  ghost predicate Young(w: World, id: Identity, spec: Spec) {
    && w.id == id && |w.older| == 1 && w.cr.spec == spec && !w.gone && !w.cr.deleting && w.znodes == map[]
    && w.sts.Some? && w.sts.value.spec.replicas == spec.replicas && w.revision <= 2
    && Unrecorded(w) && !w.cr.status.InUpgrade() && !w.cr.status.UpgradeFailed()
  }

  lemma FirstPass(id: Identity, spec: Spec, e: Weather)
    requires Settled(spec) && Calm(e)
    ensures Young(Pass(Created(id, false, 0, spec), e).0, id, spec)
  {
    var w := Created(id, false, 0, spec);
    var l := SettledPass(w, e);
    var next := MakeStatefulSet(id, l.z.spec);
    QuietMiddle(l, next, e);
    FirstCreation(l, next, e);
    FirstStatus(CreateStatefulSet(l, next, e), w, e);
  }

  /** The StatefulSet is there, and nothing else has changed. */
  ghost predicate JustCreated(w: World, l: Local) {
    && l.ok && l.w == w.(sts := l.w.sts, revision := w.revision + 1) && l.z == w.cr.(spec := l.z.spec)
    && l.w.sts.Some? && l.w.sts.value.spec.replicas == l.z.spec.replicas == w.cr.spec.replicas != 0
  }

  lemma FirstCreation(l: Local, next: Sts, e: Weather)
    requires Loaded(l.w, l) && Quiet(e) && next.spec.replicas == l.z.spec.replicas
    ensures JustCreated(l.w, CreateStatefulSet(l, next, e))
  {
    assert e.Fate(CreateSts) == Done;
  }

  /** The first status that is stored. */
  lemma FirstSettled(l: Local, e: Weather)
    requires l.z.status == EMPTY_STATUS && l.z.spec.replicas != 0 && e.Fate(ListPods) == Done
    ensures var a := Rooted(l, e);
            var t := SettledStatus(a.z, e.Second());
            && a.ok == l.ok && a.w == l.w && a.z == l.z.(status := a.z.status) && t != EMPTY_STATUS
            && !t.InUpgrade() && !t.UpgradeFailed() && !t.metaRootCreated
  {
    InitialisedEffect(l.z.status, e.Second());
    RootedEffect(l, e);
    var a := Rooted(l, e);
    WithEffect(a.z.status, PodsReady, IsFalse, "", "", e.Second());
    assert HasStatus(SettledStatus(a.z, e.Second()).conditions, PodsReady, IsFalse);
  }

  lemma FirstStored(l: Local, w: World, t: Status)
    requires JustCreated(w, l) && w == Created(w.id, false, 0, w.cr.spec)
    requires t != EMPTY_STATUS && !t.InUpgrade() && !t.UpgradeFailed() && !t.metaRootCreated
    ensures Young(UpdateStatus(l.WithStatus(t), Done).w, w.id, w.cr.spec)
  {
    assert UpdateStatus(l.WithStatus(t), Done).w.Versions() == [w.cr, w.cr.(status := t, rv := 2)];
  }

  lemma FirstStatus(l: Local, w: World, e: Weather)
    requires JustCreated(w, l) && Calm(e) && w == Created(w.id, false, 0, w.cr.spec)
    ensures Young(LastStages(l, e).w, w.id, w.cr.spec)
  {
    assert e.Fate(ListPods) == Done && !OtherObjectsFail(e);
    FirstSettled(l, e);
    var a := Rooted(l, e);
    var t := SettledStatus(a.z, e.Second());
    FirstStored(l, w, t);
    FirstEnd(l, a, t, e);
  }

  lemma FirstEnd(l: Local, a: Local, t: Status, e: Weather)
    requires e.Fate(WriteStatus) == Done && !OtherObjectsFail(e)
    requires l.ok && !l.z.status.InUpgrade() && !l.z.status.UpgradeFailed()
    requires a == Rooted(l, e) && a.ok && a.w == l.w && a.z == l.z.(status := a.z.status)
    requires t == SettledStatus(a.z, e.Second())
    ensures LastStages(l, e) == UpdateStatus(l.WithStatus(t), Done)
  {
    assert a.WithStatus(t) == l.WithStatus(t);
  }

  /** Nothing begins while the revisions agree. */
  lemma QuietUpgrade(l: Local, found: StsStatus, e: Weather)
    requires Steady(l) && Quiet(e) && StatusInv(l.z.status) && !l.z.status.InUpgrade() && l.z.spec.image.tag != ""
    requires found.currentRevision == found.updateRevision
    ensures var s := UpgradeStatefulSet(l, found, e).z.status;
            !s.InUpgrade() && !s.UpgradeFailed()
  {
    Deadline.JudgeStart(l.z.status, l.z.spec.image.tag, found, e.now);
    assert e.Fate(WriteProgress) == Done;
    match Judge(l.z.status, l.z.spec.image.tag, found, e.now)
    case Remember(_) =>
    case Persist(s) => SteadyWrite(l.WithStatus(s), l.w.cr.(status := s));
    case Clear(_) =>
  }

  lemma QuietSync(l: Local, found: Sts, next: Sts, named: nat, e: Weather)
    requires LocalInv(l) && Steady(l) && Quiet(e) && l.w.sts == Some(found)
    requires OwnerRv(found) == Some(Itoa(named)) && named <= l.z.rv <= MAX_INT64
    requires l.z.status == l.w.cr.status && !l.z.status.InUpgrade() && !l.z.status.UpgradeFailed()
    requires found.status.currentRevision == found.status.updateRevision && next.spec.replicas == found.spec.replicas
    ensures var s := SyncExisting(l, found, next, e).z.status;
            !s.InUpgrade() && !s.UpgradeFailed()
  {
    CompareNumeric(l.z.rv, named);
    assert e.Fate(UpdateSts) == Done;
    SyncedIsFresh(l, Relabelled(found, l.z.rv), next, e);
    QuietUpgrade(UpdateStatefulSet(l, Relabelled(found, l.z.rv), next, e), found.status, e);
  }

  /** The last write is refused, and nothing else fails. */
  ghost predicate Lossy(e: Weather) {
    Quiet(e) && e.Fate(WriteStatus) == Refused && e.view >= 1
  }

  lemma LossyMiddle(l: Local, found: Sts, next: Sts, named: nat, e: Weather)
    requires Lossy(e)
    requires LocalInv(l) && Steady(l) && Unaware(l, {})
    requires Generable(l.z.spec) && next == MakeStatefulSet(l.w.id, l.z.spec)
    requires l.w.sts == Some(found) && OwnerRv(found) == Some(Itoa(named)) && named <= l.z.rv <= MAX_INT64
    requires l.z.status == l.w.cr.status && !l.z.status.InUpgrade() && !l.z.status.UpgradeFailed()
    requires found.status.currentRevision == found.status.updateRevision
    requires found.status.readyReplicas == l.z.spec.replicas == found.spec.replicas
    ensures Wedged(MiddleStages(l, e).w)
  {
    QuietMiddle(l, next, e);
    SteadySync(l, found, next, named, e);
    QuietSync(l, found, next, named, e);
    SyncUnaware(l, {}, found, next, e);
    LossyEnd(SyncExisting(l, found, next, e), e);
  }

  lemma LossyEnd(l: Local, e: Weather)
    requires Lossy(e) && l.ok && Unaware(l, {}) && !l.z.status.InUpgrade() && !l.z.status.UpgradeFailed()
    requires l.z.status.readyReplicas == l.z.spec.replicas
    ensures Wedged(LastStages(l, e).w)
  {
    assert e.Fate(ListPods) == Done && e.Fate(ConnectForRoot) == Done && !OtherObjectsFail(e);
    LostRecordWedges(l, e);
  }

  /** A young cluster all of whose replicas are ready, and a pass whose last write is refused. */
  lemma LossyPass(w: World, id: Identity, spec: Spec, e: Weather)
    requires Lossy(e) && Young(w, id, spec) && Settled(spec) && WorldInv(w) && LabelInv(w)
    requires var s := w.sts.value.status; s.readyReplicas == spec.replicas && s.currentRevision == s.updateRevision
    ensures Wedged(Pass(w, e).0)
  {
    var l := SettledPass(w, e);
    var named := NamedLabel(w);
    YoungIsSteady(w, id, spec, l);
    LossyMiddle(l, w.sts.value, MakeStatefulSet(id, l.z.spec), named, e);
  }

  lemma YoungIsSteady(w: World, id: Identity, spec: Spec, l: Local)
    requires Young(w, id, spec) && WorldInv(w) && Loaded(w, l)
    ensures LocalInv(l) && Steady(l) && Unaware(l, {}) && l.z.status == w.cr.status
  {
    assert w.Versions()[|w.older|] == w.cr;
  }

  lemma RunFirst(w: World, ev: Event, rest: seq<Event>)
    ensures Run(w, [ev] + rest) == Run(Next(w, ev), rest)
  {
    assert ([ev] + rest)[1..] == rest;
  }

  lemma RunLast(w: World, report: StsStatus, f: Weather)
    ensures Run(w, [StsReported(report), Reconciled(f)]) == Pass(Reported(w, report), f).0
  {
    assert [StsReported(report), Reconciled(f)] == [StsReported(report)] + [Reconciled(f)];
    RunFirst(w, StsReported(report), [Reconciled(f)]);
    assert [Reconciled(f)][1..] == [];
  }

  ghost predicate SoundYoung(w: World, id: Identity, spec: Spec) {
    Young(w, id, spec) && WorldInv(w) && LabelInv(w)
  }

  lemma ReportKeepsYoung(w: World, id: Identity, spec: Spec, report: StsStatus) returns (r: World)
    requires SoundYoung(w, id, spec)
    ensures r == Reported(w, report) && SoundYoung(r, id, spec) && r.sts.value.status == report
  {
    r := Reported(w, report);
    assert r.Versions() == w.Versions();
    HistoryStays(w, r);
    ReportLabels(w, report);
  }

  lemma FirstIsSound(id: Identity, spec: Spec, e: Weather)
    requires Settled(spec) && Calm(e)
    ensures SoundYoung(Pass(Created(id, false, 0, spec), e).0, id, spec)
  {
    var w := Created(id, false, 0, spec);
    CreatedIsConsistent(id, spec);
    FirstPass(id, spec, e);
    PassKeeps(w, e);
    PassLabels(w, e);
  }

  lemma CreatedIsConsistent(id: Identity, spec: Spec)
    ensures WorldInv(Created(id, false, 0, spec)) && LabelInv(Created(id, false, 0, spec))
  {
  }

  /** From its creation, for every settled spec: a pass on which nothing fails, the StatefulSet reporting
      every replica ready, and a pass whose last write is refused leave the cluster wedged. */
  lemma RunWedges(id: Identity, spec: Spec, e: Weather, report: StsStatus, f: Weather)
    requires Settled(spec) && Calm(e) && Lossy(f)
    requires report.readyReplicas == spec.replicas && report.currentRevision == report.updateRevision
    ensures Wedged(Run(Created(id, false, 0, spec), [Reconciled(e), StsReported(report), Reconciled(f)]))
  {
    var w := Created(id, false, 0, spec);
    var rest := [StsReported(report), Reconciled(f)];
    assert [Reconciled(e), StsReported(report), Reconciled(f)] == [Reconciled(e)] + rest;
    RunFirst(w, Reconciled(e), rest);
    RunLast(Pass(w, e).0, report, f);
    FirstIsSound(id, spec, e);
    var r := ReportKeepsYoung(Pass(w, e).0, id, spec, report);
    LossyPass(r, id, spec, f);
  }

  /** A spec that leaves all but the session timeouts to the defaults. */
  const SMALLEST := Spec(
    ContainerImage("", "", ""), None, 0, None, PodPolicy(None, None, None, 0, ""), false, "", None, None,
    ZookeeperConfig(0, 0, 0, 0, 0, 0, 0, 0, 0, 0, 4000, 40000, 0, 0, false, map[]), "", None, 0)

  const CALM := Weather(2, 0, map[], map[])
  const LOSSY := Weather(2, 0, map[WriteStatus := Refused], map[])

  /** A spec that leaves sizes, storage and timeouts to the defaults. */
  ghost predicate Plain(s: Spec) {
    && s.persistence.None? && !IsEphemeral(s.storageType) && s.replicas == 0
    && !TimeoutWraps(s.conf) && !s.triggerRollingRestart
  }

  lemma DefaultedIsSettled(s: Spec, name: string)
    requires Plain(s)
    ensures Settled(Defaulted(s, name)) && Defaulted(s, name).replicas == 3
  {
    DefaultingIsAFixpoint(s, name);
    assert Defaulted(s, name).triggerRollingRestart == s.triggerRollingRestart;
  }

  lemma SmallestIsPlain()
    ensures Plain(SMALLEST)
  {
  }

  lemma CalmAndLossy()
    ensures Calm(CALM) && Lossy(LOSSY)
  {
  }

  /** Such a run exists: a pass over the newest version on which nothing fails, three replicas ready, and
      a pass whose last write is refused. */
  lemma PlainWedges(id: Identity, s: Spec, e: Weather, f: Weather)
    requires Plain(s) && Calm(e) && Lossy(f)
    ensures Wedged(Run(Created(id, false, 0, Defaulted(s, id.name)),
                       [Reconciled(e), StsReported(StsStatus(3, 3, 3, "a", "a")), Reconciled(f)]))
  {
    DefaultedIsSettled(s, id.name);
    RunWedges(id, Defaulted(s, id.name), e, StsStatus(3, 3, 3, "a", "a"), f);
  }

  lemma WedgeIsReached(id: Identity)
    ensures Wedged(Run(Created(id, false, 0, Defaulted(SMALLEST, id.name)),
                       [Reconciled(CALM), StsReported(StsStatus(3, 3, 3, "a", "a")), Reconciled(LOSSY)]))
  {
    SmallestIsPlain();
    CalmAndLossy();
    PlainWedges(id, SMALLEST, CALM, LOSSY);
  }
}
