/** A whole life of a cluster, from its creation over its first readiness to the end of an upgrade. */
module Lifecycle {
  import opened Options
  import opened Text
  import opened Calls
  import opened ClusterSpec
  import opened DefaultingProperties
  import opened ClusterStatus
  import opened Generators
  import opened Reconcile
  import opened UpgradeInvariants
  import opened Runs
  import opened OwnerLabel
  import opened Requeue
  import opened Wedge
  import opened Scaling
  import opened Deadline
  import opened Templates
  import opened Readiness

  /** A spec whose defaults are in place and whose volumes are retained. */
  ghost predicate Stable(spec: Spec, name: string) {
    Settled(spec) && Defaulted(spec, name) == spec
  }

  /** The cluster asks for this spec, and its StatefulSet has the size asked for. */
  ghost predicate Live(w: World, id: Identity, spec: Spec) {
    && w.id == id && w.cr.spec == spec && !w.gone && !w.cr.deleting && WorldInv(w) && LabelInv(w)
    && w.sts.Some? && w.sts.value.spec.replicas == spec.replicas
  }

  /** Ready, with this version and no upgrade under way. */
  ghost predicate Healthy(s: Status, version: string) {
    && s.Ready() && s.currentVersion == version && s.metaRootCreated
    && HasStatus(s.conditions, Upgrading, IsFalse) && !s.InUpgrade()
  }

  /** Nothing fails, and the newest version is read. */
  ghost predicate Attentive(w: World, e: Weather) {
    Calm(e) && e.view >= w.revision
  }

  lemma {:induction false} VersionsAreNumbered(vs: seq<CR>, i: nat)
    requires HistoryInv(vs) && i < |vs|
    ensures vs[i].rv >= i
    decreases i
  {
    if i > 0 {
      VersionsAreNumbered(vs, i - 1);
    }
  }

  lemma NewestIsRead(w: World, e: Weather)
    requires WorldInv(w) && Attentive(w, e)
    ensures View(w, e) == w.cr
  {
    var vs := w.Versions();
    VersionsAreNumbered(vs, |w.older|);
    assert vs[|w.older|] == w.cr;
  }

  // ----- What a pass on which nothing fails keeps -----

  ghost predicate Holds(l: Local, spec: Spec) {
    l.w.cr.spec == spec && l.z.spec == spec && !l.w.gone && !l.w.cr.deleting
  }

  lemma WriteHolds(l: Local, c: CR, fate: Fate, spec: Spec)
    requires Holds(l, spec) && c.spec == spec && !c.deleting
    ensures Holds(Write(l, c, fate), spec) && Write(l, c, fate).w.revision <= l.w.revision + 1
  {
  }

  lemma ClearHolds(l: Local, e: Weather, spec: Spec)
    requires Holds(l, spec)
    ensures Holds(ClearUpgradeStatus(l, e), spec) && ClearUpgradeStatus(l, e).w.revision <= l.w.revision + 1
  {
    var cleared := l.WithStatus(l.z.status.With(Upgrading, IsFalse, "", "", e.Second()).(targetVersion := ""));
    WriteHolds(cleared, l.w.cr.(spec := l.z.spec, finalizers := l.z.finalizers), e.Fate(UpdateCleared), spec);
  }

  lemma UpgradeHolds(l: Local, found: StsStatus, e: Weather, spec: Spec)
    requires Holds(l, spec)
    ensures var r := UpgradeStatefulSet(l, found, e);
            Holds(r, spec) && r.w.revision <= l.w.revision + 1
  {
    match Judge(l.z.status, l.z.spec.image.tag, found, e.now)
    case Remember(s) =>
    case Persist(s) => WriteHolds(l.WithStatus(s), l.w.cr.(status := s), e.Fate(WriteProgress), spec);
    case Clear(s) => ClearHolds(l.WithStatus(s), e, spec);
  }

  lemma SyncHolds(l: Local, found: Sts, next: Sts, e: Weather, spec: Spec)
    requires Holds(l, spec) && l.w.sts == Some(found)
    ensures var r := SyncExisting(l, found, next, e);
            Holds(r, spec) && r.w.revision <= l.w.revision + 2
  {
    var a := if next.spec.replicas != found.spec.replicas then PublishSize(l, next.spec.replicas, e) else l;
    PublishEffect(l, next.spec.replicas, e);
    var b := UpdateStatefulSet(a, Relabelled(found, l.z.rv), next, e);
    assert Holds(b, spec) && b.w.revision <= l.w.revision + 1;
    UpgradeHolds(b, found.status, e, spec);
  }

  lemma LastStagesHold(l: Local, e: Weather, spec: Spec)
    requires Holds(l, spec)
    ensures Holds(LastStages(l, e), spec) && LastStages(l, e).w.revision <= l.w.revision + 1
  {
    RootedEffect(l, e);
    var a := Rooted(l, e);
    var t := SettledStatus(a.z, e.Second());
    WriteHolds(a.WithStatus(t), a.w.cr.(status := t), e.Fate(WriteStatus), spec);
  }

  lemma CalmHolds(w: World, e: Weather, id: Identity, spec: Spec)
    requires Live(w, id, spec) && Stable(spec, id.name) && Calm(e) && View(w, e) == w.cr
    requires !w.cr.status.UpgradeFailed()
    ensures var r := Pass(w, e).0;
            r.cr.spec == spec && !r.gone && !r.cr.deleting && r.revision <= w.revision + 3
  {
    var l := SettledPass(w, e);
    var next := MakeStatefulSet(id, l.z.spec);
    QuietMiddle(l, next, e);
    SyncHolds(l, w.sts.value, next, e, spec);
    LastStagesHold(SyncExisting(l, w.sts.value, next, e), e, spec);
  }

  lemma CalmCompletes(w: World, e: Weather, id: Identity, spec: Spec)
    requires Live(w, id, spec) && Settled(spec) && Attentive(w, e) && w.revision < MAX_INT64
    requires w.cr.status.metaRootCreated || w.znodes == map[]
    ensures View(w, e) == w.cr && Pass(w, e).1 == Complete
  {
    NewestIsRead(w, e);
    CalmPassCompletes(w, e);
  }

  /** Such a pass over a live cluster is complete, and leaves it live; what the StatefulSet reports stays. */
  lemma CalmPassLives(w: World, e: Weather, id: Identity, spec: Spec) returns (r: World)
    requires Live(w, id, spec) && Stable(spec, id.name) && Attentive(w, e) && w.revision < MAX_INT64 - 3
    requires w.cr.status.metaRootCreated || w.znodes == map[]
    requires !w.cr.status.UpgradeFailed()
    ensures r == Pass(w, e).0 && View(w, e) == w.cr && Pass(w, e).1 == Complete
    ensures Live(r, id, spec) && r.revision <= w.revision + 3 && Carries(id, r.sts.value.spec.template, spec)
    ensures r.sts.value.status == w.sts.value.status
  {
    r := Pass(w, e).0;
    CalmCompletes(w, e, id, spec);
    CalmHolds(w, e, id, spec);
    PassKeeps(w, e);
    PassLabels(w, e);
    PassWrites(w, e);
    CompletePassWrites(w, e);
    PassGrows(w, e);
    CalmStatusStays(w, e);
  }

  lemma CalmStatusStays(w: World, e: Weather)
    requires w.sts.Some?
    ensures var r := Pass(w, e).0;
            r.sts.Some? && r.sts.value.status == w.sts.value.status
  {
    PassWrites(w, e);
  }

  // ----- The turns of a life -----

  /** All replicas are reported ready, and no update is rolling. */
  ghost predicate AllReady(report: StsStatus, spec: Spec) {
    report.readyReplicas == spec.replicas && report.currentRevision == report.updateRevision
  }

  lemma BecomesReady(w: World, e: Weather, id: Identity, spec: Spec) returns (r: World)
    requires Live(w, id, spec) && Stable(spec, id.name) && Attentive(w, e) && w.revision < MAX_INT64 - 3
    requires w.znodes == map[] && w.cr.status.currentVersion == "" && AllReady(w.sts.value.status, spec)
    requires !w.cr.status.metaRootCreated
    ensures r == Pass(w, e).0 && Live(r, id, spec) && r.revision <= w.revision + 3
    ensures r.sts.value.status == w.sts.value.status
    ensures Healthy(r.cr.status, spec.image.tag) && Agree(r)
  {
    r := CalmPassLives(w, e, id, spec);
    NoVersionNoUpgrade(w, e);
    ReadinessIsRecorded(w, e);
    FirstSizeAgrees(w, e);
  }

  lemma StaysHealthy(w: World, e: Weather, id: Identity, spec: Spec, version: string) returns (r: World)
    requires Live(w, id, spec) && Stable(spec, id.name) && Attentive(w, e) && w.revision < MAX_INT64 - 3
    requires Healthy(w.cr.status, version) && version != "" && AllReady(w.sts.value.status, spec)
    ensures r == Pass(w, e).0 && Live(r, id, spec) && r.revision <= w.revision + 3
    ensures r.sts.value.status == w.sts.value.status && Carries(id, r.sts.value.spec.template, spec)
    ensures Healthy(r.cr.status, version)
  {
    r := CalmPassLives(w, e, id, spec);
    StartingPass(w, e);
    ReadinessIsRecorded(w, e);
  }

  lemma UpgradeBegins(w: World, e: Weather, id: Identity, spec: Spec, version: string) returns (r: World)
    requires Live(w, id, spec) && Stable(spec, id.name) && Attentive(w, e) && w.revision < MAX_INT64 - 3
    requires Healthy(w.cr.status, version) && version != spec.image.tag
    requires w.sts.value.status.currentRevision != w.sts.value.status.updateRevision
    ensures r == Pass(w, e).0 && Live(r, id, spec) && r.revision <= w.revision + 3
    ensures Pending(r.cr.status) && r.cr.status.targetVersion == spec.image.tag
  {
    r := CalmPassLives(w, e, id, spec);
    StartingPass(w, e);
  }

  lemma UpgradeEnds(w: World, e: Weather, id: Identity, spec: Spec) returns (r: World)
    requires Live(w, id, spec) && Stable(spec, id.name) && Attentive(w, e) && w.revision < MAX_INT64 - 3
    requires Pending(w.cr.status) && AllReady(w.sts.value.status, spec)
    ensures r == Pass(w, e).0 && Live(r, id, spec) && r.revision <= w.revision + 3
    ensures Healthy(r.cr.status, w.cr.status.targetVersion) && Carries(id, r.sts.value.spec.template, spec)
  {
    r := CalmPassLives(w, e, id, spec);
    CompletePass(w, e);
    ReadinessIsRecorded(w, e);
  }

  /** Another report changes nothing else. */
  lemma ReportLives(w: World, id: Identity, spec: Spec, report: StsStatus) returns (r: World)
    requires Live(w, id, spec)
    ensures r == Reported(w, report) && Live(r, id, spec) && r.sts.value.status == report
    ensures r.cr == w.cr && r.revision == w.revision && r.znodes == w.znodes
  {
    r := Reported(w, report);
    assert r.Versions() == w.Versions();
    HistoryStays(w, r);
    ReportLabels(w, report);
  }

  function Edited(spec: Spec, tag: string): Spec { spec.(image := spec.image.(tag := tag)) }

  /** An edit of the tag keeps the spec stable. */
  lemma TagIsEdited(spec: Spec, name: string, tag: string) returns (edited: Spec)
    requires Stable(spec, name) && tag != ""
    ensures edited == Edited(spec, tag) && Stable(edited, name)
  {
    edited := Edited(spec, tag);
    assert Defaulted(edited, name) == Defaulted(spec, name).(image := DefaultedImage(edited.image));
  }

  lemma EditLives(w: World, id: Identity, spec: Spec, edited: Spec) returns (r: World)
    requires Live(w, id, spec) && edited != spec && edited.replicas == spec.replicas && w.revision < MAX_INT64
    ensures r == Next(w, SpecEdited(edited)) && Live(r, id, edited) && r.cr.status == w.cr.status
    ensures r.sts == w.sts && r.revision == w.revision + 1 && r.znodes == w.znodes
  {
    r := Next(w, SpecEdited(edited));
    NextKeeps(w, SpecEdited(edited));
    NextLabels(w, SpecEdited(edited));
  }

  // ----- Whole runs -----

  lemma RunTwo(w: World, a: Event, b: Event)
    ensures Run(w, [a, b]) == Next(Next(w, a), b)
  {
    assert [a, b] == [a] + [b] && [b] == [b] + [];
    RunFirst(w, a, [b]);
    RunFirst(Next(w, a), b, []);
  }

  /** An event and a pass after it. */
  ghost function Turn(ev: Event, e: Weather): seq<Event> { [ev, Reconciled(e)] }

  lemma TurnEnds(w: World, ev: Event, e: Weather)
    ensures Run(w, Turn(ev, e)) == Pass(Next(w, ev), e).0
  {
    RunTwo(w, ev, Reconciled(e));
  }

  lemma YoungIsLive(w: World, id: Identity, spec: Spec)
    requires SoundYoung(w, id, spec)
    ensures Live(w, id, spec) && w.cr.status.currentVersion == "" && !w.cr.status.metaRootCreated
  {
    assert w.Versions()[|w.older|] == w.cr;
  }

  lemma FirstTurn(id: Identity, spec: Spec, e: Weather, rest: seq<Event>) returns (r: World)
    requires Stable(spec, id.name) && Calm(e)
    ensures SoundYoung(r, id, spec)
    ensures Run(Created(id, false, 0, spec), [Reconciled(e)] + rest) == Run(r, rest)
  {
    RunFirst(Created(id, false, 0, spec), Reconciled(e), rest);
    FirstIsSound(id, spec, e);
    r := Pass(Created(id, false, 0, spec), e).0;
  }

  lemma ReadyTurn(w: World, id: Identity, spec: Spec, report: StsStatus, e: Weather) returns (r: World)
    requires SoundYoung(w, id, spec) && Stable(spec, id.name) && Calm(e) && e.view >= 2 && AllReady(report, spec)
    ensures r == Run(w, Turn(StsReported(report), e)) && Live(r, id, spec) && r.revision <= 5
    ensures Healthy(r.cr.status, spec.image.tag) && Agree(r) && r.sts.value.status == report
  {
    YoungIsLive(w, id, spec);
    var b := ReportLives(w, id, spec, report);
    r := BecomesReady(b, e, id, spec);
    RunLast(w, report, e);
  }

  /** From the creation of the object: a pass on which nothing fails, every replica ready, and another such
      pass leave the cluster ready, with the version asked for and the size published. */
  lemma BirthIsReached(id: Identity, spec: Spec, e: Weather, report: StsStatus, f: Weather)
    requires Stable(spec, id.name) && Calm(e) && Calm(f) && f.view >= 2 && AllReady(report, spec)
    ensures var w := Run(Created(id, false, 0, spec), [Reconciled(e)] + Turn(StsReported(report), f));
            && Live(w, id, spec) && Healthy(w.cr.status, spec.image.tag) && Agree(w)
            && w.sts.value.status == report && w.revision <= 5
  {
    var young := FirstTurn(id, spec, e, Turn(StsReported(report), f));
    var w := ReadyTurn(young, id, spec, report, f);
  }

  lemma EditTurn(w: World, id: Identity, spec: Spec, tag: string, e: Weather) returns (r: World)
    requires Live(w, id, spec) && Stable(spec, id.name) && Healthy(w.cr.status, spec.image.tag)
    requires AllReady(w.sts.value.status, spec) && tag != "" && tag != spec.image.tag
    requires w.revision < MAX_INT64 - 20 && Calm(e) && e.view > w.revision
    ensures r == Run(w, Turn(SpecEdited(Edited(spec, tag)), e)) && Stable(Edited(spec, tag), id.name)
    ensures Live(r, id, Edited(spec, tag)) && Healthy(r.cr.status, spec.image.tag) && r.revision <= w.revision + 4
    ensures Carries(id, r.sts.value.spec.template, Edited(spec, tag))
  {
    var edited := TagIsEdited(spec, id.name, tag);
    var a := EditLives(w, id, spec, edited);
    r := StaysHealthy(a, e, id, edited, spec.image.tag);
    TurnEnds(w, SpecEdited(edited), e);
  }

  lemma RollTurn(w: World, id: Identity, spec: Spec, version: string, report: StsStatus, e: Weather)
    returns (r: World)
    requires Live(w, id, spec) && Stable(spec, id.name) && Healthy(w.cr.status, version)
    requires version != spec.image.tag && report.currentRevision != report.updateRevision
    requires w.revision < MAX_INT64 - 10 && Calm(e) && e.view >= w.revision
    ensures r == Run(w, Turn(StsReported(report), e)) && Live(r, id, spec) && r.revision <= w.revision + 3
    ensures Pending(r.cr.status) && r.cr.status.targetVersion == spec.image.tag
  {
    var b := ReportLives(w, id, spec, report);
    r := UpgradeBegins(b, e, id, spec, version);
    RunLast(w, report, e);
  }

  lemma EndTurn(w: World, id: Identity, spec: Spec, report: StsStatus, e: Weather) returns (r: World)
    requires Live(w, id, spec) && Stable(spec, id.name) && Pending(w.cr.status) && AllReady(report, spec)
    requires w.revision < MAX_INT64 - 10 && Calm(e) && e.view >= w.revision
    ensures r == Run(w, Turn(StsReported(report), e)) && Live(r, id, spec)
    ensures Healthy(r.cr.status, w.cr.status.targetVersion)
  {
    var b := ReportLives(w, id, spec, report);
    r := UpgradeEnds(b, e, id, spec);
    RunLast(w, report, e);
  }

  /** In a healthy cluster whose tag is edited, the next pass gives the pods the image asked for. When the
      StatefulSet then reports two revisions the upgrade begins, towards that tag; and when it reports one
      revision and every replica ready, the cluster is healthy with the new version. */
  lemma UpgradeIsReached(
    w: World, id: Identity, spec: Spec, tag: string, e: Weather, rolling: StsStatus, f: Weather, done: StsStatus,
    g: Weather)
    requires Live(w, id, spec) && Stable(spec, id.name) && Healthy(w.cr.status, spec.image.tag)
    requires AllReady(w.sts.value.status, spec) && tag != "" && tag != spec.image.tag && w.revision < MAX_INT64 - 20
    requires Calm(e) && Calm(f) && Calm(g)
    requires e.view > w.revision && f.view > w.revision + 10 && g.view > w.revision + 10
    requires rolling.currentRevision != rolling.updateRevision && AllReady(done, spec)
    ensures var synced := Run(w, Turn(SpecEdited(Edited(spec, tag)), e));
            var begun := Run(synced, Turn(StsReported(rolling), f));
            var ended := Run(begun, Turn(StsReported(done), g));
            && Healthy(synced.cr.status, spec.image.tag)
            && synced.sts.Some? && Carries(id, synced.sts.value.spec.template, Edited(spec, tag))
            && Pending(begun.cr.status) && begun.cr.status.targetVersion == tag
            && Live(ended, id, Edited(spec, tag)) && Healthy(ended.cr.status, tag)
  {
    var synced := EditTurn(w, id, spec, tag, e);
    var begun := RollTurn(synced, id, Edited(spec, tag), spec.image.tag, rolling, f);
    var ended := EndTurn(begun, id, Edited(spec, tag), done, g);
  }

  const READY := StsStatus(3, 3, 3, "a", "a")
  const ROLLING := StsStatus(3, 3, 0, "a", "b")
  const ROLLED := StsStatus(3, 3, 3, "b", "b")

  lemma PlainIsStable(s: Spec, name: string)
    requires Plain(s)
    ensures Stable(Defaulted(s, name), name) && Defaulted(s, name).replicas == 3
  {
    DefaultedIsSettled(s, name);
    DefaultingIsAFixpoint(s, name);
  }

  /** So there is such a life: three replicas become ready, the tag is edited, the upgrade begins and ends. */
  lemma LifeIsReached(id: Identity, s: Spec, tag: string, e: Weather)
    requires Plain(s) && tag != "" && tag != Defaulted(s, id.name).image.tag && Calm(e) && e.view >= 20
    ensures var spec := Defaulted(s, id.name);
            var born := Run(Created(id, false, 0, spec), [Reconciled(e)] + Turn(StsReported(READY), e));
            var begun := Run(Run(born, Turn(SpecEdited(Edited(spec, tag)), e)), Turn(StsReported(ROLLING), e));
            var ended := Run(begun, Turn(StsReported(ROLLED), e));
            && Healthy(born.cr.status, spec.image.tag) && Pending(begun.cr.status) && Healthy(ended.cr.status, tag)
  {
    var spec := Defaulted(s, id.name);
    PlainIsStable(s, id.name);
    BirthIsReached(id, spec, e, READY, e);
    var born := Run(Created(id, false, 0, spec), [Reconciled(e)] + Turn(StsReported(READY), e));
    UpgradeIsReached(born, id, spec, tag, e, ROLLING, e, ROLLED, e);
  }
}
