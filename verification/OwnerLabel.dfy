/** The owner-rv label: which version of the cluster object the StatefulSet was generated from. */
module OwnerLabel {
  import opened Options
  import opened Text
  import opened Calls
  import opened ClusterSpec
  import opened DefaultingProperties
  import opened ClusterStatus
  import opened Generators
  import opened Reconcile
  import opened UpgradeInvariants
  import opened Runs

  /** For numeric versions the comparison is the comparison of the numbers. */
  lemma CompareNumeric(a: nat, b: nat)
    requires a <= MAX_INT64 && b <= MAX_INT64
    ensures var c := CompareResourceVersion(Itoa(a), Some(Itoa(b)));
            (c < 0 <==> a < b) && (c == 0 <==> a == b) && (c > 0 <==> a > b)
  {
    AtoiItoa(a);
    AtoiItoa(b);
  }

  /** The label as a number, if it reads as one. */
  function Label(owner: Option<string>): Option<int> {
    if owner.None? || Atoi(owner.value).failed then None else Some(Atoi(owner.value).value)
  }

  /** The comparison for every label: one that is missing or reads as no number is older than any version. */
  lemma CompareExactly(a: nat, owner: Option<string>)
    requires a <= MAX_INT64
    ensures var c, named := CompareResourceVersion(Itoa(a), owner), Label(owner);
            && (c < 0 <==> named.Some? && a < named.value) && (c == 0 <==> named == Some(a))
            && (c > 0 <==> named.None? || a > named.value)
  {
    AtoiItoa(a);
  }

  /** So after a write the label reads as the later of what it was and the version read, whatever it was, and
      the other labels are as they were. */
  lemma LabelAfterWrite(found: Sts, rv: nat)
    requires rv <= MAX_INT64
    ensures var after, named := Relabelled(found, rv), Label(OwnerRv(found));
            && Label(OwnerRv(after)) == Some(if named.Some? && named.value >= rv then named.value else rv)
            && (forall k | k != OWNER_RV :: (k in after.labels <==> k in found.labels)
                                            && (k in after.labels ==> after.labels[k] == found.labels[k]))
            && after.spec == found.spec && after.status == found.status
  {
    CompareExactly(rv, OwnerRv(found));
    AtoiItoa(rv);
  }

  /** What SyncStatefulSet keeps in step with a spec. */
  ghost predicate InStep(id: Identity, sts: Sts, spec: Spec) {
    Generable(Defaulted(spec, id.name)) &&
    var next := MakeStatefulSet(id, Defaulted(spec, id.name)).spec;
    && sts.spec.replicas == next.replicas && sts.spec.template == next.template
    && sts.spec.updateStrategy == next.updateStrategy
  }

  /** The StatefulSet carries the number of a stored version and what that version generates. */
  ghost predicate MadeFrom(w: World, sts: Sts, v: CR) {
    v in w.Versions() && OwnerRv(sts) == Some(Itoa(v.rv)) && InStep(w.id, sts, v.spec)
  }

  ghost predicate LabelInv(w: World) {
    w.sts.Some? ==> exists v :: MadeFrom(w, w.sts.value, v)
  }

  /** The object in memory is a stored version, defaulted. */
  ghost predicate ReadFrom(l: Local, v: CR) {
    v in l.w.Versions() && v.rv == l.z.rv && Defaulted(v.spec, l.w.id.name) == l.z.spec
  }

  ghost predicate Grown(w: World, w': World) {
    w'.id == w.id && w.Versions() <= w'.Versions() && w.revision <= w'.revision
  }

  lemma StillStored(w: World, w': World, v: CR)
    requires Grown(w, w') && v in w.Versions()
    ensures v in w'.Versions()
  {
    var i :| 0 <= i < |w.Versions()| && w.Versions()[i] == v;
    assert w'.Versions()[i] == v;
  }

  lemma WriteGrows(l: Local, c: CR, fate: Fate)
    ensures var r := Write(l, c, fate);
            Grown(l.w, r.w) && r.w.sts == l.w.sts && (r.ok ==> r.z == r.w.cr && r.w.cr in r.w.Versions())
  {
    var r := Write(l, c, fate);
    assert r.w.Versions()[|r.w.older|] == r.w.cr;
  }

  /** After a stage that does not touch the StatefulSet, the pass still works on a stored version. */
  ghost predicate StillReading(l: Local, r: Local) {
    && Grown(l.w, r.w) && r.w.sts == l.w.sts
    && (r.ok ==> exists u :: ReadFrom(r, u))
  }

  lemma UpdateRead(l: Local, v: CR, fate: Fate)
    requires ReadFrom(l, v)
    ensures StillReading(l, UpdateObject(l, fate))
  {
    WriteGrows(l, l.w.cr.(spec := l.z.spec, finalizers := l.z.finalizers), fate);
    DefaultingIsAFixpoint(v.spec, l.w.id.name);
    var r := UpdateObject(l, fate);
    if r.ok {
      assert r.z.spec == l.z.spec && ReadFrom(r, r.w.cr);
    }
  }

  lemma CleanupRead(l: Local, a: Local, e: Weather)
    requires StillReading(l, a) && a.ok
    ensures StillReading(l, CleanupOrphanPVCs(a, e))
  {
    var u :| ReadFrom(a, u);
    var r := CleanupOrphanPVCs(a, e);
    assert r.z == a.z && r.w == a.w.(claims := r.w.claims);
    assert r.w.Versions() == a.w.Versions();
    assert ReadFrom(r, u);
  }

  lemma KeepFinalizerRead(l: Local, v: CR, e: Weather)
    requires ReadFrom(l, v) && l.ok
    ensures StillReading(l, KeepFinalizer(l, e))
  {
    if Claims.ZK_FINALIZER !in l.z.finalizers && !l.w.disableFinalizer {
      var added := l.(z := l.z.(finalizers := l.z.finalizers + [Claims.ZK_FINALIZER]));
      assert ReadFrom(added, v);
      UpdateRead(added, v, e.Fate(UpdateFinalizers));
      var a := UpdateObject(added, e.Fate(UpdateFinalizers));
      if a.ok {
        CleanupRead(l, a, e);
      }
    } else {
      CleanupRead(l, l, e);
    }
  }

  lemma DropFinalizerRead(l: Local, v: CR, e: Weather)
    requires ReadFrom(l, v) && l.ok
    ensures StillReading(l, DropFinalizer(l, e))
  {
    var a := CleanUpAllPVCs(l, e);
    assert a.w.Versions() == l.w.Versions() && ReadFrom(a, v);
    var finalizers := Claims.Removed(a.z.finalizers, Claims.ZK_FINALIZER);
    UpdateRead(a.(z := a.z.(finalizers := finalizers)), v, e.Fate(UpdateFinalizers));
  }

  lemma FinalizersRead(l: Local, v: CR, e: Weather)
    requires ReadFrom(l, v) && l.ok
    ensures StillReading(l, ReconcileFinalizers(l, e))
  {
    KeepFinalizerRead(l, v, e);
    DropFinalizerRead(l, v, e);
    assert StillReading(l, l);
  }

  lemma UpgradeGrows(l: Local, found: StsStatus, e: Weather)
    ensures var r := UpgradeStatefulSet(l, found, e);
            Grown(l.w, r.w) && r.w.sts == l.w.sts
  {
    match Judge(l.z.status, l.z.spec.image.tag, found, e.now)
    case Remember(s) =>
    case Persist(s) => WriteGrows(l.WithStatus(s), l.w.cr.(status := s), e.Fate(WriteProgress));
    case Clear(s) => ClearGrows(l.WithStatus(s), e);
  }

  lemma ClearGrows(l: Local, e: Weather)
    ensures var r := ClearUpgradeStatus(l, e);
            Grown(l.w, r.w) && r.w.sts == l.w.sts
  {
    WriteGrows(l.WithStatus(l.z.status.With(Upgrading, IsFalse, "", "", e.Second()).(targetVersion := "")),
               l.w.cr.(spec := l.z.spec, finalizers := l.z.finalizers), e.Fate(UpdateCleared));
  }

  lemma RecoveryGrows(l: Local, e: Weather)
    ensures var r := RecoverFailedUpgrade(l, e);
            Grown(l.w, r.w) && r.w.sts == l.w.sts
  {
    var s := l.z.status;
    ClearGrows(l.WithStatus(s.Recovered(e.Second())), e);
  }

  lemma ClusterStatusGrows(l: Local, e: Weather)
    ensures var r := ReconcileClusterStatus(l, e);
            Grown(l.w, r.w) && r.w.sts == l.w.sts
  {
    RootedEffect(l, e);
    var a := Rooted(l, e);
    var t := SettledStatus(a.z, e.Second());
    WriteGrows(a.WithStatus(t), a.w.cr.(status := t), e.Fate(WriteStatus));
  }

  /** The StatefulSet after the pass: the one before, or one made from the version the pass works on,
      which is then no older than the version named before. */
  ghost predicate Advanced(w: World, r: World, v: CR) {
    || r.sts == w.sts
    || (r.sts.Some? && MadeFrom(r, r.sts.value, v)
        && forall u | w.sts.Some? && MadeFrom(w, w.sts.value, u) :: u.rv <= v.rv)
  }

  lemma SyncedIsMade(l: Local, found: Sts, v: CR, u: CR)
    requires ReadFrom(l, v) && Generable(l.z.spec) && OwnerRv(found) == Some(Itoa(u.rv)) && u.rv <= v.rv <= MAX_INT64
    ensures MadeFrom(l.w, SyncedStatefulSet(Relabelled(found, l.z.rv), MakeStatefulSet(l.w.id, l.z.spec)), v)
  {
    CompareNumeric(v.rv, u.rv);
    assert OwnerRv(Relabelled(found, l.z.rv)) == Some(Itoa(v.rv));
  }

  lemma UpdateMakes(l: Local, found: Sts, v: CR, u: CR, e: Weather)
    requires ReadFrom(l, v) && Generable(l.z.spec) && l.w.sts == Some(found) && OwnerRv(found) == Some(Itoa(u.rv))
    requires u.rv <= v.rv <= MAX_INT64
    ensures var r := UpdateStatefulSet(l, Relabelled(found, l.z.rv), MakeStatefulSet(l.w.id, l.z.spec), e);
            && r.w.Versions() == l.w.Versions() && Grown(l.w, r.w)
            && (r.w.sts == l.w.sts || (r.w.sts.Some? && MadeFrom(r.w, r.w.sts.value, v)))
            && (r.ok ==> r.w.sts.Some? && MadeFrom(r.w, r.w.sts.value, v))
  {
    SyncedIsMade(l, found, v, u);
    WrittenIsMade(l, Relabelled(found, l.z.rv), MakeStatefulSet(l.w.id, l.z.spec), v, e);
  }

  lemma WrittenIsMade(l: Local, found: Sts, next: Sts, v: CR, e: Weather)
    requires MadeFrom(l.w, SyncedStatefulSet(found, next), v)
    ensures var r := UpdateStatefulSet(l, found, next, e);
            && r.w.Versions() == l.w.Versions() && Grown(l.w, r.w)
            && (r.w.sts == l.w.sts || (r.w.sts.Some? && MadeFrom(r.w, r.w.sts.value, v)))
            && (r.ok ==> r.w.sts.Some? && MadeFrom(r.w, r.w.sts.value, v))
  {
    assert UpdateStatefulSet(l, found, next, e).w.Versions() == l.w.Versions();
  }

  /** From the write of the StatefulSet on. */
  lemma WriteAdvances(l: Local, found: Sts, v: CR, u: CR, e: Weather)
    requires ReadFrom(l, v) && Generable(l.z.spec) && l.w.sts == Some(found) && OwnerRv(found) == Some(Itoa(u.rv))
    requires u.rv <= v.rv <= MAX_INT64
    ensures var b := UpdateStatefulSet(l, Relabelled(found, l.z.rv), MakeStatefulSet(l.w.id, l.z.spec), e);
            var r := if b.ok then UpgradeStatefulSet(b, found.status, e) else b;
            Grown(l.w, r.w) && (r.w.sts == l.w.sts || (r.w.sts.Some? && MadeFrom(r.w, r.w.sts.value, v)))
  {
    UpdateMakes(l, found, v, u, e);
    var b := UpdateStatefulSet(l, Relabelled(found, l.z.rv), MakeStatefulSet(l.w.id, l.z.spec), e);
    UpgradeGrows(b, found.status, e);
    StillStored(b.w, UpgradeStatefulSet(b, found.status, e).w, v);
  }

  lemma SyncAdvances(l: Local, found: Sts, v: CR, u: CR, e: Weather)
    requires ReadFrom(l, v) && Generable(l.z.spec) && l.w.sts == Some(found) && MadeFrom(l.w, found, u)
    requires v.rv <= MAX_INT64 && u.rv <= MAX_INT64
    ensures var r := SyncExisting(l, found, MakeStatefulSet(l.w.id, l.z.spec), e);
            && Grown(l.w, r.w)
            && (r.w.sts == l.w.sts || (u.rv <= v.rv && r.w.sts.Some? && MadeFrom(r.w, r.w.sts.value, v)))
  {
    var next := MakeStatefulSet(l.w.id, l.z.spec);
    CompareNumeric(v.rv, u.rv);
    if u.rv <= v.rv {
      var a := if next.spec.replicas != found.spec.replicas then PublishSize(l, next.spec.replicas, e) else l;
      assert a.w == l.w.(znodes := a.w.znodes) && a.z == l.z && a.w.Versions() == l.w.Versions();
      if a.ok {
        WriteAdvances(a, found, v, u, e);
      }
    }
  }

  lemma CreateAdvances(l: Local, v: CR, e: Weather)
    requires ReadFrom(l, v) && Generable(l.z.spec) && l.w.sts.None?
    ensures var r := CreateStatefulSet(l, MakeStatefulSet(l.w.id, l.z.spec), e);
            Grown(l.w, r.w) && Advanced(l.w, r.w, v)
  {
    var r := CreateStatefulSet(l, MakeStatefulSet(l.w.id, l.z.spec), e);
    assert r.w.Versions() == l.w.Versions();
  }

  lemma StatefulSetAdvances(l: Local, v: CR, e: Weather)
    requires ReadFrom(l, v) && Generable(l.z.spec) && LabelInv(l.w)
    requires forall u | u in l.w.Versions() :: u.rv <= MAX_INT64
    ensures var r := ReconcileStatefulSet(l, e);
            Grown(l.w, r.w) && Advanced(l.w, r.w, v)
  {
    var r := ReconcileStatefulSet(l, e);
    if l.z.status.UpgradeFailed() {
      RecoveryGrows(l, e);
    } else if l.w.sts.None? {
      CreateAdvances(l, v, e);
    } else {
      var found := l.w.sts.value;
      forall u | MadeFrom(l.w, found, u)
        ensures Grown(l.w, r.w)
        ensures r.w.sts == l.w.sts || (u.rv <= v.rv && r.w.sts.Some? && MadeFrom(r.w, r.w.sts.value, v))
      {
        SyncAdvances(l, found, v, u, e);
      }
      var u :| MadeFrom(l.w, found, u);
    }
  }

  /** The StatefulSet is still there, and its label is no older. */
  ghost predicate LabelRises(w: World, r: World) {
    w.sts.Some? ==>
      r.sts.Some? &&
      forall x: nat, y: nat | OwnerRv(w.sts.value) == Some(Itoa(x)) && OwnerRv(r.sts.value) == Some(Itoa(y)) :: x <= y
  }

  lemma AdvancedRises(w: World, r: World, v: CR)
    requires LabelInv(w) && Advanced(w, r, v) && Grown(w, r)
    ensures LabelInv(r) && LabelRises(w, r)
  {
    if w.sts.Some? {
      var u :| MadeFrom(w, w.sts.value, u);
      StillStored(w, r, u);
      if r.sts.Some? {
        forall x: nat, y: nat | OwnerRv(w.sts.value) == Some(Itoa(x)) && OwnerRv(r.sts.value) == Some(Itoa(y))
          ensures x <= y
        {
          ItoaInjective(x, u.rv);
          if r.sts == w.sts {
            ItoaInjective(x, y);
          } else {
            ItoaInjective(y, v.rv);
          }
        }
      }
      assert r.sts == w.sts ==> MadeFrom(r, r.sts.value, u);
    }
  }

  lemma LabelCarries(w: World, r: World, r': World)
    requires Grown(w, r) && Grown(r, r') && r'.sts == r.sts && LabelInv(r) && LabelRises(w, r)
    ensures LabelInv(r') && LabelRises(w, r') && Grown(w, r')
  {
    if r.sts.Some? {
      var u :| MadeFrom(r, r.sts.value, u);
      StillStored(r, r', u);
      assert MadeFrom(r', r'.sts.value, u);
    }
  }

  ghost predicate SmallRevisions(w: World) {
    forall u | u in w.Versions() :: u.rv <= MAX_INT64
  }

  lemma MiddleStagesLabels(l: Local, u: CR, e: Weather)
    requires ReadFrom(l, u) && Generable(l.z.spec) && LabelInv(l.w) && SmallRevisions(l.w)
    ensures var r := MiddleStages(l, e);
            LabelInv(r.w) && LabelRises(l.w, r.w) && Grown(l.w, r.w)
  {
    SameSts(l.w, l.w);
    if l.ok && !e.Fails(SyncConfigMap) {
      StatefulSetAdvances(l, u, e);
      var b := ReconcileStatefulSet(l, e);
      AdvancedRises(l.w, b.w, u);
      LastStagesLabels(l.w, b, e);
    }
  }

  lemma LastStagesLabels(w: World, l: Local, e: Weather)
    requires Grown(w, l.w) && LabelInv(l.w) && LabelRises(w, l.w)
    ensures var r := LastStages(l, e);
            LabelInv(r.w) && LabelRises(w, r.w) && Grown(w, r.w)
  {
    ClusterStatusGrows(l, e);
    LabelCarries(w, l.w, LastStages(l, e).w);
  }

  lemma FullPassLabels(l: Local, v: CR, e: Weather)
    requires ReadFrom(l, v) && l.ok && Generable(l.z.spec) && LabelInv(l.w)
    requires SmallRevisions(ReconcileFinalizers(l, e).w)
    ensures var r := FullPass(l, e);
            LabelInv(r.w) && LabelRises(l.w, r.w) && Grown(l.w, r.w)
  {
    FinalizersRead(l, v, e);
    var a := ReconcileFinalizers(l, e);
    SameSts(l.w, a.w);
    if a.ok {
      var u :| ReadFrom(a, u);
      MiddleStagesLabels(a, u, e);
      LabelComposes(l.w, a.w, MiddleStages(a, e).w);
    }
  }

  lemma LabelComposes(w: World, r: World, r': World)
    requires Grown(w, r) && Grown(r, r') && w.sts == r.sts && LabelRises(r, r')
    ensures LabelRises(w, r') && Grown(w, r')
  {
  }

  lemma SameSts(w: World, r: World)
    requires LabelInv(w) && Grown(w, r) && r.sts == w.sts
    ensures LabelInv(r) && LabelRises(w, r)
  {
    if w.sts.Some? {
      var u :| MadeFrom(w, w.sts.value, u);
      StillStored(w, r, u);
      assert MadeFrom(r, r.sts.value, u);
      forall x: nat, y: nat | Itoa(x) == Itoa(y)
        ensures x == y
      {
        ItoaInjective(x, y);
      }
    }
  }

  // ----- Passes and runs -----

  lemma SyncGrows(l: Local, found: Sts, next: Sts, e: Weather)
    ensures Grown(l.w, SyncExisting(l, found, next, e).w)
  {
    var a := if next.spec.replicas != found.spec.replicas then PublishSize(l, next.spec.replicas, e) else l;
    assert a.w == l.w.(znodes := a.w.znodes) && a.w.Versions() == l.w.Versions();
    var b := UpdateStatefulSet(a, Relabelled(found, l.z.rv), next, e);
    assert b.w.Versions() == a.w.Versions();
    UpgradeGrows(b, found.status, e);
  }

  lemma StatefulSetGrows(l: Local, e: Weather)
    requires Generable(l.z.spec)
    ensures Grown(l.w, ReconcileStatefulSet(l, e).w)
  {
    RecoveryGrows(l, e);
    var next := MakeStatefulSet(l.w.id, l.z.spec);
    if l.w.sts.Some? {
      SyncGrows(l, l.w.sts.value, next, e);
    }
    assert CreateStatefulSet(l, next, e).w.Versions() == l.w.Versions();
  }

  lemma MiddleStagesGrow(l: Local, e: Weather)
    requires Generable(l.z.spec)
    ensures Grown(l.w, MiddleStages(l, e).w)
  {
    StatefulSetGrows(l, e);
    ClusterStatusGrows(ReconcileStatefulSet(l, e), e);
  }

  lemma StoredIsOlder(w: World, v: CR)
    requires WorldInv(w) && v in w.Versions()
    ensures v.rv <= w.cr.rv
  {
    var vs := w.Versions();
    var i :| 0 <= i < |vs| && vs[i] == v;
    assert vs[|vs| - 1] == w.cr;
  }

  lemma SmallAt(w: World)
    requires WorldInv(w) && w.revision <= MAX_INT64
    ensures SmallRevisions(w)
  {
    forall u | u in w.Versions()
      ensures u.rv <= MAX_INT64
    {
      StoredIsOlder(w, u);
    }
  }

  lemma ReadPassLabels(l: Local, read: CR, e: Weather)
    requires LocalInv(l) && (l.z.rv == l.w.cr.rv ==> l.z.status == l.w.cr.status)
    requires ReadFrom(l, read) && l.ok && LabelInv(l.w) && Generable(l.z.spec) && FullPass(l, e).w.revision <= MAX_INT64
    ensures var r := FullPass(l, e);
            LabelInv(r.w) && LabelRises(l.w, r.w) && Grown(l.w, r.w)
  {
    FinalizersKeep(l, e);
    FinalizersRead(l, read, e);
    MiddleStagesGrow(ReconcileFinalizers(l, e), e);
    SmallAt(ReconcileFinalizers(l, e).w);
    FullPassLabels(l, read, e);
  }

  lemma UpdateLabels(l: Local, fate: Fate)
    requires LabelInv(l.w)
    ensures var r := UpdateObject(l, fate).w;
            LabelInv(r) && LabelRises(l.w, r) && Grown(l.w, r)
  {
    WriteGrows(l, l.w.cr.(spec := l.z.spec, finalizers := l.z.finalizers), fate);
    SameSts(l.w, UpdateObject(l, fate).w);
  }

  /** One pass, from any view and with any failures: the label still names a stored version, the
      StatefulSet is what that version generates, and the label never goes back. */
  lemma PassLabels(w: World, e: Weather)
    requires WorldInv(w) && LabelInv(w) && Pass(w, e).0.revision <= MAX_INT64
    ensures var r := Pass(w, e).0;
            LabelInv(r) && LabelRises(w, r) && Grown(w, r)
  {
    ViewIsStored(w, e);
    SameSts(w, w);
    var read := View(w, e);
    var l := Local(w, Prepared(read, w.id.name, e.now), true);
    if NeedsUpdate(read.spec) {
      UpdateLabels(l, e.Fate(UpdateDefaults));
    } else if !e.Fails(GetCR) && !(w.gone && e.view >= |w.older|) {
      DefaultedIsGenerable(read.spec, w.id.name);
      ReadPassLabels(l, read, e);
    }
  }

  /** A pass that reads a version older than the one the label names leaves the StatefulSet alone:
      label, spec and all. */
  lemma StalePassIsInert(w: World, e: Weather, named: CR)
    requires WorldInv(w) && w.sts.Some? && MadeFrom(w, w.sts.value, named) && named.rv <= MAX_INT64
    requires View(w, e).rv < named.rv
    ensures Pass(w, e).0.sts == w.sts
  {
    ViewIsStored(w, e);
    var read := View(w, e);
    StoredIsOlder(w, named);
    var l := Local(w, Prepared(read, w.id.name, e.now), true);
    if read.status.UpgradeFailed() {
      FailedPassFreezesStatefulSet(w, e);
    } else if !NeedsUpdate(read.spec) {
      DefaultedIsGenerable(read.spec, w.id.name);
      StaleFull(l, named, e);
    }
  }

  lemma StaleFull(l: Local, named: CR, e: Weather)
    requires LocalInv(l) && Generable(l.z.spec) && !l.z.status.UpgradeFailed()
    requires l.z.rv != l.w.cr.rv && l.z.rv < named.rv <= MAX_INT64
    requires l.w.sts.Some? && OwnerRv(l.w.sts.value) == Some(Itoa(named.rv))
    ensures FullPass(l, e).w.sts == l.w.sts
  {
    FinalizersKeep(l, e);
    OutdatedFinalizers(l, e);
    StaleMiddle(ReconcileFinalizers(l, e), named, e);
  }

  lemma StaleMiddle(l: Local, named: CR, e: Weather)
    requires Generable(l.z.spec) && !l.z.status.UpgradeFailed() && l.z.rv < named.rv <= MAX_INT64
    requires l.w.sts.Some? && OwnerRv(l.w.sts.value) == Some(Itoa(named.rv))
    ensures MiddleStages(l, e).w.sts == l.w.sts
  {
    CompareNumeric(l.z.rv, named.rv);
    var b := ReconcileStatefulSet(l, e);
    assert !b.ok && b.w == l.w;
  }

  lemma PassGrows(w: World, e: Weather)
    requires WorldInv(w)
    ensures Grown(w, Pass(w, e).0)
  {
    ViewIsStored(w, e);
    var read := View(w, e);
    var l := Local(w, Prepared(read, w.id.name, e.now), true);
    if NeedsUpdate(read.spec) {
      WriteGrows(l, w.cr.(spec := l.z.spec, finalizers := l.z.finalizers), e.Fate(UpdateDefaults));
    } else {
      assert ReadFrom(l, read);
      DefaultedIsGenerable(read.spec, w.id.name);
      FinalizersRead(l, read, e);
      MiddleStagesGrow(ReconcileFinalizers(l, e), e);
    }
  }

  lemma NextGrows(w: World, ev: Event)
    requires WorldInv(w)
    ensures Grown(w, Next(w, ev))
  {
    match ev
    case Reconciled(e) => PassGrows(w, e);
    case _ =>
  }

  lemma {:induction false} RunGrows(w: World, evs: seq<Event>)
    requires WorldInv(w)
    ensures Grown(w, Run(w, evs))
    decreases |evs|
  {
    if evs != [] {
      NextKeeps(w, evs[0]);
      NextGrows(w, evs[0]);
      RunGrows(Next(w, evs[0]), evs[1..]);
    }
  }

  lemma NextLabels(w: World, ev: Event)
    requires WorldInv(w) && LabelInv(w) && Next(w, ev).revision <= MAX_INT64
    ensures LabelInv(Next(w, ev)) && (!ev.StsDeleted? ==> LabelRises(w, Next(w, ev)))
  {
    var r := Next(w, ev);
    NextGrows(w, ev);
    match ev
    case Reconciled(e) => PassLabels(w, e);
    case StsDeleted =>
    case StsReported(status) => ReportLabels(w, status);
    case _ => SameSts(w, r);
  }

  lemma ReportLabels(w: World, status: StsStatus)
    requires LabelInv(w)
    ensures LabelInv(Reported(w, status)) && LabelRises(w, Reported(w, status))
  {
    SameSts(w, w);
    if w.sts.Some? {
      var u :| MadeFrom(w, w.sts.value, u);
      ReportMadeFrom(w, status, u);
    }
  }

  /** A report changes neither the label nor what the StatefulSet was made from. */
  lemma ReportMadeFrom(w: World, status: StsStatus, u: CR)
    requires w.sts.Some? && MadeFrom(w, w.sts.value, u)
    ensures var r := Reported(w, status);
            r.sts.Some? && MadeFrom(r, r.sts.value, u) && r.Versions() == w.Versions()
  {
    assert Reported(w, status).Versions() == w.Versions();
  }

  lemma RisesTwice(w: World, r: World, r': World)
    requires LabelInv(r) && LabelRises(w, r) && LabelRises(r, r')
    ensures LabelRises(w, r')
  {
    if w.sts.Some? {
      var u :| MadeFrom(r, r.sts.value, u);
    }
  }

  /** Over a whole run, while resource versions fit an integer: the label always names the stored
      version the StatefulSet was generated from, and as long as nobody deletes the StatefulSet it
      never goes back. */
  lemma {:induction false} LabelNamesItsVersion(w: World, evs: seq<Event>)
    requires WorldInv(w) && LabelInv(w) && Run(w, evs).revision <= MAX_INT64
    ensures LabelInv(Run(w, evs))
    ensures StsDeleted !in evs ==> LabelRises(w, Run(w, evs))
    decreases |evs|
  {
    SameSts(w, w);
    if evs != [] {
      var next := Next(w, evs[0]);
      NextKeeps(w, evs[0]);
      RunGrows(next, evs[1..]);
      NextLabels(w, evs[0]);
      LabelNamesItsVersion(next, evs[1..]);
      if StsDeleted !in evs {
        RisesTwice(w, next, Run(w, evs));
      }
    }
  }
}
