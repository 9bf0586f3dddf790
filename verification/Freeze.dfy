/** While an upgrade is failed no pass touches the StatefulSet, not even one that reads a version from
    before the failure: the label written before the failure was stored keeps such a pass out. */
module Freeze {
  import opened Options
  import opened Text
  import opened Calls
  import opened ClusterSpec
  import opened ClusterStatus
  import opened Generators
  import opened Reconcile
  import opened UpgradeInvariants
  import opened Runs
  import opened OwnerLabel

  /** The version is no older than any in which the upgrade is not failed. */
  ghost predicate Newest(w: World, named: CR) {
    forall v | v in w.Versions() && !v.status.UpgradeFailed() :: v.rv <= named.rv
  }

  /** While the upgrade is failed, the label names such a version. */
  ghost predicate FreezeInv(w: World) {
    w.cr.status.UpgradeFailed() ==> w.sts.Some? && exists named :: MadeFrom(w, w.sts.value, named) && Newest(w, named)
  }

  // ----- One pass -----

  lemma SameRevision(w: World, u: CR, v: CR)
    requires WorldInv(w) && u in w.Versions() && v in w.Versions() && u.rv == v.rv
    ensures u == v
  {
    var vs := w.Versions();
    var i :| 0 <= i < |vs| && vs[i] == u;
    var j :| 0 <= j < |vs| && vs[j] == v;
    assert i == j;
  }

  /** Writing the StatefulSet again from the version its label names changes nothing. */
  lemma RewriteIsInert(l: Local, named: CR, e: Weather)
    requires ReadFrom(l, named) && Generable(l.z.spec) && named.rv <= MAX_INT64
    requires l.w.sts.Some? && MadeFrom(l.w, l.w.sts.value, named)
    ensures SyncExisting(l, l.w.sts.value, MakeStatefulSet(l.w.id, l.z.spec), e).w.sts == l.w.sts
  {
    var found, next := l.w.sts.value, MakeStatefulSet(l.w.id, l.z.spec);
    CompareNumeric(named.rv, named.rv);
    assert SyncedStatefulSet(found, next) == found;
    UpgradeGrows(UpdateStatefulSet(l, found, next, e), found.status, e);
  }

  lemma RewriteMiddle(l: Local, named: CR, e: Weather)
    requires ReadFrom(l, named) && Generable(l.z.spec) && named.rv <= MAX_INT64 && !l.z.status.UpgradeFailed()
    requires l.w.sts.Some? && MadeFrom(l.w, l.w.sts.value, named)
    ensures MiddleStages(l, e).w.sts == l.w.sts
  {
    RewriteIsInert(l, named, e);
    ClusterStatusGrows(ReconcileStatefulSet(l, e), e);
  }

  /** A pass that reads the very version the label names, while a newer one is stored. */
  lemma RewritePassIsInert(w: World, e: Weather, named: CR)
    requires WorldInv(w) && w.sts.Some? && MadeFrom(w, w.sts.value, named) && named.rv <= MAX_INT64
    requires View(w, e) == named && named.rv != w.cr.rv && !named.status.UpgradeFailed()
    ensures Pass(w, e).0.sts == w.sts
  {
    ViewIsStored(w, e);
    var l := Local(w, Prepared(named, w.id.name, e.now), true);
    if !NeedsUpdate(named.spec) {
      DefaultedIsGenerable(named.spec, w.id.name);
      RewriteFull(l, named, e);
    }
  }

  lemma RewriteFull(l: Local, named: CR, e: Weather)
    requires ReadFrom(l, named) && Generable(l.z.spec) && named.rv <= MAX_INT64 && !l.z.status.UpgradeFailed()
    requires LocalInv(l) && l.z.rv != l.w.cr.rv && l.w.sts.Some? && MadeFrom(l.w, l.w.sts.value, named)
    ensures FullPass(l, e).w.sts == l.w.sts
  {
    FinalizersKeep(l, e);
    OutdatedFinalizers(l, e);
    var a := ReconcileFinalizers(l, e);
    assert a.w.Versions() == l.w.Versions();
    assert ReadFrom(a, named) && MadeFrom(a.w, a.w.sts.value, named);
    RewriteMiddle(a, named, e);
  }

  /** While the stored upgrade is failed and the label names a version no older than any that is not, no
      pass alters the StatefulSet, whatever version it reads. */
  lemma FailedWorldFreezes(w: World, e: Weather)
    requires WorldInv(w) && FreezeInv(w) && w.cr.status.UpgradeFailed() && w.revision <= MAX_INT64
    ensures Pass(w, e).0.sts == w.sts
  {
    ViewIsStored(w, e);
    SmallAt(w);
    var read := View(w, e);
    if read.status.UpgradeFailed() {
      FailedPassFreezesStatefulSet(w, e);
    } else {
      var named :| MadeFrom(w, w.sts.value, named) && Newest(w, named);
      assert read in w.Versions();
      if read.rv < named.rv {
        StalePassIsInert(w, e, named);
      } else {
        SameRevision(w, read, named);
        RewritePassIsInert(w, e, named);
      }
    }
  }

  // ----- The label names the newest version that is not failed -----

  lemma CarriesFreeze(w: World, r: World)
    requires FreezeInv(w) && Grown(w, r) && r.sts == w.sts
    requires r.cr.status.UpgradeFailed() ==> w.cr.status.UpgradeFailed()
    requires forall v | v in r.Versions() && v !in w.Versions() :: v.status.UpgradeFailed()
    ensures FreezeInv(r)
  {
    if r.cr.status.UpgradeFailed() {
      var named :| MadeFrom(w, w.sts.value, named) && Newest(w, named);
      StillStored(w, r, named);
      assert MadeFrom(r, r.sts.value, named) && Newest(r, named);
    }
  }

  /** A write of the object may store a new failure only if the label names the version it replaces. */
  lemma WriteFreezes(l: Local, c: CR, fate: Fate)
    requires WorldInv(l.w) && FreezeInv(l.w)
    requires c.status.UpgradeFailed() && !l.w.cr.status.UpgradeFailed() && !Conflicts(l) ==>
               l.w.sts.Some? && MadeFrom(l.w, l.w.sts.value, l.w.cr)
    ensures FreezeInv(Write(l, c, fate).w)
  {
    var w, r := l.w, Write(l, c, fate).w;
    WriteGrows(l, c, fate);
    if r != w && r.cr.status.UpgradeFailed() {
      assert r.Versions() == w.Versions() + [r.cr];
      assert w.Versions()[|w.older|] == w.cr;
      if w.cr.status.UpgradeFailed() {
        CarriesFreeze(w, r);
      } else {
        StillStored(w, r, w.cr);
        forall v | v in r.Versions() && !v.status.UpgradeFailed()
          ensures v.rv <= w.cr.rv
        {
          StoredIsOlder(w, v);
        }
        assert MadeFrom(r, r.sts.value, w.cr) && Newest(r, w.cr);
      }
    }
  }

  lemma UpdateFreezes(l: Local, fate: Fate)
    requires WorldInv(l.w) && FreezeInv(l.w)
    ensures FreezeInv(UpdateObject(l, fate).w)
  {
    WriteFreezes(l, l.w.cr.(spec := l.z.spec, finalizers := l.z.finalizers), fate);
  }

  lemma SameFreeze(w: World, r: World)
    requires FreezeInv(w) && r.cr == w.cr && r.older == w.older && r.id == w.id && r.sts == w.sts
    requires w.revision <= r.revision
    ensures FreezeInv(r)
  {
    assert r.Versions() == w.Versions();
    CarriesFreeze(w, r);
  }

  lemma KeepFinalizerFreezes(l: Local, e: Weather)
    requires WorldInv(l.w) && FreezeInv(l.w)
    ensures FreezeInv(KeepFinalizer(l, e).w)
  {
    var added := l.(z := l.z.(finalizers := l.z.finalizers + [Claims.ZK_FINALIZER]));
    UpdateFreezes(added, e.Fate(UpdateFinalizers));
    var u := UpdateObject(added, e.Fate(UpdateFinalizers));
    SameFreeze(l.w, CleanupOrphanPVCs(l, e).w);
    SameFreeze(u.w, CleanupOrphanPVCs(u, e).w);
  }

  lemma DropFinalizerFreezes(l: Local, e: Weather)
    requires WorldInv(l.w) && FreezeInv(l.w)
    ensures FreezeInv(DropFinalizer(l, e).w)
  {
    var a := CleanUpAllPVCs(l, e);
    assert a.w.Versions() == l.w.Versions();
    SameFreeze(l.w, a.w);
    var finalizers := Claims.Removed(a.z.finalizers, Claims.ZK_FINALIZER);
    UpdateFreezes(a.(z := a.z.(finalizers := finalizers)), e.Fate(UpdateFinalizers));
  }

  lemma FinalizersFreeze(l: Local, e: Weather)
    requires WorldInv(l.w) && FreezeInv(l.w)
    ensures FreezeInv(ReconcileFinalizers(l, e).w)
  {
    KeepFinalizerFreezes(l, e);
    DropFinalizerFreezes(l, e);
  }

  lemma ClearFreezes(l: Local, e: Weather)
    requires WorldInv(l.w) && FreezeInv(l.w)
    ensures FreezeInv(ClearUpgradeStatus(l, e).w)
  {
    var cleared := l.WithStatus(l.z.status.With(Upgrading, IsFalse, "", "", e.Second()).(targetVersion := ""));
    UpdateFreezes(cleared, e.Fate(UpdateCleared));
  }

  /** The stage that stores a failure, right after the StatefulSet was labelled with the current version. */
  lemma UpgradeFreezes(l: Local, found: StsStatus, e: Weather)
    requires WorldInv(l.w) && FreezeInv(l.w) && l.w.sts.Some? && MadeFrom(l.w, l.w.sts.value, l.w.cr)
    ensures FreezeInv(UpgradeStatefulSet(l, found, e).w)
  {
    match Judge(l.z.status, l.z.spec.image.tag, found, e.now)
    case Remember(s) =>
    case Persist(s) => WriteFreezes(l.WithStatus(s), l.w.cr.(status := s), e.Fate(WriteProgress));
    case Clear(s) => ClearFreezes(l.WithStatus(s), e);
  }

  /** The settled status is as failed as the one it came from. */
  lemma SettledFailure(l: Local, e: Weather)
    ensures SettledStatus(Rooted(l, e).z, e.Second()).UpgradeFailed() == l.z.status.UpgradeFailed()
  {
    RootedEffect(l, e);
    InitialisedEffect(l.z.status, e.Second());
    var z := Rooted(l, e).z;
    var ready := if z.status.readyReplicas == z.spec.replicas then IsTrue else IsFalse;
    WithEffect(z.status, PodsReady, ready, "", "", e.Second());
  }

  lemma LastStagesEnd(l: Local, e: Weather)
    ensures var a := Rooted(l, e);
            var r := UpdateStatus(a.WithStatus(SettledStatus(a.z, e.Second())), e.Fate(WriteStatus));
            LastStages(l, e).w in {l.w, a.w} || (!l.z.status.UpgradeFailed() && LastStages(l, e).w == r.w)
  {
  }

  lemma LastStagesFreeze(l: Local, e: Weather)
    requires WorldInv(l.w) && FreezeInv(l.w)
    ensures FreezeInv(LastStages(l, e).w)
  {
    RootedEffect(l, e);
    var a := Rooted(l, e);
    SameFreeze(l.w, a.w);
    LastStagesEnd(l, e);
    if !l.z.status.UpgradeFailed() {
      SettledFailure(l, e);
      SettledFreezes(a, SettledStatus(a.z, e.Second()), e.Fate(WriteStatus));
    }
  }

  lemma SettledFreezes(l: Local, t: Status, fate: Fate)
    requires WorldInv(l.w) && FreezeInv(l.w) && !t.UpgradeFailed()
    ensures FreezeInv(UpdateStatus(l.WithStatus(t), fate).w)
  {
    WriteFreezes(l.WithStatus(t), l.w.cr.(status := t), fate);
  }

  /** A pass over the current version, in which the upgrade is not failed, from the write of the
      StatefulSet to the upgrade stage. */
  lemma UpdatedFreezes(l: Local, found: Sts, u: CR, e: Weather)
    requires WorldInv(l.w) && !l.w.cr.status.UpgradeFailed() && ReadFrom(l, l.w.cr) && Generable(l.z.spec)
    requires l.w.sts == Some(found) && OwnerRv(found) == Some(Itoa(u.rv)) && u.rv <= l.w.cr.rv <= MAX_INT64
    ensures var b := UpdateStatefulSet(l, Relabelled(found, l.z.rv), MakeStatefulSet(l.w.id, l.z.spec), e);
            FreezeInv(b.w) && (b.ok ==> FreezeInv(UpgradeStatefulSet(b, found.status, e).w))
  {
    UpdateMakes(l, found, l.w.cr, u, e);
    var b := UpdateStatefulSet(l, Relabelled(found, l.z.rv), MakeStatefulSet(l.w.id, l.z.spec), e);
    assert b.w.cr == l.w.cr && b.w.Versions() == l.w.Versions();
    if b.ok {
      UpgradeFreezes(b, found.status, e);
    }
  }

  lemma PublishKeepsReading(l: Local, size: int, e: Weather)
    ensures var a := PublishSize(l, size, e);
            a.w == l.w.(znodes := a.w.znodes) && a.z == l.z && a.w.Versions() == l.w.Versions()
  {
  }

  lemma SyncFreezes(l: Local, found: Sts, u: CR, e: Weather)
    requires WorldInv(l.w) && !l.w.cr.status.UpgradeFailed() && ReadFrom(l, l.w.cr) && Generable(l.z.spec)
    requires l.w.sts == Some(found) && MadeFrom(l.w, found, u) && l.w.cr.rv <= MAX_INT64
    ensures FreezeInv(SyncExisting(l, found, MakeStatefulSet(l.w.id, l.z.spec), e).w)
  {
    var next := MakeStatefulSet(l.w.id, l.z.spec);
    StoredIsOlder(l.w, u);
    CompareNumeric(l.z.rv, u.rv);
    var a := if next.spec.replicas != found.spec.replicas then PublishSize(l, next.spec.replicas, e) else l;
    PublishKeepsReading(l, next.spec.replicas, e);
    if a.ok {
      UpdatedFreezes(a, found, u, e);
    }
  }

  lemma RecoveryFreezes(l: Local, e: Weather)
    requires WorldInv(l.w) && FreezeInv(l.w)
    ensures FreezeInv(RecoverFailedUpgrade(l, e).w)
  {
    var s := l.z.status;
    ClearFreezes(l.WithStatus(s.Recovered(e.Second())), e);
  }

  lemma CreationFreezes(l: Local, next: Sts, e: Weather)
    requires !l.w.cr.status.UpgradeFailed()
    ensures FreezeInv(CreateStatefulSet(l, next, e).w)
  {
    assert CreateStatefulSet(l, next, e).w.cr == l.w.cr;
  }

  lemma ExistingFreezes(l: Local, e: Weather)
    requires WorldInv(l.w) && !l.w.cr.status.UpgradeFailed() && ReadFrom(l, l.w.cr) && Generable(l.z.spec)
    requires l.w.sts.Some? && LabelInv(l.w) && l.w.cr.rv <= MAX_INT64
    ensures FreezeInv(SyncExisting(l, l.w.sts.value, MakeStatefulSet(l.w.id, l.z.spec), e).w)
  {
    var u :| MadeFrom(l.w, l.w.sts.value, u);
    SyncFreezes(l, l.w.sts.value, u, e);
  }

  lemma StatefulSetFreezes(l: Local, e: Weather)
    requires LocalInv(l) && FreezeInv(l.w) && LabelInv(l.w) && Generable(l.z.spec) && ReadFrom(l, l.w.cr)
    requires l.z.status == l.w.cr.status && l.w.cr.rv <= MAX_INT64
    ensures FreezeInv(ReconcileStatefulSet(l, e).w)
  {
    if l.z.status.UpgradeFailed() {
      RecoveryFreezes(l, e);
    } else if l.w.sts.Some? {
      ExistingFreezes(l, e);
    } else {
      CreationFreezes(l, MakeStatefulSet(l.w.id, l.z.spec), e);
    }
  }

  lemma MiddleStagesFreeze(l: Local, e: Weather)
    requires LocalInv(l) && FreezeInv(l.w) && LabelInv(l.w) && Generable(l.z.spec) && ReadFrom(l, l.w.cr)
    requires l.z.status == l.w.cr.status && l.w.cr.rv <= MAX_INT64
    ensures FreezeInv(MiddleStages(l, e).w)
  {
    StatefulSetKeeps(l, e);
    StatefulSetFreezes(l, e);
    LastStagesFreeze(ReconcileStatefulSet(l, e), e);
  }

  lemma CurrentPassFreezes(l: Local, e: Weather)
    requires LocalInv(l) && l.ok && FreezeInv(l.w) && LabelInv(l.w) && Generable(l.z.spec) && ReadFrom(l, l.w.cr)
    requires l.z.status == l.w.cr.status && FullPass(l, e).w.revision <= MAX_INT64
    ensures FreezeInv(FullPass(l, e).w)
  {
    FinalizersFreeze(l, e);
    FinalizersKeep(l, e);
    FinalizersRead(l, l.w.cr, e);
    var a := ReconcileFinalizers(l, e);
    MiddleStagesGrow(a, e);
    SameSts(l.w, a.w);
    if a.ok {
      var u :| ReadFrom(a, u);
      CurrentIsRead(a, u);
      MiddleStagesFreeze(a, e);
    }
  }

  lemma CurrentIsRead(l: Local, u: CR)
    requires WorldInv(l.w) && ReadFrom(l, u) && l.z.rv == l.w.cr.rv
    ensures ReadFrom(l, l.w.cr)
  {
    assert l.w.Versions()[|l.w.older|] == l.w.cr;
    SameRevision(l.w, u, l.w.cr);
  }

  lemma PassFreezes(w: World, e: Weather)
    requires WorldInv(w) && LabelInv(w) && FreezeInv(w) && Pass(w, e).0.revision <= MAX_INT64
    ensures FreezeInv(Pass(w, e).0)
  {
    ViewIsStored(w, e);
    PassGrows(w, e);
    var read := View(w, e);
    if read.rv != w.cr.rv {
      OutdatedPass(w, e);
      if w.cr.status.UpgradeFailed() {
        FailedWorldFreezes(w, e);
        SameFreeze(w, Pass(w, e).0);
      }
    } else {
      CurrentPass(w, e);
    }
  }

  lemma CurrentPass(w: World, e: Weather)
    requires WorldInv(w) && LabelInv(w) && FreezeInv(w) && Pass(w, e).0.revision <= MAX_INT64 && View(w, e) == w.cr
    ensures FreezeInv(Pass(w, e).0)
  {
    var l := Local(w, Prepared(w.cr, w.id.name, e.now), true);
    if NeedsUpdate(w.cr.spec) {
      UpdateFreezes(l, e.Fate(UpdateDefaults));
    } else if !e.Fails(GetCR) && !(w.gone && e.view >= |w.older|) {
      DefaultedIsGenerable(w.cr.spec, w.id.name);
      assert w.Versions()[|w.older|] == w.cr;
      CurrentPassFreezes(l, e);
    }
  }

  // ----- Runs -----

  /** Nobody deletes the StatefulSet while the upgrade is failed. */
  ghost predicate Spared(w: World, evs: seq<Event>)
    decreases |evs|
  {
    evs == [] || ((evs[0].StsDeleted? ==> !w.cr.status.UpgradeFailed()) && Spared(Next(w, evs[0]), evs[1..]))
  }

  lemma NextFreezes(w: World, ev: Event)
    requires WorldInv(w) && LabelInv(w) && FreezeInv(w) && Next(w, ev).revision <= MAX_INT64
    requires ev.StsDeleted? ==> !w.cr.status.UpgradeFailed()
    ensures FreezeInv(Next(w, ev))
  {
    match ev
    case StsDeleted =>
    case Reconciled(e) => PassFreezes(w, e);
    case SpecEdited(spec) => EditFreezes(w, w.cr.(spec := spec));
    case DeletionRequested => EditFreezes(w, w.cr.(deleting := true));
    case StsReported(status) => ReportFreezes(w, status);
    case _ => SameFreeze(w, Next(w, ev));
  }

  lemma EditFreezes(w: World, c: CR)
    requires WorldInv(w) && FreezeInv(w) && c.status == w.cr.status
    ensures !w.gone ==> FreezeInv(StoreVersion(w, c))
  {
    WriteFreezes(Local(w, w.cr, true), c, Done);
  }

  lemma ReportFreezes(w: World, status: StsStatus)
    requires FreezeInv(w)
    ensures FreezeInv(Reported(w, status))
  {
    if w.cr.status.UpgradeFailed() {
      var named :| MadeFrom(w, w.sts.value, named) && Newest(w, named);
      ReportMadeFrom(w, status, named);
      assert Newest(Reported(w, status), named);
    }
  }

  lemma {:induction false} RunFreezes(w: World, evs: seq<Event>)
    requires WorldInv(w) && LabelInv(w) && FreezeInv(w) && Spared(w, evs) && Run(w, evs).revision <= MAX_INT64
    ensures FreezeInv(Run(w, evs))
    decreases |evs|
  {
    if evs != [] {
      var next := Next(w, evs[0]);
      NextKeeps(w, evs[0]);
      RunGrows(next, evs[1..]);
      NextLabels(w, evs[0]);
      NextFreezes(w, evs[0]);
      RunFreezes(next, evs[1..]);
    }
  }

  /** In every run in which nobody deletes the StatefulSet of a failed upgrade: whenever the stored upgrade
      is failed, no pass, whatever version it reads and whatever fails, alters the StatefulSet. */
  lemma FailedUpgradeFreezes(
    id: Identity, disableFinalizer: bool, revision: nat, spec: Spec, evs: seq<Event>, e: Weather)
    requires var start := Created(id, disableFinalizer, revision, spec);
             var w := Run(start, evs);
             Spared(start, evs) && w.revision <= MAX_INT64 && w.cr.status.UpgradeFailed()
    ensures var w := Run(Created(id, disableFinalizer, revision, spec), evs);
            Pass(w, e).0.sts == w.sts
  {
    var w := Created(id, disableFinalizer, revision, spec);
    RunKeeps(w, evs);
    RunFreezes(w, evs);
    FailedWorldFreezes(Run(w, evs), e);
  }

  /** A StatefulSet deleted while the upgrade is failed is created again only by a pass that reads an
      outdated version, one in which the upgrade is not failed. */
  lemma OnlyOutdatedPassesCreate(w: World, e: Weather)
    requires WorldInv(w) && w.cr.status.UpgradeFailed() && w.sts.None? && Pass(w, e).0.sts.Some?
    ensures View(w, e) != w.cr && !View(w, e).status.UpgradeFailed()
  {
    if View(w, e).status.UpgradeFailed() {
      FailedPassFreezesStatefulSet(w, e);
    }
  }
}
