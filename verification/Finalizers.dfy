/** The finalizer and the end of the object: when the finalizer is stored, what a deletion needs, and that the
    object is gone exactly when it is marked for deletion and has no finalizer left. */
module Finalizers {
  import opened Calls
  import opened ClusterStatus
  import opened Generators
  import opened Claims
  import opened Reconcile
  import opened UpgradeInvariants
  import Runs
  import opened Scaling

  /** The object is gone exactly when it is marked for deletion and nothing holds it. */
  ghost predicate GoneRightly(w: World) {
    w.gone <==> w.cr.deleting && w.cr.finalizers == []
  }

  /** A stage neither marks the object nor unmarks it, and keeps that so. */
  ghost predicate EndsAlike(w: World, r: World) {
    r.cr.deleting == w.cr.deleting && (GoneRightly(w) ==> GoneRightly(r))
  }

  lemma WriteGone(l: Local, c: CR, fate: Fate)
    requires c.deleting == l.w.cr.deleting
    ensures EndsAlike(l.w, Write(l, c, fate).w)
  {
  }

  lemma ClearGone(l: Local, e: Weather)
    ensures EndsAlike(l.w, ClearUpgradeStatus(l, e).w)
  {
    var cleared := l.WithStatus(l.z.status.With(Upgrading, IsFalse, "", "", e.Second()).(targetVersion := ""));
    WriteGone(cleared, l.w.cr.(spec := l.z.spec, finalizers := l.z.finalizers), e.Fate(UpdateCleared));
  }

  lemma UpgradeGone(l: Local, found: StsStatus, e: Weather)
    ensures EndsAlike(l.w, UpgradeStatefulSet(l, found, e).w)
  {
    match Judge(l.z.status, l.z.spec.image.tag, found, e.now)
    case Remember(s) =>
    case Persist(s) => WriteGone(l.WithStatus(s), l.w.cr.(status := s), e.Fate(WriteProgress));
    case Clear(s) => ClearGone(l.WithStatus(s), e);
  }

  lemma SyncGone(l: Local, found: Sts, next: Sts, e: Weather)
    ensures EndsAlike(l.w, SyncExisting(l, found, next, e).w)
  {
    var a := if next.spec.replicas != found.spec.replicas then PublishSize(l, next.spec.replicas, e) else l;
    PublishEffect(l, next.spec.replicas, e);
    var b := UpdateStatefulSet(a, Relabelled(found, l.z.rv), next, e);
    assert EndsAlike(l.w, b.w);
    UpgradeGone(b, found.status, e);
  }

  lemma StatefulSetGone(l: Local, e: Weather)
    requires Generable(l.z.spec)
    ensures EndsAlike(l.w, ReconcileStatefulSet(l, e).w)
  {
    if l.z.status.UpgradeFailed() {
      ClearGone(l.WithStatus(l.z.status.Recovered(e.Second())), e);
    } else if l.w.sts.Some? {
      SyncGone(l, l.w.sts.value, MakeStatefulSet(l.w.id, l.z.spec), e);
    }
  }

  lemma LastStagesGone(l: Local, e: Weather)
    ensures EndsAlike(l.w, LastStages(l, e).w)
  {
    RootedEffect(l, e);
    var a := Rooted(l, e);
    var t := SettledStatus(a.z, e.Second());
    WriteGone(a.WithStatus(t), a.w.cr.(status := t), e.Fate(WriteStatus));
  }

  lemma FinalizersGone(l: Local, e: Weather)
    ensures EndsAlike(l.w, ReconcileFinalizers(l, e).w)
  {
    var added := l.(z := l.z.(finalizers := l.z.finalizers + [ZK_FINALIZER]));
    WriteGone(added, l.w.cr.(spec := added.z.spec, finalizers := added.z.finalizers), e.Fate(UpdateFinalizers));
    var a := CleanUpAllPVCs(l, e);
    var dropped := a.(z := a.z.(finalizers := Removed(a.z.finalizers, ZK_FINALIZER)));
    WriteGone(dropped, a.w.cr.(spec := a.z.spec, finalizers := dropped.z.finalizers), e.Fate(UpdateFinalizers));
  }

  lemma MiddleStagesGone(l: Local, e: Weather)
    requires Generable(l.z.spec)
    ensures EndsAlike(l.w, MiddleStages(l, e).w)
  {
    StatefulSetGone(l, e);
    LastStagesGone(ReconcileStatefulSet(l, e), e);
  }

  lemma PassGone(w: World, e: Weather)
    ensures EndsAlike(w, Pass(w, e).0)
  {
    var read := View(w, e);
    var l := Local(w, Prepared(read, w.id.name, e.now), true);
    DefaultedIsGenerable(read.spec, w.id.name);
    if NeedsUpdate(read.spec) {
      WriteGone(l, w.cr.(spec := l.z.spec, finalizers := l.z.finalizers), e.Fate(UpdateDefaults));
    } else {
      FinalizersGone(l, e);
      MiddleStagesGone(ReconcileFinalizers(l, e), e);
    }
  }

  /** Over whole runs the object is gone exactly when it is marked for deletion and has no finalizer. */
  lemma {:induction false} RunGone(w: World, evs: seq<Runs.Event>)
    requires GoneRightly(w)
    ensures GoneRightly(Runs.Run(w, evs))
    decreases |evs|
  {
    if evs != [] {
      if evs[0].Reconciled? {
        PassGone(w, evs[0].e);
      }
      RunGone(Runs.Next(w, evs[0]), evs[1..]);
    }
  }

  // ----- The finalizer -----

  lemma AddedIsStored(l: Local, e: Weather)
    requires l.ok && KeepFinalizer(l, e).ok && l.z.rv == l.w.cr.rv && l.z.finalizers == l.w.cr.finalizers
    ensures var r := KeepFinalizer(l, e);
            && r.w.cr.finalizers == l.z.finalizers
                                    + (if ZK_FINALIZER in l.z.finalizers || l.w.disableFinalizer then []
                                       else ["cleanUpZookeeperPVC"])
            && FinalizersKnown(r)
  {
  }

  lemma FullPassStores(l: Local, e: Weather)
    requires LocalInv(l) && l.ok && Generable(l.z.spec) && FullPass(l, e).ok && !l.z.deleting
    requires l.z.rv == l.w.cr.rv && l.z.status == l.w.cr.status && l.z.finalizers == l.w.cr.finalizers
    ensures FullPass(l, e).w.cr.finalizers
            == l.w.cr.finalizers + (if !ReclaimsVolumes(l.z.spec) || l.w.disableFinalizer
                                       || ZK_FINALIZER in l.w.cr.finalizers then [] else ["cleanUpZookeeperPVC"])
  {
    FinalizersKeep(l, e);
    var a := ReconcileFinalizers(l, e);
    if ReclaimsVolumes(l.z.spec) {
      AddedIsStored(l, e);
    }
    MiddleStagesLeaveFinalizers(a, e);
  }

  /** A complete pass over the current version of a live object whose volumes are to be reclaimed leaves the
      finalizer stored, unless finalizers are disabled; no other finalizer comes or goes. */
  lemma FinalizerIsStored(w: World, e: Weather)
    requires WorldInv(w) && View(w, e) == w.cr && Pass(w, e).1 == Complete && !w.cr.deleting
    ensures var r := Pass(w, e).0;
            r.cr.finalizers == w.cr.finalizers
                               + (if !ToReclaim(w.cr.spec) || w.disableFinalizer
                                     || "cleanUpZookeeperPVC" in w.cr.finalizers
                                  then [] else ["cleanUpZookeeperPVC"])
  {
    DefaultedIsGenerable(w.cr.spec, w.id.name);
    ReclaimIsStored(w.cr.spec, w.id.name);
    var l := PreparedIsConsistent(w, e);
    FullPassStores(l, e);
  }

  lemma DroppedIsStored(l: Local, e: Weather)
    requires l.ok && l.z.rv == l.w.cr.rv && l.z.finalizers == l.w.cr.finalizers && !l.w.gone && WorldInv(l.w)
    requires !e.Fails(ListClaims) && e.Fate(UpdateFinalizers) != Refused
    ensures var r := DropFinalizer(l, e);
            && r.w.cr.finalizers == Removed(l.z.finalizers, ZK_FINALIZER)
            && (forall c :: c in r.w.claims <==> c in l.w.claims && e.Fate(DeleteClaim(c)) == Refused)
            && (r.ok ==> FinalizersKnown(r))
  {
    WithoutMembers(l.w.claims, (set c | c in l.w.claims) - RefusedDeletes(e, l.w.claims));
  }

  /** A pass over the current version of an object marked for deletion, which holds the finalizer and whose
      volumes are to be reclaimed: once the claims are listed and the update is not refused, only claims whose
      delete was refused are left, and the object is gone unless another finalizer holds it. */
  lemma DeletionCompletes(w: World, e: Weather)
    requires WorldInv(w) && GoneRightly(w) && View(w, e) == w.cr && !NeedsUpdate(w.cr.spec) && !e.Fails(GetCR)
    requires w.cr.deleting && ToReclaim(w.cr.spec) && "cleanUpZookeeperPVC" in w.cr.finalizers
    requires !e.Fails(ListClaims) && e.Fate(UpdateFinalizers) != Refused
    ensures var r := Pass(w, e).0;
            && (forall c :: c in r.claims <==> c in w.claims && e.Fate(DeleteClaim(c)) == Refused)
            && (forall f :: f in r.cr.finalizers <==> f in w.cr.finalizers && f != "cleanUpZookeeperPVC")
            && (r.gone <==> forall f | f in w.cr.finalizers :: f == "cleanUpZookeeperPVC")
  {
    DefaultedIsGenerable(w.cr.spec, w.id.name);
    ReclaimIsStored(w.cr.spec, w.id.name);
    PassGone(w, e);
    var l := PreparedIsConsistent(w, e);
    DroppedIsStored(l, e);
    RemovedMembers(w.cr.finalizers, ZK_FINALIZER);
    FinalizersKeep(l, e);
    var a := ReconcileFinalizers(l, e);
    MiddleStagesPublish(a, e);
    if a.ok {
      MiddleStagesLeaveFinalizers(a, e);
    }
    assert Pass(w, e).0.cr.finalizers != [] ==> Pass(w, e).0.cr.finalizers[0] in Pass(w, e).0.cr.finalizers;
  }
}
