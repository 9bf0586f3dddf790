/** The reconciler step by step: methods that edit the object in memory and call the API server, each
    with the effect the specification of a pass gives it. */
module Reconciler {
  import opened Options
  import opened Text
  import opened Calls
  import opened ClusterSpec
  import opened ClusterStatus
  import opened Generators
  import opened Claims
  import opened Znodes
  import opened Model = Reconcile

  /** `SyncStatefulSet`. */
  method SyncStatefulSet(found: Sts, next: Sts) returns (curr: Sts)
    ensures curr == SyncedStatefulSet(found, next)
  {
    curr := found;
    curr := curr.(spec := curr.spec.(replicas := next.spec.replicas));
    curr := curr.(spec := curr.spec.(template := next.spec.template));
    curr := curr.(spec := curr.spec.(updateStrategy := next.spec.updateStrategy));
  }

  class ZookeeperClusterReconciler {
    /** What the API server and ZooKeeper hold. */
    var world: World

    // The instance being reconciled.
    var rv: nat
    var spec: Spec
    var deleting: bool
    var finalizers: seq<string>
    const status: ZookeeperClusterStatus

    constructor (w: World)
      ensures world == w && fresh(status)
    {
      world := w;
      rv, spec, deleting, finalizers := w.cr.rv, w.cr.spec, w.cr.deleting, w.cr.finalizers;
      status := new ZookeeperClusterStatus(w.cr.status);
    }

    function Instance(): CR
      reads this, status
    {
      CR(rv, spec, status.View(), deleting, finalizers)
    }

    function Here(ok: bool): Local
      reads this, status
    {
      Local(world, Instance(), ok)
    }

    method Load(c: CR)
      modifies this, status
      ensures world == old(world) && Instance() == c
    {
      rv, spec, deleting, finalizers := c.rv, c.spec, c.deleting, c.finalizers;
      status.Assign(c.status);
    }

    // ----- The API server -----

    method Put(c: CR, fate: Fate) returns (ok: bool)
      modifies this, status
      ensures Here(ok) == Write(old(Here(true)), c, fate)
    {
      if fate == Refused || world.gone || rv != world.cr.rv {
        return false;
      }
      if c != world.cr {
        world := world.(revision := world.revision + 1, older := world.older + [world.cr],
                        cr := c.(rv := world.revision + 1), gone := c.deleting && c.finalizers == []);
      }
      if fate == Done {
        Load(world.cr);
      }
      return fate == Done;
    }

    method Update(fate: Fate) returns (ok: bool)
      modifies this, status
      ensures Here(ok) == UpdateObject(old(Here(true)), fate)
    {
      ok := Put(world.cr.(spec := spec, finalizers := finalizers), fate);
    }

    method StatusUpdate(fate: Fate) returns (ok: bool)
      modifies this, status
      ensures Here(ok) == UpdateStatus(old(Here(true)), fate)
    {
      ok := Put(world.cr.(status := status.View()), fate);
    }

    // ----- Finalizers -----

    method DeletePVC(name: string, fate: Fate)
      modifies this`world
      ensures world == old(world).(
                         claims := if fate.Refused? then old(world.claims) else Removed(old(world.claims), name))
    {
      if fate != Refused {
        var claims := RemoveString(world.claims, name);
        world := world.(claims := claims);
      }
    }

    /** One delete while working through a list, of which `deleted` are gone already. */
    method DeleteListed(name: string, ghost list: seq<string>, ghost deleted: set<string>, e: Weather)
        returns (ghost after: set<string>)
      requires name in list && world.claims == Without(list, deleted)
      modifies this`world
      ensures world == old(world).(claims := Without(list, after))
      ensures after == if name in RefusedDeletes(e, list) then deleted else deleted + {name}
    {
      RemovedWithout(list, deleted, name);
      DeletePVC(name, e.Fate(DeleteClaim(name)));
      after := if name in RefusedDeletes(e, list) then deleted else deleted + {name};
    }

    method CleanupOrphanPVCs(e: Weather) returns (ok: bool)
      modifies this`world
      ensures Here(ok) == Model.CleanupOrphanPVCs(old(Here(true)), e)
    {
      if status.readyReplicas != spec.replicas {
        return true;
      }
      if e.Fails(ListClaims) {
        return false;
      }
      var pvcCount := |world.claims|;
      if pvcCount > spec.replicas {
        if e.Fails(ListClaimsAgain) {
          return false;
        }
        DeleteOrphans(world.claims, spec.replicas, e);
      }
      return true;
    }

    method DeleteOrphans(list: seq<string>, replicas: int, e: Weather)
      requires list == world.claims
      modifies this`world
      ensures world == old(world).(claims := Swept(list, replicas, RefusedDeletes(e, list)))
    {
      ghost var deleted, refused: set<string> := {}, RefusedDeletes(e, list);
      ghost var orphans := set c | c in list && IsPVCOrphan(c, replicas);
      WithoutNothing(list);
      for i := 0 to |list|
        invariant world == old(world).(claims := Without(list, deleted))
        invariant forall c :: c in deleted <==> c in list[..i] && c in orphans && c !in refused
      {
        var name := list[i];
        assert forall c :: c in list[..i + 1] <==> c in list[..i] || c == name;
        assert name in orphans <==> IsPVCOrphan(name, replicas);
        if IsPVCOrphan(name, replicas) {
          deleted := DeleteListed(name, list, deleted, e);
        }
      }
      assert list[..|list|] == list;
      OrphansIssued(list, replicas, refused, deleted);
    }

    method CleanUpAllPVCs(e: Weather) returns (ok: bool)
      modifies this`world
      ensures Here(ok) == Model.CleanUpAllPVCs(old(Here(true)), e)
    {
      if e.Fails(ListClaims) {
        return false;
      }
      DeleteAll(world.claims, e);
      return true;
    }

    method DeleteAll(list: seq<string>, e: Weather)
      requires list == world.claims
      modifies this`world
      ensures world == old(world).(claims := Without(list, (set c | c in list) - RefusedDeletes(e, list)))
    {
      ghost var deleted, refused: set<string> := {}, RefusedDeletes(e, list);
      WithoutNothing(list);
      for i := 0 to |list|
        invariant world == old(world).(claims := Without(list, deleted))
        invariant forall c :: c in deleted <==> c in list[..i] && c !in refused
      {
        var name := list[i];
        assert forall c :: c in list[..i + 1] <==> c in list[..i] || c == name;
        deleted := DeleteListed(name, list, deleted, e);
      }
      assert list[..|list|] == list;
      AllIssued(list, refused, deleted);
    }

    method ReconcileFinalizers(e: Weather) returns (ok: bool)
      modifies this, status
      ensures Here(ok) == Model.ReconcileFinalizers(old(Here(true)), e)
    {
      if spec.persistence.Some? && spec.persistence.value.reclaimPolicy != DELETE {
        return true;
      }
      if !deleting {
        var found := ContainsString(finalizers, ZK_FINALIZER);
        if !found && !world.disableFinalizer {
          finalizers := finalizers + [ZK_FINALIZER];
          ok := Update(e.Fate(UpdateFinalizers));
          if !ok {
            return;
          }
        }
        ok := CleanupOrphanPVCs(e);
      } else {
        var found := ContainsString(finalizers, ZK_FINALIZER);
        if found {
          ok := CleanUpAllPVCs(e);
          if !ok {
            return;
          }
          finalizers := RemoveString(finalizers, ZK_FINALIZER);
          ok := Update(e.Fate(UpdateFinalizers));
          return;
        }
        return true;
      }
    }

    // ----- The StatefulSet -----

    method PublishSize(size: int, e: Weather) returns (ok: bool)
      modifies this`world
      ensures Here(ok) == Model.PublishSize(old(Here(true)), size, e)
    {
      if e.Fails(Connect) {
        return false;
      }
      var path := MetaPath(world.id);
      if e.Fails(ZnodeExists) || path !in world.znodes {
        return false;
      }
      var version := world.znodes[path].version;
      var (znodes, _) := UpdateNode(world.znodes, path, SizeData(size), version, e.Fate(SetZnode));
      world := world.(znodes := znodes);
      return true;
    }

    method ClearUpgradeStatus(e: Weather) returns (ok: bool)
      modifies this, status
      ensures Here(ok) == Model.ClearUpgradeStatus(old(Here(true)), e)
    {
      status.SetUpgradingConditionFalse(e.Second());
      status.targetVersion := "";
      var kept := status.View();
      ok := Update(e.Fate(UpdateCleared));
      if ok {
        status.Assign(kept);
      }
    }

    method UpdateStatefulSet(found: Sts, next: Sts, e: Weather) returns (ok: bool)
      modifies this, status
      ensures Here(ok) == Model.UpdateStatefulSet(old(Here(true)), found, next, e)
    {
      var synced := SyncStatefulSet(found, next);
      if e.Fate(UpdateSts) == Refused {
        return false;
      }
      world := world.(sts := Some(synced), revision := world.revision + 1);
      if e.Fails(UpdateSts) {
        return false;
      }
      status.replicas := found.status.replicas;
      status.readyReplicas := found.status.readyReplicas;
      return true;
    }

    /** `checkSyncTimeout`: whether the deadline is exceeded. */
    method CheckSyncTimeout(reason: string, updatedReplicas: int, now: int) returns (exceeded: bool)
      ensures exceeded == TimedOut(status.View(), reason, updatedReplicas, now)
    {
      var last := status.View().LastCondition();
      if last.None? {
        return false;
      }
      if last.value.reason == reason && last.value.message == Itoa(updatedReplicas) {
        var parsedTime := ParseStamp(last.value.lastUpdateTime) * 1_000_000_000;
        if now > parsedTime + TEN_MINUTES {
          return true;
        }
      }
      return false;
    }

    method UpgradeStatefulSet(found: StsStatus, e: Weather) returns (ok: bool)
      modifies this, status
      ensures Here(ok) == Model.UpgradeStatefulSet(old(Here(true)), found, e)
    {
      // A copy: what is set below does not change it.
      var _, upgradeCondition := status.GetClusterCondition(Upgrading);
      if upgradeCondition.None? {
        status.SetUpgradingConditionFalse(e.Second());
        return true;
      }
      if upgradeCondition.value.status == IsFalse {
        if status.View().Ready() && found.currentRevision != found.updateRevision
           && spec.image.tag != status.currentVersion {
          status.targetVersion := spec.image.tag;
          status.SetPodsReadyCondition(IsFalse, e.Second());
          status.SetUpgradingConditionTrue("", "", e.Second());
        }
      }
      if upgradeCondition.value.status == IsTrue {
        if status.targetVersion == "" {
          ok := ClearUpgradeStatus(e);
          return;
        }
        if found.currentRevision == found.updateRevision {
          status.currentVersion := status.targetVersion;
          ok := ClearUpgradeStatus(e);
          return;
        }
        if Itoa(found.updatedReplicas) != upgradeCondition.value.message {
          status.UpdateProgress(UPDATING_REASON, Itoa(found.updatedReplicas), e.Second());
        } else {
          var exceeded := CheckSyncTimeout(UPDATING_REASON, found.updatedReplicas, e.now);
          if exceeded {
            status.SetErrorConditionTrue(UPGRADE_FAILED, DEADLINE_EXCEEDED, e.Second());
          } else {
            return true;
          }
        }
      }
      ok := StatusUpdate(e.Fate(WriteProgress));
    }

    method RecoverFailedUpgrade(e: Weather) returns (ok: bool)
      modifies this, status
      ensures Here(ok) == Model.RecoverFailedUpgrade(old(Here(true)), e)
    {
      if e.Fails(GetSts) || world.sts.None? {
        return true;
      }
      if e.Fails(UpdateSts) {
        return false;
      }
      var found := world.sts.value.status;
      if found.replicas == found.readyReplicas && found.currentRevision == found.updateRevision {
        status.currentVersion := status.targetVersion;
        status.SetErrorConditionFalse(e.Second());
        ok := ClearUpgradeStatus(e);
        return;
      }
      return true;
    }

    method CreateStatefulSet(next: Sts, e: Weather) returns (ok: bool)
      modifies this
      ensures Here(ok) == Model.CreateStatefulSet(old(Here(true)), next, e)
    {
      var labelled := next.(labels := next.labels[OWNER_RV := Itoa(rv)]);
      spec := spec.(labels := Some(labelled.labels));
      if e.Fate(CreateSts) == Refused {
        return false;
      }
      world := world.(sts := Some(labelled), revision := world.revision + 1);
      return e.Fate(CreateSts) == Done;
    }

    method SyncExisting(found: Sts, next: Sts, e: Weather) returns (ok: bool)
      modifies this, status
      ensures Here(ok) == Model.SyncExisting(old(Here(true)), found, next, e)
    {
      var cmp := CompareResourceVersion(Itoa(rv), OwnerRv(found));
      var foundSts := found;
      if cmp < 0 {
        return false;
      } else if cmp > 0 {
        foundSts := foundSts.(labels := foundSts.labels[OWNER_RV := Itoa(rv)]);
      }
      if next.spec.replicas != found.spec.replicas {
        ok := PublishSize(next.spec.replicas, e);
        if !ok {
          return;
        }
      }
      ok := UpdateStatefulSet(foundSts, next, e);
      if !ok {
        return;
      }
      ok := UpgradeStatefulSet(foundSts.status, e);
    }

    method ReconcileStatefulSet(e: Weather) returns (ok: bool)
      requires Generable(spec)
      modifies this, status
      ensures Here(ok) == Model.ReconcileStatefulSet(old(Here(true)), e)
    {
      if status.View().UpgradeFailed() {
        ok := RecoverFailedUpgrade(e);
        return;
      }
      if spec.pod.serviceAccountName != "default" {
        if e.Fails(SyncServiceAccount) {
          return false;
        }
      }
      if e.Fails(GetSts) {
        return false;
      }
      var next := MakeStatefulSet(world.id, spec);
      if world.sts.None? {
        ok := CreateStatefulSet(next, e);
      } else {
        ok := SyncExisting(world.sts.value, next, e);
      }
    }

    // ----- The status -----

    method CreateMetaRoot(e: Weather) returns (ok: bool)
      modifies this, status
      ensures Here(ok) == Model.CreateMetaRoot(old(Here(true)), e)
    {
      if spec.replicas != status.readyReplicas || status.metaRootCreated {
        return true;
      }
      if e.Fails(ConnectForRoot) {
        return false;
      }
      var zk := new ZookeeperClient(world.znodes);
      ok := zk.CreateNode(MetaPath(world.id), SizeData(spec.replicas), e.znodeFates);
      world := world.(znodes := zk.tree);
      if !ok {
        return;
      }
      status.metaRootCreated := true;
    }

    method InitAndRoot(e: Weather) returns (ok: bool)
      modifies this, status
      ensures Here(ok) == Rooted(old(Here(true)), e)
    {
      status.Init(e.Second());
      if e.Fails(ListPods) {
        return false;
      }
      ok := CreateMetaRoot(e);
    }

    method ReconcileClusterStatus(e: Weather) returns (ok: bool)
      modifies this, status
      ensures Here(ok) == Model.ReconcileClusterStatus(old(Here(true)), e)
    {
      if status.View().InUpgrade() || status.View().UpgradeFailed() {
        return true;
      }
      ok := InitAndRoot(e);
      if !ok {
        return;
      }
      if status.readyReplicas == spec.replicas {
        status.SetPodsReadyCondition(IsTrue, e.Second());
      } else {
        status.SetPodsReadyCondition(IsFalse, e.Second());
      }
      if status.currentVersion == "" && status.View().Ready() {
        status.currentVersion := spec.image.tag;
      }
      ok := StatusUpdate(e.Fate(WriteStatus));
    }

    // ----- The whole pass -----

    method RunAll(e: Weather) returns (ok: bool)
      requires Generable(spec)
      modifies this, status
      ensures Here(ok) == FullPass(old(Here(true)), e)
    {
      ok := ReconcileFinalizers(e);
      if !ok {
        return;
      }
      if e.Fails(SyncConfigMap) {
        return false;
      }
      ok := ReconcileStatefulSet(e);
      if !ok {
        return;
      }
      if OtherObjectsFail(e) {
        return false;
      }
      ok := ReconcileClusterStatus(e);
    }

    method Reconcile(e: Weather) returns (outcome: Outcome)
      modifies this, status
      ensures (world, outcome) == Pass(old(world), e)
    {
      if e.Fails(GetCR) {
        return Failed;
      }
      if world.gone && e.view >= |world.older| {
        return Absent;
      }
      var read := View(world, e);
      Load(read);
      var changed: bool;
      spec, changed := WithDefaults(spec, world.id.name);
      DefaultedIsGenerable(read.spec, world.id.name);
      if spec.triggerRollingRestart {
        var annotations := OrEmpty(spec.pod.annotations)["restartTime" := RestartTime(e.now)];
        spec := spec.(pod := spec.pod.(annotations := Some(annotations)));
        spec := spec.(triggerRollingRestart := false);
        changed := true;
      }
      if changed {
        var ok := Update(e.Fate(UpdateDefaults));
        return if ok then Requeued else Failed;
      }
      var ok := RunAll(e);
      return if ok then Complete else Failed;
    }
  }

  lemma OrphansIssued(list: seq<string>, replicas: int, refused: set<string>, deleted: set<string>)
    requires var orphans := set c | c in list && IsPVCOrphan(c, replicas);
             forall c :: c in deleted <==> c in list && c in orphans && c !in refused
    ensures deleted == set c | c in list && IsPVCOrphan(c, replicas) && c !in refused
  {
  }

  lemma AllIssued(list: seq<string>, refused: set<string>, deleted: set<string>)
    requires forall c :: c in deleted <==> c in list && c !in refused
    ensures deleted == (set c | c in list) - refused
  {
  }

  lemma {:induction false} WithoutNothing(claims: seq<string>)
    ensures Without(claims, {}) == claims
  {
    if claims != [] {
      WithoutNothing(claims[..|claims| - 1]);
    }
  }
}
