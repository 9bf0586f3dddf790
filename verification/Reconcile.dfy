/** The API server as a store of versions, and one reconcile pass as a function of what it reads
    (controllers/zookeepercluster_controller.go).

    Every call a pass makes has a fate. A pass may read any stored version of the cluster object,
    as a cached client does; a write of the object from an outdated version conflicts. */
module Reconcile {
  import opened Options
  import opened Text
  import opened Calls
  import opened ClusterSpec
  import opened ClusterStatus
  import opened Generators
  import opened Claims
  import opened Znodes

  /** One stored version of the ZookeeperCluster object. */
  datatype CR = CR(rv: nat, spec: Spec, status: Status, deleting: bool, finalizers: seq<string>)

  /** `cr` is the current version of the object and `older` every version stored before it.
      `revision` is the store's counter, from which resource versions are taken. */
  datatype World = World(
    id: Identity, disableFinalizer: bool, revision: nat, older: seq<CR>, cr: CR, gone: bool,
    sts: Option<Sts>, claims: seq<string>, znodes: Tree)
  {
    /** Every version of the object that was ever stored. */
    function Versions(): seq<CR> { older + [cr] }
  }

  datatype Call =
    | GetCR | UpdateDefaults | UpdateFinalizers | ListClaims | ListClaimsAgain | DeleteClaim(claim: string)
    | SyncConfigMap | SyncServiceAccount | GetSts | CreateSts | UpdateSts | Connect | ZnodeExists | SetZnode
    | WriteProgress | UpdateCleared | SyncClientService | SyncHeadlessService | SyncAdminService
    | CreatePdb | ListPods | ConnectForRoot | WriteStatus

  /** What a pass meets: the version it reads, the clock in nanoseconds, and how its calls end. */
  datatype Weather = Weather(view: nat, now: int, fates: map<Call, Fate>, znodeFates: map<string, Fate>)
  {
    function Fate(c: Call): Fate { if c in fates then fates[c] else Done }

    predicate Fails(c: Call) { Fate(c) != Done }

    function Second(): int { now / 1_000_000_000 }
  }

  /** A pass under way: the store, the object in memory, and whether an error ended it. */
  datatype Local = Local(w: World, z: CR, ok: bool)
  {
    function Fail(): Local { this.(ok := false) }

    function WithStatus(s: Status): Local { this.(z := z.(status := s)) }
  }

  // ----- Writing the cluster object -----

  predicate Conflicts(l: Local) {
    l.w.gone || l.z.rv != l.w.cr.rv
  }

  /** Storing a changed object takes the next revision; an unchanged one is not stored again. */
  function StoreVersion(w: World, c: CR): World {
    if c == w.cr then w
    else w.(revision := w.revision + 1, older := w.older + [w.cr], cr := c.(rv := w.revision + 1),
            gone := c.deleting && c.finalizers == [])
  }

  function Write(l: Local, c: CR, fate: Fate): Local {
    if fate.Refused? || Conflicts(l) then l.Fail()
    else
      var w := StoreVersion(l.w, c);
      Local(w, if fate.Done? then w.cr else l.z, fate.Done?)
  }

  /** `Client.Update`: everything but the status, which is a subresource. The object in memory
      becomes what the server stored, its status included. */
  function UpdateObject(l: Local, fate: Fate): (r: Local)
    ensures r.z.spec == l.z.spec
  {
    Write(l, l.w.cr.(spec := l.z.spec, finalizers := l.z.finalizers), fate)
  }

  /** `Client.Status().Update`: the status and nothing else. */
  function UpdateStatus(l: Local, fate: Fate): Local {
    Write(l, l.w.cr.(status := l.z.status), fate)
  }

  // ----- reconcileFinalizers -----

  function RefusedDeletes(e: Weather, claims: seq<string>): set<string> {
    set c | c in claims && e.Fate(DeleteClaim(c)) == Refused
  }

  function CleanupOrphanPVCs(l: Local, e: Weather): Local {
    if l.z.status.readyReplicas != l.z.spec.replicas then l
    else if e.Fails(ListClaims) then l.Fail()
    else if |l.w.claims| > l.z.spec.replicas && e.Fails(ListClaimsAgain) then l.Fail()
    else l.(w := l.w.(claims := Collected(l.w.claims, l.z.spec.replicas, RefusedDeletes(e, l.w.claims))))
  }

  function CleanUpAllPVCs(l: Local, e: Weather): Local {
    if e.Fails(ListClaims) then l.Fail()
    else l.(w := l.w.(claims := Without(l.w.claims, (set c | c in l.w.claims) - RefusedDeletes(e, l.w.claims))))
  }

  predicate ReclaimsVolumes(s: Spec) {
    s.persistence.None? || s.persistence.value.reclaimPolicy == DELETE
  }

  /** A live object gets the finalizer, and its orphaned claims are collected. */
  function KeepFinalizer(l: Local, e: Weather): (r: Local)
    ensures r.z.spec == l.z.spec
  {
    var a := if ZK_FINALIZER !in l.z.finalizers && !l.w.disableFinalizer
             then UpdateObject(l.(z := l.z.(finalizers := l.z.finalizers + [ZK_FINALIZER])), e.Fate(UpdateFinalizers))
             else l;
    if a.ok then CleanupOrphanPVCs(a, e) else a
  }

  /** An object being deleted loses the finalizer once a delete was issued for every claim. */
  function DropFinalizer(l: Local, e: Weather): (r: Local)
    ensures r.z.spec == l.z.spec
  {
    var a := CleanUpAllPVCs(l, e);
    if a.ok
    then UpdateObject(a.(z := a.z.(finalizers := Removed(a.z.finalizers, ZK_FINALIZER))), e.Fate(UpdateFinalizers))
    else a
  }

  function ReconcileFinalizers(l: Local, e: Weather): (r: Local)
    ensures r.z.spec == l.z.spec
  {
    if !ReclaimsVolumes(l.z.spec) then l
    else if !l.z.deleting then KeepFinalizer(l, e)
    else if ZK_FINALIZER in l.z.finalizers then DropFinalizer(l, e)
    else l
  }

  // ----- reconcileStatefulSet -----

  const OWNER_RV := "owner-rv"

  function OwnerRv(sts: Sts): Option<string> {
    if OWNER_RV in sts.labels then Some(sts.labels[OWNER_RV]) else None
  }

  /** -1, 0 or 1. A version that does not parse still takes part, as the number `Atoi` leaves behind. */
  function CompareResourceVersion(rv: string, owner: Option<string>): int {
    var zk := Atoi(rv);
    if owner.None? then (if zk.failed then 0 else 1)
    else
      var sts := Atoi(owner.value);
      if sts.failed then (if zk.failed then 0 else 1)
      else if zk.value < sts.value then -1 else if zk.value > sts.value then 1 else 0
  }

  function MetaPath(id: Identity): string { "/zookeeper-operator/" + id.name }

  function SizeData(replicas: int): string { "CLUSTER_SIZE=" + Itoa(replicas) }

  /** Publishing the new size before the StatefulSet is resized. The write's own error is dropped. */
  function PublishSize(l: Local, size: int, e: Weather): Local {
    var path := MetaPath(l.w.id);
    if e.Fails(Connect) || e.Fails(ZnodeExists) || path !in l.w.znodes then l.Fail()
    else
      var (znodes, _) := UpdateNode(l.w.znodes, path, SizeData(size), l.w.znodes[path].version, e.Fate(SetZnode));
      l.(w := l.w.(znodes := znodes))
  }

  /** `clearUpgradeStatus`: the status is kept aside, because the update's answer overwrites it. */
  function ClearUpgradeStatus(l: Local, e: Weather): Local {
    var cleared := l.z.status.With(Upgrading, IsFalse, "", "", e.Second()).(targetVersion := "");
    var a := UpdateObject(l.WithStatus(cleared), e.Fate(UpdateCleared));
    if a.ok then a.WithStatus(cleared) else a
  }

  const TEN_MINUTES := 600_000_000_000
  /** The year 1, which is what parsing an empty stamp yields. */
  const ZERO_TIME := -62_135_596_800

  const DEADLINE_EXCEEDED := "progress deadline exceeded"

  function ParseStamp(s: Stamp): int {
    if s.At? then s.seconds else ZERO_TIME
  }

  /** `checkSyncTimeout`. */
  predicate TimedOut(s: Status, reason: string, updatedReplicas: int, now: int) {
    var last := s.LastCondition();
    && last.Some? && last.value.reason == reason && last.value.message == Itoa(updatedReplicas)
    && now > ParseStamp(last.value.lastUpdateTime) * 1_000_000_000 + TEN_MINUTES
  }

  /** What `upgradeStatefulSet` makes of a status: keep the result for the end of the pass, store it
      at once, or clear the upgrade. */
  datatype Verdict = Remember(s: Status) | Persist(s: Status) | Clear(s: Status)

  /** The verdict on a status, given the image tag asked for and what the StatefulSet reports. It looks
      at a copy of the condition, so setting Upgrading to True does not make this pass look at progress. */
  function Judge(s: Status, tag: string, found: StsStatus, now: int): Verdict {
    var second := now / 1_000_000_000;
    var condition := Lookup(s.conditions, Upgrading);
    if condition.None? then Remember(s.With(Upgrading, IsFalse, "", "", second))
    else if condition.value.status == IsTrue then
      if s.targetVersion == "" then Clear(s)
      else if found.currentRevision == found.updateRevision then Clear(s.(currentVersion := s.targetVersion))
      else if Itoa(found.updatedReplicas) != condition.value.message then
        Persist(s.Progressed(UPDATING_REASON, Itoa(found.updatedReplicas), second))
      else if TimedOut(s, UPDATING_REASON, found.updatedReplicas, now) then
        Persist(s.With(Error, IsTrue, UPGRADE_FAILED, DEADLINE_EXCEEDED, second))
      else Remember(s)
    else if condition.value.status == IsFalse && s.Ready() && found.currentRevision != found.updateRevision
            && tag != s.currentVersion then
      Persist(s.(targetVersion := tag).With(PodsReady, IsFalse, "", "", second).With(Upgrading, IsTrue, "", "", second))
    else Persist(s)
  }

  function UpgradeStatefulSet(l: Local, found: StsStatus, e: Weather): Local {
    match Judge(l.z.status, l.z.spec.image.tag, found, e.now)
    case Remember(s) => l.WithStatus(s)
    case Persist(s) => UpdateStatus(l.WithStatus(s), e.Fate(WriteProgress))
    case Clear(s) => ClearUpgradeStatus(l.WithStatus(s), e)
  }

  /** `updateStatefulSet`: write the object found, now in step with the one generated. */
  function UpdateStatefulSet(l: Local, found: Sts, next: Sts, e: Weather): Local {
    var synced := SyncedStatefulSet(found, next);
    if e.Fate(UpdateSts) == Refused then l.Fail()
    else
      var a := l.(w := l.w.(sts := Some(synced), revision := l.w.revision + 1));
      if e.Fails(UpdateSts) then a.Fail()
      else a.WithStatus(l.z.status.(replicas := found.status.replicas, readyReplicas := found.status.readyReplicas))
  }

  /** The branch that waits for a failed upgrade to be repaired by hand. */
  function RecoverFailedUpgrade(l: Local, e: Weather): Local {
    if e.Fails(GetSts) || l.w.sts.None? then l
    else if e.Fails(UpdateSts) then l.Fail()
    else
      var found, s := l.w.sts.value.status, l.z.status;
      if found.replicas == found.readyReplicas && found.currentRevision == found.updateRevision then
        ClearUpgradeStatus(l.WithStatus(s.Recovered(e.Second())), e)
      else l
  }

  function CreateStatefulSet(l: Local, next: Sts, e: Weather): Local {
    // The generated labels are the spec's own map, so the label lands in the spec in memory too.
    var labelled := next.(labels := next.labels[OWNER_RV := Itoa(l.z.rv)]);
    var a := l.(z := l.z.(spec := l.z.spec.(labels := Some(labelled.labels))));
    if e.Fate(CreateSts) == Refused then a.Fail()
    else a.(w := a.w.(sts := Some(labelled), revision := a.w.revision + 1), ok := e.Fate(CreateSts) == Done)
  }

  function Relabelled(found: Sts, rv: nat): Sts {
    if CompareResourceVersion(Itoa(rv), OwnerRv(found)) > 0 then found.(labels := found.labels[OWNER_RV := Itoa(rv)])
    else found
  }

  /** An existing StatefulSet: refuse to act on an outdated object, publish a changed size, write, and
      look at the upgrade. */
  function SyncExisting(l: Local, found: Sts, next: Sts, e: Weather): Local {
    if CompareResourceVersion(Itoa(l.z.rv), OwnerRv(found)) < 0 then l.Fail()
    else
      var a := if next.spec.replicas != found.spec.replicas then PublishSize(l, next.spec.replicas, e) else l;
      if !a.ok then a
      else
        var b := UpdateStatefulSet(a, Relabelled(found, l.z.rv), next, e);
        if b.ok then UpgradeStatefulSet(b, found.status, e) else b
  }

  function ReconcileStatefulSet(l: Local, e: Weather): Local
    requires Generable(l.z.spec)
  {
    if l.z.status.UpgradeFailed() then RecoverFailedUpgrade(l, e)
    else if l.z.spec.pod.serviceAccountName != "default" && e.Fails(SyncServiceAccount) then l.Fail()
    else if e.Fails(GetSts) then l.Fail()
    else
      var next := MakeStatefulSet(l.w.id, l.z.spec);
      if l.w.sts.None? then CreateStatefulSet(l, next, e) else SyncExisting(l, l.w.sts.value, next, e)
  }

  // ----- reconcileClusterStatus -----

  /** The first time all replicas are ready, the size znode is created. */
  function CreateMetaRoot(l: Local, e: Weather): Local {
    if l.z.spec.replicas != l.z.status.readyReplicas || l.z.status.metaRootCreated then l
    else if e.Fails(ConnectForRoot) then l.Fail()
    else
      var (znodes, ok) := CreateAll(l.w.znodes, NodePaths(MetaPath(l.w.id)), SizeData(l.z.spec.replicas), e.znodeFates);
      var a := l.(w := l.w.(znodes := znodes));
      if ok then a.WithStatus(l.z.status.(metaRootCreated := true)) else a.Fail()
  }

  function SettledStatus(z: CR, now: int): Status {
    var ready := if z.status.readyReplicas == z.spec.replicas then IsTrue else IsFalse;
    var s := z.status.With(PodsReady, ready, "", "", now);
    if s.currentVersion == "" && s.Ready() then s.(currentVersion := z.spec.image.tag) else s
  }

  /** The conditions are there, the pods listed and the size znode created. */
  function Rooted(l: Local, e: Weather): Local {
    var i := l.WithStatus(l.z.status.Initialised(e.Second()));
    if e.Fails(ListPods) then i.Fail() else CreateMetaRoot(i, e)
  }

  function ReconcileClusterStatus(l: Local, e: Weather): Local {
    if l.z.status.InUpgrade() || l.z.status.UpgradeFailed() then l
    else
      var a := Rooted(l, e);
      if a.ok then UpdateStatus(a.WithStatus(SettledStatus(a.z, e.Second())), e.Fate(WriteStatus)) else a
  }

  // ----- Reconcile -----

  function RestartTime(now: int): string { Itoa(now / 1_000_000_000) }

  /** The object in memory after defaulting and after a requested rolling restart was noted. */
  function Prepared(z: CR, name: string, now: int): CR {
    var s := Defaulted(z.spec, name);
    if s.triggerRollingRestart
    then
      var annotations := OrEmpty(s.pod.annotations)["restartTime" := RestartTime(now)];
      z.(spec := s.(pod := s.pod.(annotations := Some(annotations)), triggerRollingRestart := false))
    else z.(spec := s)
  }

  predicate NeedsUpdate(s: Spec) { Lacks(s) || s.triggerRollingRestart }

  predicate OtherObjectsFail(e: Weather) {
    e.Fails(SyncClientService) || e.Fails(SyncHeadlessService) || e.Fails(SyncAdminService) || e.Fails(CreatePdb)
  }

  /** From the services and the disruption budget on. */
  function LastStages(l: Local, e: Weather): Local {
    if !l.ok then l else if OtherObjectsFail(e) then l.Fail() else ReconcileClusterStatus(l, e)
  }

  /** From the config map on. */
  function MiddleStages(l: Local, e: Weather): Local
    requires Generable(l.z.spec)
  {
    if !l.ok then l else if e.Fails(SyncConfigMap) then l.Fail() else LastStages(ReconcileStatefulSet(l, e), e)
  }

  /** The eight functions, in order, up to the first error. */
  function FullPass(l: Local, e: Weather): Local
    requires Generable(l.z.spec)
  {
    MiddleStages(ReconcileFinalizers(l, e), e)
  }

  datatype Outcome = Absent | Failed | Requeued | Complete

  function View(w: World, e: Weather): CR {
    if e.view < |w.older| then w.older[e.view] else w.cr
  }

  function Pass(w: World, e: Weather): (World, Outcome) {
    if e.Fails(GetCR) then (w, Failed)
    else if w.gone && e.view >= |w.older| then (w, Absent)
    else
      var read := View(w, e);
      var l := Local(w, Prepared(read, w.id.name, e.now), true);
      DefaultedIsGenerable(read.spec, w.id.name);
      if NeedsUpdate(read.spec) then
        var a := UpdateObject(l, e.Fate(UpdateDefaults));
        (a.w, if a.ok then Requeued else Failed)
      else
        var a := FullPass(l, e);
        (a.w, if a.ok then Complete else Failed)
  }
}
