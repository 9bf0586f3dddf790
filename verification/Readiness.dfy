/** When a cluster is recorded as ready, and with which version, by complete passes over current data. */
module Readiness {
  import opened Options
  import opened Calls
  import opened ClusterStatus
  import opened ConditionProperties
  import opened Generators
  import opened Znodes
  import opened Reconcile
  import opened UpgradeInvariants
  import opened Runs
  import opened Deadline
  import opened Requeue
  import opened MetaRoot
  import opened Scaling
  import opened Templates

  /** The count of ready replicas that a pass goes by: the one the StatefulSet reports, except that a pass
      that recovers a failed upgrade or creates the StatefulSet goes by the one stored. */
  ghost function Counted(sts: Option<Sts>, s: Status): int {
    if s.UpgradeFailed() || sts.None? then s.readyReplicas else sts.value.status.readyReplicas
  }

  /** The version that an upgrade, if one is under way, ends with. */
  ghost function VersionAhead(s: Status): string {
    if s.InUpgrade() then s.targetVersion else s.currentVersion
  }

  /** The status recorded of a cluster without an upgrade, of which `count` replicas are ready. */
  ghost predicate Records(replicas: int, tag: string, version: string, rooted: bool, count: int, t: Status) {
    && t.readyReplicas == count && (t.Ready() <==> count == replicas)
    && t.currentVersion == (if version != "" then version else if count == replicas then tag else "")
    && (t.metaRootCreated <==> rooted || count == replicas)
    && HasStatus(t.conditions, Upgrading, IsFalse)
  }

  /** The size znode as its creation leaves it. */
  ghost predicate HoldsSize(w: World, size: int) {
    MetaPath(w.id) in w.znodes && w.znodes[MetaPath(w.id)].data == SizeData(size)
  }

  // ----- The last stage -----

  lemma CreatedHoldsData(tree: Tree, id: Identity, data: string, fates: map<string, Fate>)
    ensures var (after, ok) := CreateAll(tree, NodePaths(MetaPath(id)), data, fates);
            ok ==> MetaPath(id) in after && after[MetaPath(id)].data == data
  {
    NodesAreDistinct(id);
    CreateExactly(tree, NodePaths(MetaPath(id)), data, fates);
  }

  lemma RootedExactlyOnce(l: Local, e: Weather)
    requires Rooted(l, e).ok
    ensures var r := Rooted(l, e);
            && (r.z.status.metaRootCreated <==>
                  l.z.status.metaRootCreated || l.z.status.readyReplicas == l.z.spec.replicas)
            && (!l.z.status.metaRootCreated && r.z.status.metaRootCreated ==> HoldsSize(r.w, l.z.spec.replicas))
  {
    CreatedHoldsData(l.w.znodes, l.w.id, SizeData(l.z.spec.replicas), e.znodeFates);
  }

  lemma SettledRecords(z: CR, now: int)
    ensures var s, t := z.status, SettledStatus(z, now);
            && (t.Ready() <==> s.readyReplicas == z.spec.replicas) && t.readyReplicas == s.readyReplicas
            && t.metaRootCreated == s.metaRootCreated
            && Lookup(t.conditions, Upgrading) == Lookup(s.conditions, Upgrading)
            && t.currentVersion == (if s.currentVersion != "" then s.currentVersion
                                    else if s.readyReplicas == z.spec.replicas then z.spec.image.tag else "")
  {
    var ready := if z.status.readyReplicas == z.spec.replicas then IsTrue else IsFalse;
    WithEffect(z.status, PodsReady, ready, "", "", now);
  }

  lemma InitialisedIsIdle(s: Status, now: int)
    requires !s.InUpgrade() && !HasStatus(s.conditions, Upgrading, IsUnknown)
    ensures HasStatus(s.Initialised(now).conditions, Upgrading, IsFalse)
  {
    InitEffect(s.conditions, ALL_KINDS, now);
    AllKinds();
  }

  lemma LastStagesRecord(l: Local, e: Weather)
    requires StatusInv(l.z.status) && !l.z.status.InUpgrade() && !l.z.status.UpgradeFailed()
    requires l.ok && LastStages(l, e).ok
    ensures var s, r := l.z.status, LastStages(l, e).w;
            && Records(l.z.spec.replicas, l.z.spec.image.tag, s.currentVersion, s.metaRootCreated, s.readyReplicas,
                       r.cr.status)
            && (!s.metaRootCreated && r.cr.status.metaRootCreated ==> HoldsSize(r, l.z.spec.replicas))
  {
    InitialisedEffect(l.z.status, e.Second());
    InitialisedIsIdle(l.z.status, e.Second());
    RootedEffect(l, e);
    RootedExactlyOnce(l, e);
    var a := Rooted(l, e);
    SettledRecords(a.z, e.Second());
    StatusStored(a.WithStatus(SettledStatus(a.z, e.Second())), e.Fate(WriteStatus));
  }

  // ----- The StatefulSet stage -----

  /** After the stage that looks at the upgrade: no upgrade is left in memory only, and without one the count
      and the version are these. */
  ghost predicate Ahead(l: Local, count: int, r: Local) {
    && r.w.id == l.w.id
    && r.z.spec.replicas == l.z.spec.replicas && r.z.spec.image.tag == l.z.spec.image.tag
    && r.z.status.readyReplicas == count && r.z.status.metaRootCreated == l.z.status.metaRootCreated
    && (r.z.status.InUpgrade() || r.z.status.UpgradeFailed() ==> r.w.cr.status.InUpgrade())
    && (!r.z.status.InUpgrade() ==> r.z.status.currentVersion == VersionAhead(l.z.status))
  }

  lemma ClearAhead(l: Local, e: Weather)
    requires WorldInv(l.w) && !l.z.status.UpgradeFailed() && ClearUpgradeStatus(l, e).ok
    ensures var r := ClearUpgradeStatus(l, e);
            && r.w.id == l.w.id && r.z.spec == l.z.spec && !r.z.status.InUpgrade() && !r.z.status.UpgradeFailed()
            && r.z.status.readyReplicas == l.z.status.readyReplicas
            && r.z.status.metaRootCreated == l.z.status.metaRootCreated
            && r.z.status.currentVersion == l.z.status.currentVersion
  {
    ClearComplete(l, e);
  }

  lemma JudgeKeepsVersion(s: Status, tag: string, found: StsStatus, now: int)
    ensures var v := Judge(s, tag, found, now);
            v.s.currentVersion == if v.Clear? && s.targetVersion != "" then s.targetVersion else s.currentVersion
  {
  }

  /** The upgrade stage, on a status that has the count found. */
  lemma UpgradeAhead(l: Local, found: StsStatus, e: Weather)
    requires LocalInv(l) && Fresh(l) && l.z.rv == l.w.cr.rv && !l.z.status.UpgradeFailed()
    requires l.z.spec.replicas == l.w.cr.spec.replicas
    requires UpgradeStatefulSet(l, found, e).ok
    ensures Ahead(l, l.z.status.readyReplicas, UpgradeStatefulSet(l, found, e))
  {
    var s, tag := l.z.status, l.z.spec.image.tag;
    JudgeKeepsRoot(s, tag, found, e.now);
    JudgeKeepsVersion(s, tag, found, e.now);
    if s.InUpgrade() {
      JudgePending(s, tag, found, e.now);
    } else {
      JudgeStart(s, tag, found, e.now);
    }
    match Judge(s, tag, found, e.now)
    case Clear(t) => ClearAhead(l.WithStatus(t), e);
    case Persist(t) => StatusStored(l.WithStatus(t), e.Fate(WriteProgress));
    case Remember(t) =>
  }

  lemma PublishedIsCurrent(l: Local, size: int, e: Weather)
    requires Current(l)
    ensures var a := PublishSize(l, size, e);
            a.w.cr == l.w.cr && a.w.id == l.w.id && a.z == l.z && (a.ok ==> Current(a))
  {
    assert PublishSize(l, size, e).w.Versions() == l.w.Versions();
  }

  lemma UpdatedAhead(l: Local, found: Sts, relabelled: Sts, next: Sts, e: Weather)
    requires Current(l) && !l.z.status.UpgradeFailed() && relabelled.status == found.status
    requires l.z.spec.replicas == l.w.cr.spec.replicas
    ensures var b := UpdateStatefulSet(l, relabelled, next, e);
            b.ok && UpgradeStatefulSet(b, found.status, e).ok ==>
              Ahead(l, found.status.readyReplicas, UpgradeStatefulSet(b, found.status, e))
  {
    var b := UpdateStatefulSet(l, relabelled, next, e);
    SyncedIsFresh(l, relabelled, next, e);
    if b.ok && UpgradeStatefulSet(b, found.status, e).ok {
      UpgradeAhead(b, found.status, e);
    }
  }

  lemma SyncAhead(l: Local, found: Sts, next: Sts, e: Weather)
    requires Current(l) && !l.z.status.UpgradeFailed() && l.w.sts == Some(found)
    requires l.z.spec.replicas == l.w.cr.spec.replicas && SyncExisting(l, found, next, e).ok
    ensures Ahead(l, found.status.readyReplicas, SyncExisting(l, found, next, e))
  {
    var a := if next.spec.replicas != found.spec.replicas then PublishSize(l, next.spec.replicas, e) else l;
    PublishedIsCurrent(l, next.spec.replicas, e);
    UpdatedAhead(a, found, Relabelled(found, l.z.rv), next, e);
  }

  lemma CreationAhead(l: Local, next: Sts, e: Weather)
    requires Current(l) && !l.z.status.UpgradeFailed() && CreateStatefulSet(l, next, e).ok
    ensures Ahead(l, l.z.status.readyReplicas, CreateStatefulSet(l, next, e))
  {
  }

  /** The recovery keeps the count that was stored. */
  lemma RecoveryAhead(l: Local, e: Weather)
    requires Current(l) && l.z.status.UpgradeFailed() && RecoverFailedUpgrade(l, e).ok
    ensures Ahead(l, l.z.status.readyReplicas, RecoverFailedUpgrade(l, e))
  {
    var s, now := l.z.status, e.Second();
    WithEffect(s.(currentVersion := s.targetVersion), Error, IsFalse, "", "", now);
    if !e.Fails(GetSts) && Repaired(l.w.sts) {
      ClearAhead(l.WithStatus(s.Recovered(now)), e);
    }
  }

  lemma StatefulSetAhead(l: Local, e: Weather)
    requires Current(l) && Generable(l.z.spec) && l.z.spec.replicas == l.w.cr.spec.replicas
    requires ReconcileStatefulSet(l, e).ok
    ensures Ahead(l, Counted(l.w.sts, l.z.status), ReconcileStatefulSet(l, e))
  {
    var next := MakeStatefulSet(l.w.id, l.z.spec);
    if l.z.status.UpgradeFailed() {
      RecoveryAhead(l, e);
    } else if l.w.sts.Some? {
      SyncAhead(l, l.w.sts.value, next, e);
    } else {
      CreationAhead(l, next, e);
    }
  }

  // ----- A complete pass -----

  /** What a complete pass leaves of a cluster without an upgrade. */
  ghost predicate RecordsPass(w: World, r: World) {
    && Records(w.cr.spec.replicas, w.cr.spec.image.tag, VersionAhead(w.cr.status), w.cr.status.metaRootCreated,
               Counted(w.sts, w.cr.status), r.cr.status)
    && (!w.cr.status.metaRootCreated && r.cr.status.metaRootCreated ==> HoldsSize(r, w.cr.spec.replicas))
  }

  lemma MiddleStagesRecord(l: Local, e: Weather)
    requires Current(l) && Generable(l.z.spec) && l.z.spec.replicas == l.w.cr.spec.replicas
    requires MiddleStages(l, e).ok && !MiddleStages(l, e).w.cr.status.InUpgrade()
    ensures RecordsPass(l.w, MiddleStages(l, e).w)
  {
    StatefulSetAhead(l, e);
    StatefulSetKeeps(l, e);
    var r := ReconcileStatefulSet(l, e);
    if !r.z.status.InUpgrade() && !r.z.status.UpgradeFailed() {
      LastStagesRecord(r, e);
    }
  }

  lemma FinalizersKeepReplicas(l: Local, e: Weather)
    requires l.z.spec.replicas == l.w.cr.spec.replicas
    ensures ReconcileFinalizers(l, e).w.cr.spec.replicas == l.w.cr.spec.replicas
  {
  }

  /** Readiness, exactly. A complete pass over the current version that leaves no upgrade under way records the
      cluster as ready if and only if the count it goes by is the replicas asked for. It then has a version:
      the one an upgrade ended with, the one there was, or else the tag asked for; and the size znode is
      recorded from the first time it is ready. */
  lemma ReadinessIsRecorded(w: World, e: Weather)
    requires WorldInv(w) && View(w, e) == w.cr && Pass(w, e).1 == Complete && !Pass(w, e).0.cr.status.InUpgrade()
    ensures RecordsPass(w, Pass(w, e).0)
  {
    DefaultedIsGenerable(w.cr.spec, w.id.name);
    var l := PreparedIsConsistent(w, e);
    FinalizersKeep(l, e);
    FinalizersKeepTag(l, e);
    FinalizersKeepReplicas(l, e);
    MiddleStagesRecord(ReconcileFinalizers(l, e), e);
  }

  /** So, with the StatefulSet there and no failed upgrade, ready means what the StatefulSet reports. */
  lemma ReadyMeansAllReported(w: World, e: Weather)
    requires WorldInv(w) && View(w, e) == w.cr && Pass(w, e).1 == Complete && !Pass(w, e).0.cr.status.InUpgrade()
    requires w.sts.Some? && !w.cr.status.UpgradeFailed()
    ensures var t := Pass(w, e).0.cr.status;
            && (t.Ready() <==> w.sts.value.status.readyReplicas == w.cr.spec.replicas)
            && (t.Ready() && w.cr.status.currentVersion == "" ==> t.currentVersion == w.cr.spec.image.tag)
  {
    ReadinessIsRecorded(w, e);
  }

  /** But the pass that recovers a failed upgrade goes by the count stored before, whatever is reported. */
  lemma RecoveryGoesByStoredCount(w: World, e: Weather)
    requires WorldInv(w) && View(w, e) == w.cr && Pass(w, e).1 == Complete && w.cr.status.UpgradeFailed()
    requires !e.Fails(GetSts) && Repaired(w.sts)
    ensures Pass(w, e).0.cr.status.Ready() <==> w.cr.status.readyReplicas == w.cr.spec.replicas
  {
    RecoversExactly(w, e);
    ReadinessIsRecorded(w, e);
  }

  lemma CreatingStartsNothing(l: Local, e: Weather)
    requires Current(l) && l.w.sts.None? && !l.z.status.InUpgrade() && Generable(l.z.spec)
    ensures !MiddleStages(l, e).w.cr.status.InUpgrade()
  {
    LastStagesStartNothing(ReconcileStatefulSet(l, e), e);
  }

  /** Without a version no upgrade starts. */
  lemma NoVersionNoUpgrade(w: World, e: Weather)
    requires WorldInv(w) && View(w, e) == w.cr && Pass(w, e).1 == Complete && w.cr.status.currentVersion == ""
    ensures !Pass(w, e).0.cr.status.InUpgrade()
  {
    if w.sts.Some? {
      StartingPass(w, e);
    } else {
      DefaultedIsGenerable(w.cr.spec, w.id.name);
      var l := PreparedIsConsistent(w, e);
      FinalizersKeep(l, e);
      CreatingStartsNothing(ReconcileFinalizers(l, e), e);
    }
  }

  /** A pass that creates the size znode and records it leaves the two sizes in agreement, at the replicas
      asked for. */
  lemma FirstSizeAgrees(w: World, e: Weather)
    requires WorldInv(w) && View(w, e) == w.cr && Pass(w, e).1 == Complete
    requires !w.cr.status.metaRootCreated && Pass(w, e).0.cr.status.metaRootCreated
    ensures var r := Pass(w, e).0;
            Agree(r) && r.sts.value.spec.replicas == w.cr.spec.replicas
  {
    assert !w.cr.status.InUpgrade();
    NoVersionNoUpgrade(w, e);
    ReadinessIsRecorded(w, e);
    CompletePassWrites(w, e);
  }
}
