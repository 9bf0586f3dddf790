/** What every stored version of the cluster object satisfies, and how consecutive ones are related. */
module UpgradeInvariants {
  import opened Text
  import opened Calls
  import opened ClusterStatus
  import opened ConditionProperties
  import opened Generators
  import opened Reconcile

  /** The consistency of one status. */
  ghost predicate StatusInv(s: Status) {
    && Unique(s.conditions)
    && (s.InUpgrade() <==> s.targetVersion != "")
    && (s.InUpgrade() ==> !s.Ready() && s.currentVersion != "" && s.currentVersion != s.targetVersion)
    && (s.InUpgrade() ==> ProgressStamp(s).At? && (ProgressMessage(s) == "" || ProgressReason(s) == UPDATING_REASON))
    && (s.UpgradeFailed() ==> s.InUpgrade())
    && (s.Ready() ==> s.currentVersion != "")
    && (s.currentVersion != "" ==> s.metaRootCreated)
    && !HasStatus(s.conditions, Upgrading, IsUnknown)
  }

  /** The stamp the progress deadline is measured from. */
  ghost function ProgressStamp(s: Status): Stamp {
    var c := Lookup(s.conditions, Upgrading);
    if c.Some? then c.value.lastUpdateTime else Never
  }

  ghost function ProgressMessage(s: Status): string {
    var c := Lookup(s.conditions, Upgrading);
    if c.Some? then c.value.message else ""
  }

  ghost function ProgressReason(s: Status): string {
    var c := Lookup(s.conditions, Upgrading);
    if c.Some? then c.value.reason else ""
  }

  /** How a status may follow another when the spec asks for image tag `tag`. */
  ghost predicate Evolves(s: Status, t: Status, tag: string) {
    && (t.currentVersion != s.currentVersion ==>
          || (s.currentVersion == "" && t.currentVersion == tag)
          || (s.InUpgrade() && !t.InUpgrade() && t.currentVersion == s.targetVersion))
    && (s.InUpgrade() && t.InUpgrade() ==> t.targetVersion == s.targetVersion)
    && (!s.InUpgrade() && t.InUpgrade() ==>
          s.Ready() && t.targetVersion == tag && t.currentVersion == s.currentVersion && !t.UpgradeFailed())
    && (s.InUpgrade() && !t.InUpgrade() ==> t.currentVersion == s.targetVersion && !t.UpgradeFailed())
    && (s.UpgradeFailed() && t.UpgradeFailed() ==> t == s)
    && (s.UpgradeFailed() && !t.UpgradeFailed() ==> !t.InUpgrade() && HasStatus(t.conditions, Error, IsFalse))
    && (s.metaRootCreated ==> t.metaRootCreated)
  }

  lemma WithEffect(s: Status, kind: ConditionType, status: ConditionStatus, reason: string, message: string, now: int)
    ensures var t := s.With(kind, status, reason, message, now);
            && t == s.(conditions := t.conditions)
            && (Unique(s.conditions) ==> Unique(t.conditions))
            && t.InUpgrade() == (if kind == Upgrading then status == IsTrue else s.InUpgrade())
            && t.Ready() == (if kind == PodsReady then status == IsTrue else s.Ready())
            && t.UpgradeFailed()
               == (if kind == Error then status == IsTrue && reason == UPGRADE_FAILED else s.UpgradeFailed())
            && (kind == Upgrading ==> ProgressMessage(t) == message && ProgressReason(t) == reason)
            && (kind == Upgrading && Lookup(s.conditions, Upgrading).Some? ==>
                  var c := Lookup(s.conditions, Upgrading).value;
                  ProgressStamp(t) == if c.status == status && c.reason == reason && c.message == message
                                      then c.lastUpdateTime else At(now))
            && (forall k | k != kind :: Lookup(t.conditions, k) == Lookup(s.conditions, k))
            && HasStatus(t.conditions, kind, status)
  {
    SetEffect(s.conditions, NewCondition(kind, status, reason, message), now);
  }

  lemma InitialisedEffect(s: Status, now: int)
    ensures var t := s.Initialised(now);
            && t == s.(conditions := t.conditions)
            && (Unique(s.conditions) ==> Unique(t.conditions))
            && t.InUpgrade() == s.InUpgrade() && t.Ready() == s.Ready() && t.UpgradeFailed() == s.UpgradeFailed()
            && (forall k | Lookup(s.conditions, k).Some? :: Lookup(t.conditions, k) == Lookup(s.conditions, k))
  {
    InitEffect(s.conditions, ALL_KINDS, now);
  }

  // ----- The store -----

  ghost predicate Step(v: CR, v': CR) {
    || v'.status == v.status
    || (v'.spec == v.spec && Evolves(v.status, v'.status, v.spec.image.tag))
  }

  ghost predicate HistoryInv(vs: seq<CR>) {
    && (forall i, j | 0 <= i < j < |vs| :: vs[i].rv < vs[j].rv)
    && (forall i | 0 <= i < |vs| :: StatusInv(vs[i].status))
    && (forall i, j | 0 <= i < |vs| && j == i + 1 && j < |vs| :: Step(vs[i], vs[j]))
  }

  ghost predicate WorldInv(w: World) {
    HistoryInv(w.Versions()) && StatusInv(w.cr.status) && w.cr.rv <= w.revision
  }

  lemma StoreKeepsHistory(w: World, c: CR)
    requires WorldInv(w) && StatusInv(c.status) && Step(w.cr, c)
    ensures WorldInv(StoreVersion(w, c))
  {
    var vs, ws := w.Versions(), StoreVersion(w, c).Versions();
    if c != w.cr {
      assert StoreVersion(w, c).cr.status == c.status;
      assert ws == vs + [c.(rv := w.revision + 1)];
      assert vs[|vs| - 1] == w.cr;
      assert forall i | 0 <= i < |vs| :: vs[i].rv <= w.cr.rv;
      forall i, j | 0 <= i < |ws| && j == i + 1 && j < |ws|
        ensures Step(ws[i], ws[j])
      {
        if j < |vs| {
          assert Step(vs[i], vs[j]);
        }
      }
    }
  }

  lemma HistoryStays(w: World, r: World)
    requires WorldInv(w) && r.cr == w.cr && r.Versions() == w.Versions() && w.revision <= r.revision
    ensures WorldInv(r)
  {
  }

  /** The object in memory is consistent, and if it is current it legitimately follows the stored one. */
  ghost predicate LocalInv(l: Local) {
    && WorldInv(l.w) && StatusInv(l.z.status) && l.z.spec.image.tag != ""
    && (l.z.rv == l.w.cr.rv ==>
          l.z.spec.image.tag == l.w.cr.spec.image.tag && Evolves(l.w.cr.status, l.z.status, l.w.cr.spec.image.tag))
  }

  lemma UpdateStatusKeeps(l: Local, fate: Fate)
    requires LocalInv(l)
    ensures var r := UpdateStatus(l, fate);
            && LocalInv(r)
            && (r.w.cr.status == l.w.cr.status || Evolves(l.w.cr.status, r.w.cr.status, l.w.cr.spec.image.tag))
  {
    if !fate.Refused? && !Conflicts(l) {
      StoreKeepsHistory(l.w, l.w.cr.(status := l.z.status));
    }
  }

  /** An update of the object keeps the stored status, whatever the status in memory. */
  lemma UpdateObjectKeeps(l: Local, fate: Fate)
    requires WorldInv(l.w)
    ensures var r := UpdateObject(l, fate);
            WorldInv(r.w) && r.w.cr.status == l.w.cr.status && (r.ok ==> r.z == r.w.cr && l.z.rv == l.w.cr.rv)
  {
    if !fate.Refused? && !Conflicts(l) {
      StoreKeepsHistory(l.w, l.w.cr.(spec := l.z.spec, finalizers := l.z.finalizers));
    }
  }

  /** An update of the object from a status that is the stored one leaves the pass consistent. */
  lemma UpdateUntouchedKeeps(l: Local, fate: Fate)
    requires LocalInv(l) && (l.z.rv == l.w.cr.rv ==> l.z.status == l.w.cr.status)
    ensures var r := UpdateObject(l, fate);
            LocalInv(r) && r.w.cr.status == l.w.cr.status && r.z.status == l.z.status
            && (r.z.rv == r.w.cr.rv ==> r.z.status == r.w.cr.status)
            && (r.ok && l.z.rv == l.w.cr.rv ==> r.z.rv == r.w.cr.rv)
            && r.w.sts == l.w.sts && r.w.znodes == l.w.znodes && r.w.id == l.w.id
  {
    UpdateObjectKeeps(l, fate);
    RevisionsRise(l, fate);
  }

  /** A write that was stored but not acknowledged leaves an outdated object in memory. */
  lemma RevisionsRise(l: Local, fate: Fate)
    requires WorldInv(l.w)
    ensures var r := UpdateObject(l, fate);
            !r.ok ==> r.z == l.z && (r.z.rv == r.w.cr.rv ==> r.w == l.w)
  {
  }

  /** What the finalizer stage guarantees about a pass that has not touched the status yet. */
  ghost predicate Untouched(l: Local, r: Local) {
    && LocalInv(r) && r.w.cr.status == l.w.cr.status && r.z.status == l.z.status
    && r.w.sts == l.w.sts && r.w.znodes == l.w.znodes && r.w.id == l.w.id
    && (r.z.rv == r.w.cr.rv ==> r.z.status == r.w.cr.status)
    && (r.ok && l.z.rv == l.w.cr.rv ==> r.z.rv == r.w.cr.rv)
  }

  lemma CleanupKeeps(l: Local, a: Local, e: Weather)
    requires Untouched(l, a)
    ensures Untouched(l, CleanupOrphanPVCs(a, e))
  {
    assert CleanupOrphanPVCs(a, e).w.Versions() == a.w.Versions();
  }

  lemma KeepFinalizerKeeps(l: Local, e: Weather)
    requires LocalInv(l) && (l.z.rv == l.w.cr.rv ==> l.z.status == l.w.cr.status)
    ensures Untouched(l, KeepFinalizer(l, e))
  {
    if Claims.ZK_FINALIZER !in l.z.finalizers && !l.w.disableFinalizer {
      var added := l.(z := l.z.(finalizers := l.z.finalizers + [Claims.ZK_FINALIZER]));
      UpdateUntouchedKeeps(added, e.Fate(UpdateFinalizers));
      CleanupKeeps(l, UpdateObject(added, e.Fate(UpdateFinalizers)), e);
    } else {
      CleanupKeeps(l, l, e);
    }
  }

  lemma DropFinalizerKeeps(l: Local, e: Weather)
    requires LocalInv(l) && (l.z.rv == l.w.cr.rv ==> l.z.status == l.w.cr.status)
    ensures Untouched(l, DropFinalizer(l, e))
  {
    var swept := CleanUpAllPVCs(l, e);
    assert swept.w.Versions() == l.w.Versions();
    var dropped := swept.(z := swept.z.(finalizers := Claims.Removed(swept.z.finalizers, Claims.ZK_FINALIZER)));
    UpdateUntouchedKeeps(dropped, e.Fate(UpdateFinalizers));
  }

  lemma FinalizersKeep(l: Local, e: Weather)
    requires LocalInv(l) && (l.z.rv == l.w.cr.rv ==> l.z.status == l.w.cr.status)
    ensures Untouched(l, ReconcileFinalizers(l, e))
  {
    KeepFinalizerKeeps(l, e);
    DropFinalizerKeeps(l, e);
  }

  // ----- The StatefulSet stage -----

  /** Clearing an upgrade that legitimately ended: the stored status is untouched, the one in memory
      has Upgrading False and no target. */
  lemma ClearKeeps(l: Local, e: Weather)
    requires WorldInv(l.w) && Unique(l.z.status.conditions) && l.z.spec.image.tag != ""
    requires !l.z.status.Ready() && l.z.status.currentVersion != "" && l.z.status.metaRootCreated
    requires !l.z.status.UpgradeFailed()
    requires l.z.rv == l.w.cr.rv ==>
               l.z.spec.image.tag == l.w.cr.spec.image.tag && l.w.cr.status.InUpgrade()
               && l.z.status.currentVersion == l.w.cr.status.targetVersion
               && (l.w.cr.status.UpgradeFailed() ==> HasStatus(l.z.status.conditions, Error, IsFalse))
    ensures var r := ClearUpgradeStatus(l, e);
            && WorldInv(r.w) && r.w.cr.status == l.w.cr.status && (r.ok ==> LocalInv(r) && !r.z.status.InUpgrade())
  {
    WithEffect(l.z.status, Upgrading, IsFalse, "", "", e.Second());
    var cleared := l.z.status.With(Upgrading, IsFalse, "", "", e.Second()).(targetVersion := "");
    UpdateObjectKeeps(l.WithStatus(cleared), e.Fate(UpdateCleared));
  }

  lemma StartedStatus(s: Status, tag: string, now: int)
    requires StatusInv(s) && s.Ready() && Lookup(s.conditions, Upgrading).Some?
    requires Lookup(s.conditions, Upgrading).value.status == IsFalse && tag != s.currentVersion && tag != ""
    ensures var a := s.(targetVersion := tag);
            var t := a.With(PodsReady, IsFalse, "", "", now).With(Upgrading, IsTrue, "", "", now);
            StatusInv(t) && Evolves(s, t, tag) && ProgressStamp(t) == At(now) && ProgressMessage(t) == ""
  {
    var a := s.(targetVersion := tag);
    WithEffect(a, PodsReady, IsFalse, "", "", now);
    WithEffect(a.With(PodsReady, IsFalse, "", "", now), Upgrading, IsTrue, "", "", now);
  }

  lemma ProgressedStatus(s: Status, message: string, now: int, tag: string)
    requires StatusInv(s) && s.InUpgrade() && !s.UpgradeFailed() && message != ProgressMessage(s)
    ensures var t := s.Progressed(UPDATING_REASON, message, now);
            && StatusInv(t) && Evolves(s, t, tag) && !t.UpgradeFailed()
            && ProgressStamp(t) == At(now) && ProgressMessage(t) == message && ProgressReason(t) == UPDATING_REASON
  {
    WithEffect(s, Upgrading, IsTrue, UPDATING_REASON, message, now);
  }

  lemma FailedStatus(s: Status, now: int, tag: string)
    requires StatusInv(s) && s.InUpgrade() && !s.UpgradeFailed()
    ensures var t := s.With(Error, IsTrue, UPGRADE_FAILED, DEADLINE_EXCEEDED, now);
            StatusInv(t) && Evolves(s, t, tag) && t.UpgradeFailed()
  {
    WithEffect(s, Error, IsTrue, UPGRADE_FAILED, DEADLINE_EXCEEDED, now);
  }

  /** Replica counts play no part in the upgrade. */
  lemma CountsAreIrrelevant(s: Status, replicas: int, readyReplicas: int)
    ensures var t := s.(replicas := replicas, readyReplicas := readyReplicas);
            && (StatusInv(s) <==> StatusInv(t)) && ProgressStamp(t) == ProgressStamp(s)
            && (forall b, tag :: Evolves(b, s, tag) && !s.UpgradeFailed() ==> Evolves(b, t, tag))
  {
  }

  lemma EvolvesTwice(a: Status, b: Status, c: Status, tag: string)
    requires Evolves(a, b, tag) && Evolves(b, c, tag) && StatusInv(a) && StatusInv(b)
    requires b.InUpgrade() == a.InUpgrade() && b.UpgradeFailed() == a.UpgradeFailed()
    requires b.currentVersion == a.currentVersion && b.Ready() == a.Ready() && b.targetVersion == a.targetVersion
    requires !a.UpgradeFailed()
    ensures Evolves(a, c, tag)
  {
  }

  /** The object in memory still carries the stored status, up to the replica counts just observed. */
  ghost predicate Fresh(l: Local) {
    l.z.rv == l.w.cr.rv ==>
      l.z.status == l.w.cr.status.(replicas := l.z.status.replicas, readyReplicas := l.z.status.readyReplicas)
  }

  /** Every verdict is a consistent status that may follow the one it was made on; the branch for an
      upgrade to an unknown version is never taken. */
  lemma JudgeIsSound(s: Status, tag: string, found: StsStatus, now: int)
    requires StatusInv(s) && !s.UpgradeFailed() && tag != ""
    ensures match Judge(s, tag, found, now)
            case Clear(t) => s.InUpgrade() && s.targetVersion != "" && t == s.(currentVersion := s.targetVersion)
            case Persist(t) => StatusInv(t) && Evolves(s, t, tag)
            case Remember(t) => StatusInv(t) && Evolves(s, t, tag)
  {
    var second := now / 1_000_000_000;
    var condition := Lookup(s.conditions, Upgrading);
    if condition.None? {
      WithEffect(s, Upgrading, IsFalse, "", "", second);
    } else if condition.value.status == IsTrue {
      if Itoa(found.updatedReplicas) != condition.value.message {
        ProgressedStatus(s, Itoa(found.updatedReplicas), second, tag);
      }
      FailedStatus(s, second, tag);
    } else if condition.value.status == IsFalse && s.Ready() && tag != s.currentVersion {
      StartedStatus(s, tag, second);
    }
  }

  lemma UpgradeKeeps(l: Local, found: StsStatus, e: Weather)
    requires LocalInv(l) && Fresh(l) && !l.z.status.UpgradeFailed()
    ensures var r := UpgradeStatefulSet(l, found, e);
            WorldInv(r.w) && (r.ok ==> LocalInv(r))
  {
    var s := l.z.status;
    JudgeIsSound(s, l.z.spec.image.tag, found, e.now);
    match Judge(s, l.z.spec.image.tag, found, e.now)
    case Clear(t) => ClearKeeps(l.WithStatus(t), e);
    case Persist(t) => WriteKeeps(l, t, e.Fate(WriteProgress));
    case Remember(t) =>
      if l.z.rv == l.w.cr.rv {
        EvolvesTwice(l.w.cr.status, s, t, l.z.spec.image.tag);
      }
  }

  lemma WriteKeeps(l: Local, t: Status, fate: Fate)
    requires LocalInv(l) && Fresh(l) && !l.z.status.UpgradeFailed()
    requires StatusInv(t) && Evolves(l.z.status, t, l.z.spec.image.tag)
    ensures LocalInv(UpdateStatus(l.WithStatus(t), fate))
  {
    if l.z.rv == l.w.cr.rv {
      EvolvesTwice(l.w.cr.status, l.z.status, t, l.z.spec.image.tag);
    }
    UpdateStatusKeeps(l.WithStatus(t), fate);
  }

  lemma RecoveryKeeps(l: Local, e: Weather)
    requires LocalInv(l) && Fresh(l) && l.z.status.UpgradeFailed()
    requires l.z.rv == l.w.cr.rv ==> l.z.status == l.w.cr.status
    ensures var r := RecoverFailedUpgrade(l, e);
            WorldInv(r.w) && (r.ok ==> LocalInv(r))
  {
    var s, now := l.z.status, e.Second();
    WithEffect(s.(currentVersion := s.targetVersion), Error, IsFalse, "", "", now);
    if !e.Fails(GetSts) && l.w.sts.Some? && !e.Fails(UpdateSts) {
      var found := l.w.sts.value.status;
      if found.replicas == found.readyReplicas && found.currentRevision == found.updateRevision {
        ClearKeeps(l.WithStatus(s.Recovered(now)), e);
      }
    }
  }

  lemma SyncExistingKeeps(l: Local, found: Sts, next: Sts, e: Weather)
    requires LocalInv(l) && !l.z.status.UpgradeFailed()
    requires l.z.rv == l.w.cr.rv ==> l.z.status == l.w.cr.status
    ensures var r := SyncExisting(l, found, next, e);
            WorldInv(r.w) && (r.ok ==> LocalInv(r))
  {
    var a := if next.spec.replicas != found.spec.replicas then PublishSize(l, next.spec.replicas, e) else l;
    assert a.w == l.w.(znodes := a.w.znodes) && a.z == l.z;
    assert a.w.Versions() == l.w.Versions();
    var relabelled := Relabelled(found, l.z.rv);
    SyncedIsFresh(a, relabelled, next, e);
    var b := UpdateStatefulSet(a, relabelled, next, e);
    if b.ok {
      UpgradeKeeps(b, found.status, e);
    }
  }

  lemma SyncedIsFresh(l: Local, found: Sts, next: Sts, e: Weather)
    requires LocalInv(l) && !l.z.status.UpgradeFailed()
    requires l.z.rv == l.w.cr.rv ==> l.z.status == l.w.cr.status
    ensures var r := UpdateStatefulSet(l, found, next, e);
            LocalInv(r) && Fresh(r) && !r.z.status.UpgradeFailed()
  {
    var r := UpdateStatefulSet(l, found, next, e);
    assert r.w.cr == l.w.cr && r.z.rv == l.z.rv && r.z.spec == l.z.spec;
    assert r.w.Versions() == l.w.Versions();
    CountsAreIrrelevant(l.z.status, r.z.status.replicas, r.z.status.readyReplicas);
  }

  lemma StatefulSetKeeps(l: Local, e: Weather)
    requires LocalInv(l) && Generable(l.z.spec)
    requires l.z.rv == l.w.cr.rv ==> l.z.status == l.w.cr.status
    ensures var r := ReconcileStatefulSet(l, e);
            WorldInv(r.w) && (r.ok ==> LocalInv(r))
  {
    if l.z.status.UpgradeFailed() {
      RecoveryKeeps(l, e);
    } else if !e.Fails(GetSts) {
      var next := MakeStatefulSet(l.w.id, l.z.spec);
      if l.w.sts.None? {
        CreationKeeps(l, next, e);
      } else {
        SyncExistingKeeps(l, l.w.sts.value, next, e);
      }
    }
  }

  lemma CreationKeeps(l: Local, next: Sts, e: Weather)
    requires LocalInv(l)
    ensures LocalInv(CreateStatefulSet(l, next, e))
  {
    assert CreateStatefulSet(l, next, e).w.Versions() == l.w.Versions();
  }

  lemma SettledKeeps(l: Local, e: Weather)
    requires LocalInv(l) && !l.z.status.InUpgrade() && !l.z.status.UpgradeFailed()
    requires l.z.status.readyReplicas == l.z.spec.replicas ==> l.z.status.metaRootCreated
    ensures LocalInv(l.WithStatus(SettledStatus(l.z, e.Second())))
  {
    var ready := if l.z.status.readyReplicas == l.z.spec.replicas then IsTrue else IsFalse;
    WithEffect(l.z.status, PodsReady, ready, "", "", e.Second());
  }

  /** Creating the znode touches neither the stored object nor, in memory, anything but the conditions
      and the flag. */
  lemma RootedEffect(l: Local, e: Weather)
    ensures var r := Rooted(l, e);
            && r.w == l.w.(znodes := r.w.znodes) && r.w.Versions() == l.w.Versions()
            && r.z == l.z.(status := r.z.status)
            && r.z.status == l.z.status.(conditions := l.z.status.Initialised(e.Second()).conditions,
                                         metaRootCreated := r.z.status.metaRootCreated)
            && (l.z.status.metaRootCreated ==> r.z.status.metaRootCreated)
            && (r.ok && l.z.status.readyReplicas == l.z.spec.replicas ==> r.z.status.metaRootCreated)
  {
  }

  lemma InitialisedKeeps(s: Status, created: bool, now: int)
    requires StatusInv(s) && !s.InUpgrade() && !s.UpgradeFailed() && (s.metaRootCreated ==> created)
    ensures var t := s.(conditions := s.Initialised(now).conditions, metaRootCreated := created);
            && StatusInv(t) && !t.InUpgrade() && !t.UpgradeFailed()
            && forall b, tag :: Evolves(b, s, tag) ==> Evolves(b, t, tag)
  {
    InitialisedEffect(s, now);
    InitEffect(s.conditions, ALL_KINDS, now);
  }

  lemma RootedKeeps(l: Local, e: Weather)
    requires LocalInv(l) && !l.z.status.InUpgrade() && !l.z.status.UpgradeFailed()
    ensures var r := Rooted(l, e);
            && LocalInv(r) && !r.z.status.InUpgrade() && !r.z.status.UpgradeFailed()
            && (r.ok && r.z.status.readyReplicas == r.z.spec.replicas ==> r.z.status.metaRootCreated)
  {
    RootedEffect(l, e);
    InitialisedKeeps(l.z.status, Rooted(l, e).z.status.metaRootCreated, e.Second());
    assert Rooted(l, e).w.Versions() == l.w.Versions();
  }

  lemma ClusterStatusKeeps(l: Local, e: Weather)
    requires LocalInv(l)
    ensures var r := ReconcileClusterStatus(l, e);
            && WorldInv(r.w)
            && (r.w.cr.status == l.w.cr.status || Evolves(l.w.cr.status, r.w.cr.status, l.w.cr.spec.image.tag))
  {
    RootedEffect(l, e);
    if !l.z.status.InUpgrade() && !l.z.status.UpgradeFailed() {
      var a := Rooted(l, e);
      RootedKeeps(l, e);
      if a.ok {
        SettledKeeps(a, e);
        UpdateStatusKeeps(a.WithStatus(SettledStatus(a.z, e.Second())), e.Fate(WriteStatus));
      }
    }
  }

  lemma MiddleStagesKeep(l: Local, e: Weather)
    requires LocalInv(l) && Generable(l.z.spec)
    requires l.z.rv == l.w.cr.rv ==> l.z.status == l.w.cr.status
    ensures WorldInv(MiddleStages(l, e).w)
  {
    StatefulSetKeeps(l, e);
    var b := ReconcileStatefulSet(l, e);
    if b.ok {
      ClusterStatusKeeps(b, e);
    }
  }

  lemma FullPassKeeps(l: Local, e: Weather)
    requires LocalInv(l) && Generable(l.z.spec)
    requires l.z.rv == l.w.cr.rv ==> l.z.status == l.w.cr.status
    ensures WorldInv(FullPass(l, e).w)
  {
    FinalizersKeep(l, e);
    MiddleStagesKeep(ReconcileFinalizers(l, e), e);
  }

  /** The version a pass reads is a stored one; with the current resource version it is the current one. */
  lemma ViewIsStored(w: World, e: Weather)
    requires WorldInv(w)
    ensures var v := View(w, e);
            && StatusInv(v.status) && v.rv <= w.cr.rv && (v.rv == w.cr.rv ==> v == w.cr)
            && exists i | 0 <= i < |w.Versions()| :: w.Versions()[i] == v
  {
    var vs := w.Versions();
    var i := if e.view < |w.older| then e.view else |w.older|;
    assert vs[i] == View(w, e);
    assert vs[|w.older|] == w.cr;
  }

  lemma PreparedIsConsistent(w: World, e: Weather) returns (l: Local)
    requires WorldInv(w) && !NeedsUpdate(View(w, e).spec)
    ensures l == Local(w, Prepared(View(w, e), w.id.name, e.now), true) && LocalInv(l)
    ensures l.z.rv == l.w.cr.rv ==> l.z.status == l.w.cr.status
  {
    ViewIsStored(w, e);
    l := Local(w, Prepared(View(w, e), w.id.name, e.now), true);
  }

  /** One pass, whatever it reads and whatever fails, leaves the stored history consistent. */
  lemma PassKeeps(w: World, e: Weather)
    requires WorldInv(w)
    ensures WorldInv(Pass(w, e).0)
  {
    var read := View(w, e);
    if NeedsUpdate(read.spec) {
      var l := Local(w, Prepared(read, w.id.name, e.now), true);
      UpdateObjectKeeps(l, e.Fate(UpdateDefaults));
      assert Pass(w, e).0 in {w, UpdateObject(l, e.Fate(UpdateDefaults)).w};
    } else {
      DefaultedIsGenerable(read.spec, w.id.name);
      var l := PreparedIsConsistent(w, e);
      FullPassKeeps(l, e);
      assert Pass(w, e).0 in {w, FullPass(l, e).w};
    }
  }
}
