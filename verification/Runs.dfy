/** Whole runs of the operator: passes interleaved with whatever users, the StatefulSet controller and
    the cluster do. */
module Runs {
  import opened Options
  import opened Calls
  import opened ClusterSpec
  import opened ClusterStatus
  import opened Generators
  import opened Znodes
  import opened Reconcile
  import opened UpgradeInvariants

  datatype Event =
    | Reconciled(e: Weather)
    | SpecEdited(spec: Spec)
    | DeletionRequested
    | StsReported(status: StsStatus)
    | StsDeleted
    | ClaimsChanged(claims: seq<string>)
    | ZnodesChanged(znodes: Tree)
    | OtherWrites(count: nat)

  /** The StatefulSet controller reports a new status. */
  function Reported(w: World, status: StsStatus): World {
    if w.sts.Some? then w.(sts := Some(w.sts.value.(status := status))) else w
  }

  function Next(w: World, ev: Event): World {
    match ev
    case Reconciled(e) => Pass(w, e).0
    case SpecEdited(spec) => if w.gone then w else StoreVersion(w, w.cr.(spec := spec))
    case DeletionRequested => if w.gone then w else StoreVersion(w, w.cr.(deleting := true))
    case StsReported(status) => Reported(w, status)
    case StsDeleted => w.(sts := None)
    case ClaimsChanged(claims) => w.(claims := claims)
    case ZnodesChanged(znodes) => w.(znodes := znodes)
    case OtherWrites(count) => w.(revision := w.revision + count)
  }

  function Run(w: World, evs: seq<Event>): World
    decreases |evs|
  {
    if evs == [] then w else Run(Next(w, evs[0]), evs[1..])
  }

  /** A cluster object as a user creates it: any spec, no status. */
  function Created(id: Identity, disableFinalizer: bool, revision: nat, spec: Spec): World {
    World(id, disableFinalizer, revision, [], CR(revision, spec, EMPTY_STATUS, false, []), false, None, [], map[])
  }

  lemma NextKeeps(w: World, ev: Event)
    requires WorldInv(w)
    ensures WorldInv(Next(w, ev))
  {
    match ev
    case Reconciled(e) => PassKeeps(w, e);
    case SpecEdited(spec) => StoreKeepsHistory(w, w.cr.(spec := spec));
    case DeletionRequested => StoreKeepsHistory(w, w.cr.(deleting := true));
    case _ => assert Next(w, ev).Versions() == w.Versions();
  }

  lemma {:induction false} RunKeeps(w: World, evs: seq<Event>)
    requires WorldInv(w)
    ensures WorldInv(Run(w, evs))
    decreases |evs|
  {
    if evs != [] {
      NextKeeps(w, evs[0]);
      RunKeeps(Next(w, evs[0]), evs[1..]);
    }
  }

  /** In every run from an empty status, every version ever stored is consistent, and consecutive
      versions follow each other as upgrades do. */
  lemma EveryStoredVersionIsConsistent(id: Identity, disableFinalizer: bool, revision: nat, spec: Spec, evs: seq<Event>)
    ensures var vs := Run(Created(id, disableFinalizer, revision, spec), evs).Versions();
            && (forall i | 0 <= i < |vs| :: StatusInv(vs[i].status))
            && (forall i, j | 0 <= i < |vs| && j == i + 1 && j < |vs| :: Step(vs[i], vs[j]))
  {
    RunKeeps(Created(id, disableFinalizer, revision, spec), evs);
  }

  // ----- Version history -----

  /** A current version never disappears, and changes only where an upgrade ends, to its target. */
  lemma CurrentVersionChanges(vs: seq<CR>, i: nat)
    requires HistoryInv(vs) && i + 1 < |vs| && vs[i].status.currentVersion != ""
    ensures vs[i + 1].status.currentVersion != ""
    ensures vs[i + 1].status.currentVersion != vs[i].status.currentVersion ==>
              vs[i].status.InUpgrade() && !vs[i + 1].status.InUpgrade()
              && vs[i + 1].status.currentVersion == vs[i].status.targetVersion
  {
    assert Step(vs[i], vs[i + 1]);
  }

  lemma {:induction false} CurrentVersionStays(vs: seq<CR>, i: nat, j: nat)
    requires HistoryInv(vs) && i <= j < |vs| && vs[i].status.currentVersion != ""
    ensures vs[j].status.currentVersion != ""
    decreases j
  {
    if i < j {
      CurrentVersionStays(vs, i, j - 1);
      CurrentVersionChanges(vs, j - 1);
    }
  }

  /** Version `i + 1` starts an upgrade that is under way up to version `j`. */
  ghost predicate UpgradeSpans(vs: seq<CR>, i: nat, j: nat) {
    && i < j < |vs| && !vs[i].status.InUpgrade()
    && forall k | i < k <= j :: vs[k].status.InUpgrade()
  }

  lemma {:induction false} TargetIsRemembered(vs: seq<CR>, i: nat, j: nat)
    requires HistoryInv(vs) && UpgradeSpans(vs, i, j)
    ensures vs[j].status.targetVersion == vs[i].spec.image.tag
    ensures vs[j].status.currentVersion == vs[i].status.currentVersion
    decreases j
  {
    assert Step(vs[j - 1], vs[j]);
    if i + 1 < j {
      TargetIsRemembered(vs, i, j - 1);
    }
  }

  /** When an upgrade ends, the current version becomes the image tag the spec asked for when it
      began, whatever the tag was edited to in between. */
  lemma VersionAfterUpgrade(vs: seq<CR>, i: nat, j: nat)
    requires HistoryInv(vs) && UpgradeSpans(vs, i, j) && j + 1 < |vs| && !vs[j + 1].status.InUpgrade()
    ensures vs[j + 1].status.currentVersion == vs[i].spec.image.tag
    ensures forall k | i <= k <= j :: vs[k].status.currentVersion == vs[i].status.currentVersion
  {
    TargetIsRemembered(vs, i, j);
    assert Step(vs[j], vs[j + 1]);
    forall k | i < k <= j
      ensures vs[k].status.currentVersion == vs[i].status.currentVersion
    {
      TargetIsRemembered(vs, i, k);
    }
  }

  // ----- The failed state -----

  /** The StatefulSet as the recovery of a failed upgrade needs to find it. */
  predicate Repaired(sts: Option<Sts>) {
    sts.Some? && var s := sts.value.status; s.replicas == s.readyReplicas && s.currentRevision == s.updateRevision
  }

  /** How a failed status is left: everything in one step. */
  ghost predicate RecoveredFrom(s: Status, t: Status) {
    && t.currentVersion == s.targetVersion && t.targetVersion == ""
    && HasStatus(t.conditions, Error, IsFalse) && !t.InUpgrade()
  }

  /** The object and its history are exactly as before, and the pass is still working on the same version. */
  ghost predicate SameObject(l: Local, r: Local) {
    r.w.cr == l.w.cr && r.w.older == l.w.older && r.w.id == l.w.id && r.z.rv == l.z.rv
  }

  lemma OutdatedWrite(l: Local, c: CR, fate: Fate)
    requires l.z.rv != l.w.cr.rv
    ensures Write(l, c, fate) == l.Fail()
  {
  }

  lemma OutdatedFinalizers(l: Local, e: Weather)
    requires l.z.rv != l.w.cr.rv
    ensures SameObject(l, ReconcileFinalizers(l, e))
  {
  }

  lemma OutdatedUpgrade(l: Local, found: StsStatus, e: Weather)
    requires l.z.rv != l.w.cr.rv
    ensures SameObject(l, UpgradeStatefulSet(l, found, e))
  {
  }

  lemma OutdatedSync(l: Local, found: Sts, next: Sts, e: Weather)
    requires l.z.rv != l.w.cr.rv
    ensures SameObject(l, SyncExisting(l, found, next, e))
  {
    var a := if next.spec.replicas != found.spec.replicas then PublishSize(l, next.spec.replicas, e) else l;
    var b := UpdateStatefulSet(a, Relabelled(found, l.z.rv), next, e);
    assert SameObject(l, a) && SameObject(a, b);
    OutdatedUpgrade(b, found.status, e);
  }

  lemma OutdatedRecovery(l: Local, e: Weather)
    requires l.z.rv != l.w.cr.rv
    ensures SameObject(l, RecoverFailedUpgrade(l, e))
  {
  }

  lemma OutdatedStatefulSet(l: Local, e: Weather)
    requires l.z.rv != l.w.cr.rv && Generable(l.z.spec)
    ensures SameObject(l, ReconcileStatefulSet(l, e))
  {
    if l.z.status.UpgradeFailed() {
      OutdatedRecovery(l, e);
    } else if l.w.sts.Some? {
      OutdatedSync(l, l.w.sts.value, MakeStatefulSet(l.w.id, l.z.spec), e);
    }
  }

  lemma OutdatedClusterStatus(l: Local, e: Weather)
    requires l.z.rv != l.w.cr.rv
    ensures SameObject(l, ReconcileClusterStatus(l, e))
  {
    RootedEffect(l, e);
    var a := Rooted(l, e);
    var b := a.WithStatus(SettledStatus(a.z, e.Second()));
    OutdatedWrite(b, b.w.cr.(status := b.z.status), e.Fate(WriteStatus));
  }

  /** A pass working on an outdated object changes no version of it. */
  lemma OutdatedFullPass(l: Local, e: Weather)
    requires l.z.rv != l.w.cr.rv && Generable(l.z.spec)
    ensures SameObject(l, FullPass(l, e))
  {
    OutdatedFinalizers(l, e);
    var a := ReconcileFinalizers(l, e);
    OutdatedStatefulSet(a, e);
    OutdatedClusterStatus(ReconcileStatefulSet(a, e), e);
  }

  /** So no pass that reads an outdated version does. */
  lemma OutdatedPass(w: World, e: Weather)
    requires WorldInv(w) && View(w, e).rv != w.cr.rv
    ensures var r := Pass(w, e).0;
            r.cr == w.cr && r.older == w.older
  {
    var read := View(w, e);
    var l := Local(w, Prepared(read, w.id.name, e.now), true);
    if !NeedsUpdate(read.spec) {
      DefaultedIsGenerable(read.spec, w.id.name);
      OutdatedFullPass(l, e);
    }
  }

  /** The recovery branch never writes the StatefulSet's content nor the stored status. */
  lemma RecoveryEffect(l: Local, e: Weather)
    requires WorldInv(l.w) && l.z.status.UpgradeFailed()
    ensures var r := RecoverFailedUpgrade(l, e);
            && r.w.sts == l.w.sts && r.w.cr.status == l.w.cr.status
            && (r.ok && !r.z.status.UpgradeFailed() ==> Repaired(l.w.sts))
  {
    var s := l.z.status;
    var mended := s.Recovered(e.Second());
    var cleared := mended.With(Upgrading, IsFalse, "", "", e.Second()).(targetVersion := "");
    UpdateObjectKeeps(l.WithStatus(cleared), e.Fate(UpdateCleared));
  }

  lemma FailedFullPass(l: Local, e: Weather)
    requires LocalInv(l) && l.z.status.UpgradeFailed() && Generable(l.z.spec)
    requires l.z.rv == l.w.cr.rv ==> l.z.status == l.w.cr.status
    ensures var r := FullPass(l, e);
            r.w.sts == l.w.sts && (!Repaired(l.w.sts) ==> r.w.cr.status == l.w.cr.status)
  {
    FinalizersKeep(l, e);
    var a := ReconcileFinalizers(l, e);
    if a.ok && !e.Fails(SyncConfigMap) {
      RecoveryEffect(a, e);
      ClusterStatusEffect(RecoverFailedUpgrade(a, e), e);
    }
  }

  lemma ClusterStatusEffect(l: Local, e: Weather)
    ensures var r := ReconcileClusterStatus(l, e);
            r.w.sts == l.w.sts && (l.z.status.UpgradeFailed() || l.z.status.InUpgrade() ==> r == l)
  {
    RootedEffect(l, e);
    var a := Rooted(l, e);
    assert UpdateStatus(a.WithStatus(SettledStatus(a.z, e.Second())), e.Fate(WriteStatus)).w.sts == a.w.sts;
  }

  lemma RecoveryIsComplete(l: Local, e: Weather)
    requires LocalInv(l) && l.z.status.UpgradeFailed() && Generable(l.z.spec)
    requires l.z.rv == l.w.cr.rv && l.z.status == l.w.cr.status
    ensures var t := FullPass(l, e).w.cr.status;
            t == l.w.cr.status || (Repaired(l.w.sts) && RecoveredFrom(l.w.cr.status, t))
  {
    FailedFullPass(l, e);
    FinalizersKeep(l, e);
    var a := ReconcileFinalizers(l, e);
    if a.ok && !e.Fails(SyncConfigMap) {
      RecoveryEffect(a, e);
      RecoveryKeeps(a, e);
      var b := RecoverFailedUpgrade(a, e);
      if b.ok && !OtherObjectsFail(e) {
        ClusterStatusKeeps(b, e);
      }
    }
  }

  /** While the version a pass reads says the upgrade failed, the pass alters nothing of the StatefulSet. */
  lemma FailedPassFreezesStatefulSet(w: World, e: Weather)
    requires WorldInv(w) && View(w, e).status.UpgradeFailed()
    ensures Pass(w, e).0.sts == w.sts
  {
    ViewIsStored(w, e);
    var read := View(w, e);
    var l := Local(w, Prepared(read, w.id.name, e.now), true);
    DefaultedIsGenerable(read.spec, w.id.name);
    if !NeedsUpdate(read.spec) {
      FailedFullPass(l, e);
    }
  }

  /** A stored failed state is left by a pass only if the StatefulSet it saw was repaired, and then by
      one write that carries the whole recovery; otherwise the stored status is exactly what it was. */
  lemma FailedStateExit(w: World, e: Weather)
    requires WorldInv(w) && w.cr.status.UpgradeFailed()
    ensures var t := Pass(w, e).0.cr.status;
            t == w.cr.status || (Repaired(w.sts) && RecoveredFrom(w.cr.status, t))
  {
    PassKeeps(w, e);
    ViewIsStored(w, e);
    var read := View(w, e);
    var l := Local(w, Prepared(read, w.id.name, e.now), true);
    DefaultedIsGenerable(read.spec, w.id.name);
    if NeedsUpdate(read.spec) {
      UpdateObjectKeeps(l, e.Fate(UpdateDefaults));
    } else if read.rv != w.cr.rv {
      OutdatedFullPass(l, e);
    } else {
      RecoveryIsComplete(l, e);
    }
  }
}
