/** Why a pass is requeued: defaults to store and rolling restarts to begin. */
module Requeue {
  import opened Options
  import opened Text
  import opened Calls
  import opened ClusterSpec
  import opened DefaultingProperties
  import opened ClusterStatus
  import opened Generators
  import opened Reconcile
  import opened UpgradeInvariants
  import opened Runs
  import opened OwnerLabel
  import opened Znodes
  import opened MetaRoot

  /** Noting a restart leaves nothing to default. */
  lemma PreparedLacks(z: CR, name: string, now: int)
    ensures var p := Prepared(z, name, now).spec;
            && (NeedsUpdate(p) <==> TimeoutWraps(z.spec.conf)) && !p.triggerRollingRestart
            && p.conf == Defaulted(z.spec, name).conf
            && (z.spec.triggerRollingRestart ==>
                  p.pod.annotations.Some?
                  && p.pod.annotations.value == OrEmpty(z.spec.pod.annotations)["restartTime" := RestartTime(now)])
  {
    DefaultingIsAFixpoint(z.spec, name);
    var s := Defaulted(z.spec, name);
    assert Defaulted(z.spec, name).pod.annotations == z.spec.pod.annotations;
    assert Lacks(Prepared(z, name, now).spec) == Lacks(s);
  }

  /** A requeue means that the current version was read and its defaulted form stored. */
  lemma RequeuedStores(w: World, e: Weather)
    requires WorldInv(w) && Pass(w, e).1 == Requeued
    ensures View(w, e) == w.cr && Pass(w, e).0.cr.spec == Prepared(w.cr, w.id.name, e.now).spec
  {
    ViewIsStored(w, e);
  }

  lemma UpdateIsStored(l: Local, fate: Fate)
    requires l.ok
    ensures UpdateObject(l, fate).ok <==> fate == Done && !l.w.gone && l.z.rv == l.w.cr.rv
  {
  }

  /** When a pass is requeued, and when it finds no object, exactly; in the second case it changes nothing. */
  lemma RequeuedExactly(w: World, e: Weather)
    requires WorldInv(w)
    ensures Pass(w, e).1 == Requeued <==>
            && View(w, e) == w.cr && !w.gone && NeedsUpdate(w.cr.spec)
            && e.Fate(GetCR) == Done && e.Fate(UpdateDefaults) == Done
    ensures Pass(w, e).1 == Absent <==> e.Fate(GetCR) == Done && w.gone && e.view >= |w.older|
    ensures Pass(w, e).1 == Absent ==> Pass(w, e).0 == w
  {
    ViewIsStored(w, e);
    UpdateIsStored(Local(w, Prepared(View(w, e), w.id.name, e.now), true), e.Fate(UpdateDefaults));
  }

  /** Every field is as defaulting promises, and the restart is noted if one was asked for. */
  ghost predicate PreparedFrom(s: Spec, t: Spec, name: string, now: int) {
    && Filled(s.(triggerRollingRestart := false, pod := s.pod.(annotations := t.pod.annotations)), t, name)
    && t.pod.annotations == (if s.triggerRollingRestart
                             then Some(OrEmpty(s.pod.annotations)["restartTime" := RestartTime(now)])
                             else s.pod.annotations)
  }

  lemma PreparedIsFilled(z: CR, name: string, now: int)
    ensures PreparedFrom(z.spec, Prepared(z, name, now).spec, name, now)
  {
    DefaultedIsFilled(z.spec, name);
  }

  /** Everything but the spec is as it was. */
  ghost predicate SpecOnly(w: World, r: World) {
    && r.cr.status == w.cr.status && r.cr.finalizers == w.cr.finalizers && r.cr.deleting == w.cr.deleting
    && r.sts == w.sts && r.claims == w.claims && r.znodes == w.znodes
  }

  lemma UpdateChangesSpecOnly(l: Local, fate: Fate)
    requires l.z.rv == l.w.cr.rv ==> l.z.finalizers == l.w.cr.finalizers
    ensures SpecOnly(l.w, UpdateObject(l, fate).w)
  {
  }

  lemma RequeuedIsUpdate(w: World, e: Weather)
    requires Pass(w, e).1 == Requeued
    ensures var l := Local(w, Prepared(View(w, e), w.id.name, e.now), true);
            Pass(w, e).0 == UpdateObject(l, e.Fate(UpdateDefaults)).w
  {
  }

  /** So that is what is stored then, and nothing else changes. */
  lemma DefaultsAreStored(w: World, e: Weather)
    requires WorldInv(w) && Pass(w, e).1 == Requeued
    ensures var r := Pass(w, e).0;
            PreparedFrom(w.cr.spec, r.cr.spec, w.id.name, e.now) && SpecOnly(w, r)
  {
    RequeuedStores(w, e);
    RequeuedIsUpdate(w, e);
    UpdateChangesSpecOnly(Local(w, Prepared(View(w, e), w.id.name, e.now), true), e.Fate(UpdateDefaults));
    PreparedIsFilled(w.cr, w.id.name, e.now);
  }

  /** Without outside edits one stored update is enough, exactly when no session timeout wraps to zero:
      the pass after a requeue is not requeued again. */
  lemma OneUpdateIsEnough(w: World, e: Weather)
    requires WorldInv(w) && Pass(w, e).1 == Requeued
    ensures NeedsUpdate(Pass(w, e).0.cr.spec) <==> TimeoutWraps(w.cr.spec.conf)
    ensures forall f: Weather | View(Pass(w, e).0, f) == Pass(w, e).0.cr ::
              !TimeoutWraps(w.cr.spec.conf) ==> Pass(Pass(w, e).0, f).1 != Requeued
  {
    RequeuedStores(w, e);
    PreparedLacks(w.cr, w.id.name, e.now);
  }

  /** A wrapped timeout stays wrapped however often it is defaulted. */
  lemma WrapStays(c: ZookeeperConfig)
    ensures TimeoutWraps(DefaultedConfig(c)) <==> TimeoutWraps(c)
  {
    WrapsToZero(OrNumber(c.tickTime, 2000));
  }

  /** With a timeout that wraps to zero no pass over the current version is ever complete: it is
      requeued or fails, and leaves a version of the same kind. */
  lemma WrappedTimeoutNeverCompletes(w: World, e: Weather)
    requires WorldInv(w) && View(w, e) == w.cr && TimeoutWraps(w.cr.spec.conf)
    ensures Pass(w, e).1 != Complete && TimeoutWraps(Pass(w, e).0.cr.spec.conf)
  {
    PreparedLacks(w.cr, w.id.name, e.now);
    WrapStays(w.cr.spec.conf);
    assert Defaulted(w.cr.spec, w.id.name).conf == DefaultedConfig(w.cr.spec.conf);
    assert SessionsLack(w.cr.spec.conf);
  }

  /** A stored restart trigger is consumed by exactly the pass that reads it and whose update takes effect,
      acknowledged or not, and that pass notes the time; until then every pass leaves it. */
  lemma TriggerIsConsumedOnce(w: World, e: Weather)
    requires WorldInv(w) && w.cr.spec.triggerRollingRestart && !w.gone
    ensures var t := Pass(w, e).0.cr.spec;
            && (!t.triggerRollingRestart <==>
                  View(w, e) == w.cr && !e.Fails(GetCR) && e.Fate(UpdateDefaults) != Refused)
            && (!t.triggerRollingRestart ==>
                  t.pod.annotations.Some?
                  && t.pod.annotations.value == OrEmpty(w.cr.spec.pod.annotations)["restartTime" := RestartTime(e.now)])
  {
    ViewIsStored(w, e);
    var read := View(w, e);
    PreparedLacks(read, w.id.name, e.now);
    var l := Local(w, Prepared(read, w.id.name, e.now), true);
    if read.rv != w.cr.rv {
      OutdatedPass(w, e);
    }
  }

  // ----- A pass on which nothing fails -----

  /** No call fails, except perhaps the last one. */
  ghost predicate Quiet(e: Weather) {
    (forall c: Call | c != WriteStatus :: e.Fate(c) == Done) && e.znodeFates == map[]
  }

  ghost predicate Calm(e: Weather) {
    Quiet(e) && e.Fate(WriteStatus) == Done
  }

  /** The pass goes on, working on the current version of an object that lives. */
  ghost predicate Steady(l: Local) {
    && l.ok && !l.w.gone && !l.w.cr.deleting && l.z.rv == l.w.cr.rv && l.z.deleting == l.w.cr.deleting
    && l.z.spec.replicas == l.w.cr.spec.replicas
  }

  lemma SteadyWrite(l: Local, c: CR)
    requires Steady(l) && !c.deleting && c.rv == l.w.cr.rv && c.spec.replicas == l.z.spec.replicas
    ensures Steady(Write(l, c, Done)) && Write(l, c, Done).z.status == c.status
  {
  }

  lemma SteadyFinalizers(l: Local, e: Weather)
    requires Steady(l) && Quiet(e)
    ensures Steady(ReconcileFinalizers(l, e))
  {
    var added := l.(z := l.z.(finalizers := l.z.finalizers + [Claims.ZK_FINALIZER]));
    SteadyWrite(added, l.w.cr.(spec := l.z.spec, finalizers := added.z.finalizers));
    assert e.Fate(UpdateFinalizers) == Done && e.Fate(ListClaims) == Done && e.Fate(ListClaimsAgain) == Done;
  }

  /** A stage keeps what the size znode depends on. */
  ghost predicate SameRoot(l: Local, r: Local) {
    && r.w.id == l.w.id && r.w.znodes.Keys == l.w.znodes.Keys && r.z.spec.replicas == l.z.spec.replicas
    && r.z.status.metaRootCreated == l.z.status.metaRootCreated && r.z.status.readyReplicas == l.z.status.readyReplicas
  }

  lemma SteadyClear(l: Local, e: Weather)
    requires Steady(l) && Quiet(e)
    ensures Steady(ClearUpgradeStatus(l, e)) && SameRoot(l, ClearUpgradeStatus(l, e))
  {
    var cleared := l.WithStatus(l.z.status.With(Upgrading, IsFalse, "", "", e.Second()).(targetVersion := ""));
    SteadyWrite(cleared, l.w.cr.(spec := l.z.spec, finalizers := l.z.finalizers));
    assert e.Fate(UpdateCleared) == Done;
  }

  lemma SteadyUpgrade(l: Local, found: StsStatus, e: Weather)
    requires Steady(l) && Quiet(e)
    ensures Steady(UpgradeStatefulSet(l, found, e)) && SameRoot(l, UpgradeStatefulSet(l, found, e))
  {
    assert e.Fate(WriteProgress) == Done;
    JudgeKeepsRoot(l.z.status, l.z.spec.image.tag, found, e.now);
    match Judge(l.z.status, l.z.spec.image.tag, found, e.now)
    case Remember(s) =>
    case Persist(s) => SteadyWrite(l.WithStatus(s), l.w.cr.(status := s));
    case Clear(s) => SteadyClear(l.WithStatus(s), e);
  }

  lemma JudgeKeepsRoot(s: Status, tag: string, found: StsStatus, now: int)
    ensures var t := Judge(s, tag, found, now).s;
            t.metaRootCreated == s.metaRootCreated && t.readyReplicas == s.readyReplicas
  {
  }

  lemma SteadyRecovery(l: Local, e: Weather)
    requires Steady(l) && Quiet(e)
    ensures Steady(RecoverFailedUpgrade(l, e)) && SameRoot(l, RecoverFailedUpgrade(l, e))
  {
    var s := l.z.status;
    SteadyClear(l.WithStatus(s.Recovered(e.Second())), e);
    assert e.Fate(GetSts) == Done && e.Fate(UpdateSts) == Done;
  }

  /** A size can be published where it has to be. */
  ghost predicate Publishable(w: World, found: Sts, replicas: int) {
    replicas == found.spec.replicas || MetaPath(w.id) in w.znodes
  }

  lemma SteadySync(l: Local, found: Sts, next: Sts, named: nat, e: Weather)
    requires Steady(l) && Quiet(e) && OwnerRv(found) == Some(Itoa(named)) && named <= l.z.rv <= MAX_INT64
    ensures var r := SyncExisting(l, found, next, e);
            if Publishable(l.w, found, next.spec.replicas)
            then Steady(r) && SameRoot(l.WithStatus(l.z.status.(readyReplicas := found.status.readyReplicas)), r)
            else !r.ok
  {
    CompareNumeric(l.z.rv, named);
    assert e.Fate(UpdateSts) == Done && e.Fate(Connect) == Done;
    assert e.Fate(ZnodeExists) == Done && e.Fate(SetZnode) == Done;
    var a := if next.spec.replicas != found.spec.replicas then PublishSize(l, next.spec.replicas, e) else l;
    if a.ok {
      assert a.w.znodes.Keys == l.w.znodes.Keys;
      SteadyUpgrade(UpdateStatefulSet(a, Relabelled(found, l.z.rv), next, e), found.status, e);
    }
  }

  /** The size znode is recorded, or it is not time to create it, or nothing is in its way. */
  ghost predicate Rootable(id: Identity, znodes: Tree, s: Status, replicas: int) {
    || s.metaRootCreated || s.readyReplicas != replicas
    || (var paths := NodePaths(MetaPath(id)); forall i | 0 <= i < |paths| :: paths[i] !in znodes)
  }

  lemma SteadyRoot(l: Local, e: Weather)
    requires Steady(l) && Quiet(e)
    ensures Steady(Rooted(l, e)) <==> Rootable(l.w.id, l.w.znodes, l.z.status, l.z.spec.replicas)
    ensures Rooted(l, e).ok ==> Steady(Rooted(l, e))
  {
    RootedEffect(l, e);
    assert e.Fate(ListPods) == Done && e.Fate(ConnectForRoot) == Done;
    NodesAreDistinct(l.w.id);
    CreateExactly(l.w.znodes, NodePaths(MetaPath(l.w.id)), SizeData(l.z.spec.replicas), e.znodeFates);
  }

  lemma SteadyLastStages(l: Local, e: Weather)
    requires Steady(l) && Calm(e) && StatusInv(l.z.status)
    ensures LastStages(l, e).ok <==> Rootable(l.w.id, l.w.znodes, l.z.status, l.z.spec.replicas)
  {
    assert !OtherObjectsFail(e);
    SteadyRoot(l, e);
    var a := Rooted(l, e);
    if a.ok {
      SteadyWrite(a.WithStatus(SettledStatus(a.z, e.Second())), a.w.cr.(status := SettledStatus(a.z, e.Second())));
    }
  }

  ghost predicate SizeReachable(w: World, z: CR) {
    z.status.UpgradeFailed() || w.sts.None? || Publishable(w, w.sts.value, z.spec.replicas)
  }

  /** The status with the count a pass finds. */
  function Found(w: World, s: Status): Status {
    if w.sts.Some? then s.(readyReplicas := w.sts.value.status.readyReplicas) else s
  }

  ghost predicate RootReachable(w: World, z: CR) {
    Rootable(w.id, w.znodes, Found(w, z.status), z.spec.replicas)
  }

  lemma MiddleRecovering(l: Local, e: Weather)
    requires Steady(l) && Calm(e) && LocalInv(l) && l.z.status == l.w.cr.status && l.z.status.UpgradeFailed()
    ensures LastStages(RecoverFailedUpgrade(l, e), e).ok && RootReachable(l.w, l.z)
  {
    RecoveryKeeps(l, e);
    SteadyRecovery(l, e);
    SteadyLastStages(RecoverFailedUpgrade(l, e), e);
  }

  lemma MiddleCreating(l: Local, next: Sts, e: Weather)
    requires Steady(l) && Calm(e) && LocalInv(l) && l.w.sts.None?
    ensures LastStages(CreateStatefulSet(l, next, e), e).ok <==> RootReachable(l.w, l.z)
  {
    assert e.Fate(CreateSts) == Done;
    SteadyLastStages(CreateStatefulSet(l, next, e), e);
  }

  lemma MiddleSyncing(l: Local, found: Sts, next: Sts, named: nat, e: Weather)
    requires Steady(l) && Calm(e) && LocalInv(l) && l.z.status == l.w.cr.status && !l.z.status.UpgradeFailed()
    requires l.w.sts == Some(found) && OwnerRv(found) == Some(Itoa(named)) && named <= l.z.rv <= MAX_INT64
    requires next.spec.replicas == l.z.spec.replicas
    ensures LastStages(SyncExisting(l, found, next, e), e).ok <==> SizeReachable(l.w, l.z) && RootReachable(l.w, l.z)
  {
    SyncExistingKeeps(l, found, next, e);
    SteadySync(l, found, next, named, e);
    var r := SyncExisting(l, found, next, e);
    if r.ok {
      SyncedLastStages(l, found, r, e);
    }
  }

  lemma SyncedLastStages(l: Local, found: Sts, r: Local, e: Weather)
    requires Steady(r) && Calm(e) && StatusInv(r.z.status) && l.w.sts == Some(found)
    requires SameRoot(l.WithStatus(l.z.status.(readyReplicas := found.status.readyReplicas)), r)
    ensures LastStages(r, e).ok <==> RootReachable(l.w, l.z)
  {
    SteadyLastStages(r, e);
    var paths := NodePaths(MetaPath(l.w.id));
    assert forall i | 0 <= i < |paths| :: paths[i] in r.w.znodes <==> paths[i] in l.w.znodes;
  }

  lemma NamedLabel(w: World) returns (named: nat)
    requires WorldInv(w) && LabelInv(w) && w.sts.Some?
    ensures OwnerRv(w.sts.value) == Some(Itoa(named)) && named <= w.cr.rv
  {
    var v :| MadeFrom(w, w.sts.value, v);
    StoredIsOlder(w, v);
    named := v.rv;
  }

  lemma QuietMiddle(l: Local, next: Sts, e: Weather)
    requires Quiet(e) && l.ok && Generable(l.z.spec) && next == MakeStatefulSet(l.w.id, l.z.spec)
    ensures var r := if l.z.status.UpgradeFailed() then RecoverFailedUpgrade(l, e)
                     else if l.w.sts.None? then CreateStatefulSet(l, next, e)
                     else SyncExisting(l, l.w.sts.value, next, e);
            MiddleStages(l, e) == LastStages(r, e)
    ensures next.spec.replicas == l.z.spec.replicas
  {
    assert e.Fate(SyncConfigMap) == Done && e.Fate(SyncServiceAccount) == Done && e.Fate(GetSts) == Done;
  }

  lemma SteadyMiddle(l: Local, e: Weather)
    requires Steady(l) && Calm(e) && LocalInv(l) && LabelInv(l.w) && Generable(l.z.spec) && l.z.status == l.w.cr.status
    requires l.z.rv <= MAX_INT64
    ensures MiddleStages(l, e).ok <==> SizeReachable(l.w, l.z) && RootReachable(l.w, l.z)
  {
    var next := MakeStatefulSet(l.w.id, l.z.spec);
    QuietMiddle(l, next, e);
    if l.z.status.UpgradeFailed() {
      MiddleRecovering(l, e);
    } else if l.w.sts.None? {
      MiddleCreating(l, next, e);
    } else {
      var named := NamedLabel(l.w);
      MiddleSyncing(l, l.w.sts.value, next, named, e);
    }
  }

  lemma FinalizersLabel(l: Local, e: Weather)
    requires WorldInv(l.w) && LabelInv(l.w) && l.ok && l.z.rv == l.w.cr.rv
    requires l.z.spec == Defaulted(l.w.cr.spec, l.w.id.name)
    ensures LabelInv(ReconcileFinalizers(l, e).w)
  {
    assert l.w.Versions()[|l.w.older|] == l.w.cr;
    assert ReadFrom(l, l.w.cr);
    FinalizersRead(l, l.w.cr, e);
    SameSts(l.w, ReconcileFinalizers(l, e).w);
  }

  lemma CalmFullPass(l: Local, e: Weather)
    requires LocalInv(l) && LabelInv(l.w) && Steady(l) && l.w.revision < MAX_INT64 && Calm(e)
    requires l.z.status == l.w.cr.status && l.z.spec == Defaulted(l.w.cr.spec, l.w.id.name) && Generable(l.z.spec)
    ensures FullPass(l, e).ok <==> SizeReachable(l.w, l.z) && RootReachable(l.w, l.z)
  {
    FinalizersKeep(l, e);
    SteadyFinalizers(l, e);
    FinalizersRaise(l, e);
    FinalizersLabel(l, e);
    SteadyMiddle(ReconcileFinalizers(l, e), e);
  }

  // ----- What a complete pass has done -----

  /** The calls for the StatefulSet that must end well: while a failed upgrade waits, only a found StatefulSet is
      updated; otherwise all of them, the account first unless it is the default one. */
  ghost predicate StatefulSetDone(sts: Option<Sts>, failed: bool, account: string, e: Weather) {
    if failed then sts.Some? && !e.Fails(GetSts) ==> !e.Fails(UpdateSts)
    else
      && (account != "default" ==> !e.Fails(SyncServiceAccount)) && !e.Fails(GetSts)
      && (if sts.Some? then !e.Fails(UpdateSts) else !e.Fails(CreateSts))
  }

  ghost predicate OthersDone(e: Weather) {
    && !e.Fails(SyncConfigMap) && !e.Fails(SyncClientService) && !e.Fails(SyncHeadlessService)
    && !e.Fails(SyncAdminService) && !e.Fails(CreatePdb)
  }

  lemma SyncDone(l: Local, found: Sts, next: Sts, e: Weather)
    requires SyncExisting(l, found, next, e).ok
    ensures !e.Fails(UpdateSts)
  {
  }

  lemma MiddleDone(l: Local, e: Weather)
    requires Generable(l.z.spec) && MiddleStages(l, e).ok
    ensures OthersDone(e)
    ensures StatefulSetDone(l.w.sts, l.z.status.UpgradeFailed(), l.z.spec.pod.serviceAccountName, e)
  {
    if !l.z.status.UpgradeFailed() && l.w.sts.Some? && !e.Fails(GetSts) && ReconcileStatefulSet(l, e).ok {
      SyncDone(l, l.w.sts.value, MakeStatefulSet(l.w.id, l.z.spec), e);
    }
  }

  /** No error is passed over: in a complete pass, over whatever version, every one of these calls ended well.
      Only the error of the write of the size znode is. */
  lemma CompletePassDone(w: World, e: Weather)
    requires WorldInv(w) && Pass(w, e).1 == Complete
    ensures !e.Fails(GetCR) && !(w.gone && e.view >= |w.older|) && !NeedsUpdate(View(w, e).spec) && OthersDone(e)
    ensures var read := View(w, e);
            StatefulSetDone(w.sts, read.status.UpgradeFailed(), read.spec.pod.serviceAccountName, e)
  {
    DefaultedIsGenerable(View(w, e).spec, w.id.name);
    var l := PreparedIsConsistent(w, e);
    FinalizersKeep(l, e);
    MiddleDone(ReconcileFinalizers(l, e), e);
  }

  /** A pass over the current version of a live object with its defaults in place, on which nothing
      fails, is complete exactly when a changed size has a znode to be published in and a size znode
      that is to be created has nothing in its way. */
  lemma CalmPassCompletes(w: World, e: Weather)
    requires WorldInv(w) && LabelInv(w) && View(w, e) == w.cr && !w.gone && !w.cr.deleting && w.revision < MAX_INT64
    requires !NeedsUpdate(w.cr.spec) && Calm(e)
    ensures Pass(w, e).1 == Complete <==> SizeReachable(w, w.cr) && RootReachable(w, w.cr)
  {
    DefaultedIsGenerable(w.cr.spec, w.id.name);
    assert e.Fate(GetCR) == Done;
    var l := PreparedIsConsistent(w, e);
    CalmFullPass(l, e);
  }

  lemma FinalizersRaise(l: Local, e: Weather)
    ensures var a := ReconcileFinalizers(l, e);
            l.w.cr.rv <= l.w.revision ==> l.w.cr.rv <= a.w.cr.rv <= l.w.revision + 1
  {
  }
}
