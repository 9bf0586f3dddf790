/** Where a failure and its time stamp come from, over passes of every kind: complete or cut off by an
    error at any call, over the current version or an outdated one. */
module Timeout {
  import opened Options
  import opened Text
  import opened Calls
  import opened ClusterStatus
  import opened Generators
  import opened Reconcile
  import opened UpgradeInvariants
  import opened Runs
  import opened Deadline
  import opened Freeze

  // ----- One pass -----

  /** The StatefulSet a pass finds is between revisions. */
  ghost predicate Moving(sts: Option<Sts>) {
    sts.Some? && sts.value.status.currentRevision != sts.value.status.updateRevision
  }

  /** The progress a pass finds, as a condition records it. */
  ghost function Count(sts: Option<Sts>): string {
    if sts.Some? then Itoa(sts.value.status.updatedReplicas) else ""
  }

  /** The deadline was exceeded. */
  ghost predicate FailsRightly(s: Status, sts: Option<Sts>, now: int) {
    Pending(s) && Moving(sts) && Count(sts) == ProgressMessage(s) && Overdue(s, now)
  }

  /** A pending upgrade carries the stamp it had, or one of this very pass: of a count not seen in the pass
      before, or of the start. */
  ghost predicate StampedRightly(s: Status, sts: Option<Sts>, now: int, t: Status) {
    || (Pending(s) && ProgressMessage(t) == ProgressMessage(s) && ProgressStamp(t) == ProgressStamp(s))
    || (Pending(s) && Moving(sts) && Count(sts) != ProgressMessage(s)
        && ProgressMessage(t) == Count(sts) && ProgressStamp(t) == At(Cut(now)))
    || (!s.InUpgrade() && Moving(sts) && Begun(t, now))
  }

  /** What a pass may leave stored, as far as the deadline is concerned. */
  ghost predicate Explained(s: Status, sts: Option<Sts>, now: int, t: Status) {
    && (t.UpgradeFailed() && !s.UpgradeFailed() ==> FailsRightly(s, sts, now))
    && (Pending(t) ==> StampedRightly(s, sts, now, t))
  }

  /** Replica counts play no part in it. */
  ghost predicate SameProgress(s: Status, t: Status) {
    t == s.(replicas := t.replicas, readyReplicas := t.readyReplicas)
  }

  lemma VerdictExplained(s: Status, tag: string, found: Sts, now: int)
    requires StatusInv(s) && !s.UpgradeFailed() && tag != ""
    ensures Judge(s, tag, found.status, now).Persist? ==>
              Explained(s, Some(found), now, Judge(s, tag, found.status, now).s)
  {
    if s.InUpgrade() {
      JudgePending(s, tag, found.status, now);
    } else {
      JudgeStart(s, tag, found.status, now);
    }
  }

  lemma Unchanged(s: Status, sts: Option<Sts>, now: int)
    ensures Explained(s, sts, now, s)
  {
  }

  lemma SameExplained(s: Status, s': Status, sts: Option<Sts>, now: int, t: Status)
    requires SameProgress(s, s') && Explained(s', sts, now, t)
    ensures Explained(s, sts, now, t)
  {
  }

  /** The upgrade stage stores nothing, or a status that is explained. */
  lemma UpgradeExplained(l: Local, found: Sts, e: Weather)
    requires LocalInv(l) && Fresh(l) && !l.z.status.UpgradeFailed() && l.z.rv == l.w.cr.rv
    ensures Explained(l.w.cr.status, Some(found), e.now, UpgradeStatefulSet(l, found.status, e).w.cr.status)
  {
    var s := l.z.status;
    VerdictExplained(s, l.z.spec.image.tag, found, e.now);
    match Judge(s, l.z.spec.image.tag, found.status, e.now)
    case Remember(_) =>
    case Persist(t) =>
      SameExplained(l.w.cr.status, s, Some(found), e.now, t);
      StatusWritten(l, t, e.Fate(WriteProgress));
    case Clear(t) =>
      var cleared := t.With(Upgrading, IsFalse, "", "", e.Second()).(targetVersion := "");
      UpdateObjectKeeps(l.WithStatus(t).WithStatus(cleared), e.Fate(UpdateCleared));
  }

  lemma SyncExplained(l: Local, found: Sts, next: Sts, e: Weather)
    requires LocalInv(l) && l.z.rv == l.w.cr.rv && l.z.status == l.w.cr.status && !l.z.status.UpgradeFailed()
    ensures Explained(l.w.cr.status, Some(found), e.now, SyncExisting(l, found, next, e).w.cr.status)
  {
    var a := if next.spec.replicas != found.spec.replicas then PublishSize(l, next.spec.replicas, e) else l;
    assert a.w == l.w.(znodes := a.w.znodes) && a.z == l.z && a.w.Versions() == l.w.Versions();
    var relabelled := Relabelled(found, l.z.rv);
    UpdatedExplained(a, found, relabelled, next, e);
  }

  lemma UpdatedExplained(l: Local, found: Sts, relabelled: Sts, next: Sts, e: Weather)
    requires LocalInv(l) && l.z.rv == l.w.cr.rv && l.z.status == l.w.cr.status && !l.z.status.UpgradeFailed()
    ensures var b := UpdateStatefulSet(l, relabelled, next, e);
            var r := if b.ok then UpgradeStatefulSet(b, found.status, e) else b;
            Explained(l.w.cr.status, Some(found), e.now, r.w.cr.status)
  {
    SyncedIsFresh(l, relabelled, next, e);
    var b := UpdateStatefulSet(l, relabelled, next, e);
    assert b.w.cr == l.w.cr;
    if b.ok {
      UpgradeExplained(b, found, e);
    }
  }

  lemma StatefulSetExplained(l: Local, e: Weather)
    requires LocalInv(l) && Generable(l.z.spec) && l.z.rv == l.w.cr.rv && l.z.status == l.w.cr.status
    ensures Explained(l.w.cr.status, l.w.sts, e.now, ReconcileStatefulSet(l, e).w.cr.status)
  {
    Unchanged(l.w.cr.status, l.w.sts, e.now);
    if l.z.status.UpgradeFailed() {
      RecoveryEffect(l, e);
    } else if l.w.sts.Some? {
      SyncExplained(l, l.w.sts.value, MakeStatefulSet(l.w.id, l.z.spec), e);
    }
  }

  lemma SettledIsIdle(l: Local, e: Weather)
    requires !l.z.status.InUpgrade() && !l.z.status.UpgradeFailed()
    ensures var t := SettledStatus(Rooted(l, e).z, e.Second());
            !t.InUpgrade() && !t.UpgradeFailed()
  {
    SettledFailure(l, e);
    RootedEffect(l, e);
    InitialisedEffect(l.z.status, e.Second());
    var z := Rooted(l, e).z;
    var ready := if z.status.readyReplicas == z.spec.replicas then IsTrue else IsFalse;
    WithEffect(z.status, PodsReady, ready, "", "", e.Second());
  }

  /** The rest of the pass stores nothing, or a status without an upgrade. */
  lemma LastStagesExplained(l: Local, e: Weather)
    ensures var t := LastStages(l, e).w.cr.status;
            t == l.w.cr.status || (!t.InUpgrade() && !t.UpgradeFailed())
  {
    if l.ok && !OtherObjectsFail(e) && !l.z.status.InUpgrade() && !l.z.status.UpgradeFailed() {
      RootedEffect(l, e);
      SettledIsIdle(l, e);
      var a := Rooted(l, e);
      StatusWritten(a, SettledStatus(a.z, e.Second()), e.Fate(WriteStatus));
    }
  }

  lemma StatusWritten(l: Local, t: Status, fate: Fate)
    ensures UpdateStatus(l.WithStatus(t), fate).w.cr.status in {l.w.cr.status, t}
  {
  }

  lemma MiddleStagesExplained(l: Local, e: Weather)
    requires LocalInv(l) && Generable(l.z.spec) && l.z.rv == l.w.cr.rv && l.z.status == l.w.cr.status
    ensures Explained(l.w.cr.status, l.w.sts, e.now, MiddleStages(l, e).w.cr.status)
  {
    StatefulSetExplained(l, e);
    LastStagesExplained(ReconcileStatefulSet(l, e), e);
  }

  lemma FullPassExplained(l: Local, e: Weather)
    requires LocalInv(l) && Generable(l.z.spec) && l.z.rv == l.w.cr.rv && l.z.status == l.w.cr.status
    ensures Explained(l.w.cr.status, l.w.sts, e.now, FullPass(l, e).w.cr.status)
  {
    FinalizersKeep(l, e);
    if ReconcileFinalizers(l, e).ok {
      MiddleStagesExplained(ReconcileFinalizers(l, e), e);
    }
  }

  lemma UpdateStoresNoStatus(l: Local, fate: Fate)
    ensures UpdateObject(l, fate).w.cr.status == l.w.cr.status
  {
  }

  lemma CurrentPassExplained(w: World, e: Weather)
    requires WorldInv(w) && View(w, e) == w.cr
    ensures Explained(w.cr.status, w.sts, e.now, Pass(w, e).0.cr.status)
  {
    var l := Local(w, Prepared(w.cr, w.id.name, e.now), true);
    Unchanged(w.cr.status, w.sts, e.now);
    if NeedsUpdate(w.cr.spec) {
      UpdateStoresNoStatus(l, e.Fate(UpdateDefaults));
    } else {
      DefaultedIsGenerable(w.cr.spec, w.id.name);
      FullPassExplained(l, e);
    }
  }

  /** Any pass at all. A newly stored failure means that the upgrade was pending, the StatefulSet between
      revisions with the count last recorded, and the deadline past; a pending upgrade has the stamp it
      had, or the second of this pass for a count that was not the one recorded or for its start. */
  lemma EveryPassIsExplained(w: World, e: Weather)
    requires WorldInv(w)
    ensures Explained(w.cr.status, w.sts, e.now, Pass(w, e).0.cr.status)
  {
    ViewIsStored(w, e);
    if View(w, e).rv != w.cr.rv {
      OutdatedPass(w, e);
      Unchanged(w.cr.status, w.sts, e.now);
    } else {
      CurrentPassExplained(w, e);
    }
  }

  // ----- Runs -----

  /** The world after the first `i` events. */
  ghost function Through(w: World, evs: seq<Event>, i: nat): World
    requires i <= |evs|
  {
    Run(w, evs[..i])
  }

  lemma {:induction false} RunSnoc(w: World, evs: seq<Event>, ev: Event)
    ensures Run(w, evs + [ev]) == Next(Run(w, evs), ev)
    decreases |evs|
  {
    if evs == [] {
      assert evs + [ev] == [ev] && [ev][1..] == [];
    } else {
      assert (evs + [ev])[1..] == evs[1..] + [ev];
      RunSnoc(Next(w, evs[0]), evs[1..], ev);
    }
  }

  lemma ThroughNext(w: World, evs: seq<Event>, i: nat)
    requires i < |evs|
    ensures Through(w, evs, i + 1) == Next(Through(w, evs, i), evs[i])
  {
    assert evs[..i + 1] == evs[..i] + [evs[i]];
    RunSnoc(w, evs[..i], evs[i]);
  }

  /** The worlds of a run, the first included. */
  ghost function Worlds(w: World, evs: seq<Event>): (ws: seq<World>)
    ensures |ws| == |evs| + 1
  {
    seq(|evs| + 1, i requires 0 <= i <= |evs| => Through(w, evs, i))
  }

  /** A pass stores what is explained, and every other event stores no status. */
  ghost predicate StepExplained(w: World, ev: Event, r: World) {
    if ev.Reconciled? then Explained(w.cr.status, w.sts, ev.e.now, r.cr.status) else r.cr.status == w.cr.status
  }

  lemma EventExplained(w: World, ev: Event)
    requires WorldInv(w)
    ensures StepExplained(w, ev, Next(w, ev))
  {
    if ev.Reconciled? {
      EveryPassIsExplained(w, ev.e);
    }
  }

  ghost predicate RunExplained(ws: seq<World>, evs: seq<Event>) {
    && |ws| == |evs| + 1
    && forall i | 0 <= i < |evs| :: StepExplained(ws[i], evs[i], ws[i + 1])
  }

  lemma EveryRunIsExplained(w: World, evs: seq<Event>) returns (ws: seq<World>)
    requires WorldInv(w)
    ensures ws == Worlds(w, evs) && RunExplained(ws, evs) && ws[0] == w
  {
    ws := Worlds(w, evs);
    assert evs[..0] == [];
    forall i | 0 <= i < |evs|
      ensures StepExplained(ws[i], evs[i], ws[i + 1])
    {
      RunKeeps(w, evs[..i]);
      ThroughNext(w, evs, i);
      EventExplained(Through(w, evs, i), evs[i]);
    }
  }

  /** The upgrade is as pending as it was, with the same message and stamp. */
  ghost predicate SameStamp(s: Status, t: Status) {
    Pending(s) && Pending(t) && ProgressMessage(t) == ProgressMessage(s) && ProgressStamp(t) == ProgressStamp(s)
  }

  lemma SameStampTransitive(s: Status, t: Status, u: Status)
    requires SameStamp(s, t) && SameStamp(t, u)
    ensures SameStamp(s, u)
  {
  }

  /** Event `m` is a pass, and from it on up to version `k` the upgrade is pending with the message and
      the stamp that pass stored. */
  ghost predicate StampedBy(ws: seq<World>, evs: seq<Event>, m: nat, k: nat)
    requires |ws| == |evs| + 1
  {
    && m < k <= |evs| && evs[m].Reconciled?
    && ProgressStamp(ws[k].cr.status) == At(Cut(evs[m].e.now))
    && ProgressMessage(ws[k].cr.status) in {"", Count(ws[m].sts)}
    && forall i | m < i <= k :: SameStamp(ws[i].cr.status, ws[k].cr.status)
  }

  lemma StampedOneMore(ws: seq<World>, evs: seq<Event>, m: nat, k: nat)
    requires |ws| == |evs| + 1 && k < |evs| && StampedBy(ws, evs, m, k)
    requires SameStamp(ws[k].cr.status, ws[k + 1].cr.status)
    ensures StampedBy(ws, evs, m, k + 1)
  {
    forall i | m < i <= k
      ensures SameStamp(ws[i].cr.status, ws[k + 1].cr.status)
    {
      SameStampTransitive(ws[i].cr.status, ws[k].cr.status, ws[k + 1].cr.status);
    }
  }

  lemma {:induction false} StampHasAnOrigin(ws: seq<World>, evs: seq<Event>, k: nat) returns (m: nat)
    requires RunExplained(ws, evs) && !ws[0].cr.status.InUpgrade() && k <= |evs| && Pending(ws[k].cr.status)
    ensures StampedBy(ws, evs, m, k)
    decreases k
  {
    m := k - 1;
    assert StepExplained(ws[m], evs[m], ws[m + 1]);
    if SameStamp(ws[m].cr.status, ws[k].cr.status) {
      m := StampHasAnOrigin(ws, evs, k - 1);
      StampedOneMore(ws, evs, m, k - 1);
    }
  }

  lemma FailureHasAnOrigin(ws: seq<World>, evs: seq<Event>, k: nat) returns (m: nat)
    requires RunExplained(ws, evs) && !ws[0].cr.status.InUpgrade() && k < |evs|
    requires !ws[k].cr.status.UpgradeFailed() && ws[k + 1].cr.status.UpgradeFailed()
    ensures StampedBy(ws, evs, m, k) && evs[k].Reconciled? && evs[k].e.now - evs[m].e.now > Nanos(599)
    ensures var seen, now := ws[m].sts, ws[k].sts;
            seen.Some? && now.Some? && seen.value.status.updatedReplicas == now.value.status.updatedReplicas
  {
    assert StepExplained(ws[k], evs[k], ws[k + 1]);
    m := StampHasAnOrigin(ws, evs, k);
    var seen, now := ws[m].sts, ws[k].sts;
    assert Count(seen) == Count(now) != "";
    ItoaInjective(seen.value.status.updatedReplicas, now.value.status.updatedReplicas);
  }

  /** Soundness of the deadline in every run, whatever fails in whichever pass. When an event stores a
      failure, an earlier pass stored the stamp and saw the very count that the failing pass saw, the
      upgrade was pending with that message ever since, and more than 599 seconds lie between the two. */
  lemma FailureIsSound(w: World, evs: seq<Event>, k: nat) returns (m: nat)
    requires WorldInv(w) && !w.cr.status.InUpgrade() && k < |evs|
    requires !Run(w, evs[..k]).cr.status.UpgradeFailed() && Run(w, evs[..k + 1]).cr.status.UpgradeFailed()
    ensures StampedBy(Worlds(w, evs), evs, m, k) && evs[k].Reconciled? && evs[k].e.now - evs[m].e.now > Nanos(599)
    ensures var seen, now := Run(w, evs[..m]).sts, Run(w, evs[..k]).sts;
            seen.Some? && now.Some? && seen.value.status.updatedReplicas == now.value.status.updatedReplicas
  {
    var ws := EveryRunIsExplained(w, evs);
    m := FailureHasAnOrigin(ws, evs, k);
  }
}
