/** The progress deadline of an upgrade, over runs of complete passes. */
module Deadline {
  import opened Options
  import opened Text
  import opened Calls
  import opened ClusterStatus
  import opened Generators
  import opened Reconcile
  import opened UpgradeInvariants
  import opened Runs

  /** Clocks count nanoseconds, stamps whole seconds. */
  function Nanos(seconds: int): int { seconds * 1_000_000_000 }

  function Cut(now: int): int { now / 1_000_000_000 }

  ghost predicate Pending(s: Status) {
    s.InUpgrade() && !s.UpgradeFailed()
  }

  ghost predicate Overdue(s: Status, now: int) {
    now > Nanos(ParseStamp(ProgressStamp(s))) + TEN_MINUTES
  }

  /** The timeout, on any status: an upgrade is on, its condition gives this reason and this count, and its
      stamp is ten minutes old. */
  lemma TimedOutExactly(s: Status, reason: string, updatedReplicas: int, now: int)
    ensures TimedOut(s, reason, updatedReplicas, now) <==>
            && s.InUpgrade() && ProgressReason(s) == reason && ProgressMessage(s) == Itoa(updatedReplicas)
            && now > Nanos(ParseStamp(ProgressStamp(s)) + 600)
  {
  }

  /** What a complete pass over current data makes of a pending upgrade. */
  ghost predicate Judged(s: Status, found: StsStatus, now: int, t: Status) {
    if found.currentRevision == found.updateRevision then
      !t.InUpgrade() && t.currentVersion == s.targetVersion
    else if Itoa(found.updatedReplicas) != ProgressMessage(s) then
      && Pending(t) && ProgressMessage(t) == Itoa(found.updatedReplicas)
      && ProgressStamp(t) == At(Cut(now))
    else if Overdue(s, now) then t.UpgradeFailed()
    else Pending(t) && ProgressMessage(t) == ProgressMessage(s) && ProgressStamp(t) == ProgressStamp(s)
  }

  /** The verdict on a pending upgrade. */
  lemma JudgePending(s: Status, tag: string, found: StsStatus, now: int)
    requires StatusInv(s) && Pending(s) && tag != ""
    ensures match Judge(s, tag, found, now)
            case Clear(t) => found.currentRevision == found.updateRevision && t == s.(currentVersion := s.targetVersion)
            case Persist(t) => t.InUpgrade() && Judged(s, found, now, t)
            case Remember(t) => t == s && Judged(s, found, now, t)
  {
    var second := Cut(now);
    if Itoa(found.updatedReplicas) != ProgressMessage(s) {
      ProgressedStatus(s, Itoa(found.updatedReplicas), second, tag);
    } else {
      FailedStatus(s, second, tag);
    }
  }

  /** A pass that works on the current version and has not touched the status. */
  ghost predicate Current(l: Local) {
    l.ok && LocalInv(l) && l.z.rv == l.w.cr.rv && l.z.status == l.w.cr.status
  }

  lemma LastStagesComplete(l: Local, e: Weather)
    requires LocalInv(l) && LastStages(l, e).ok
    ensures var r := LastStages(l, e);
            && (l.z.status.InUpgrade() || l.z.status.UpgradeFailed() ==> r.w.cr == l.w.cr)
            && (!l.z.status.InUpgrade() && !l.z.status.UpgradeFailed() && l.z.status.currentVersion != "" ==>
                  !r.w.cr.status.InUpgrade() && r.w.cr.status.currentVersion == l.z.status.currentVersion)
  {
    if !l.z.status.InUpgrade() && !l.z.status.UpgradeFailed() {
      InitialisedEffect(l.z.status, e.Second());
      RootedEffect(l, e);
      var a := Rooted(l, e);
      var ready := if a.z.status.readyReplicas == a.z.spec.replicas then IsTrue else IsFalse;
      WithEffect(a.z.status, PodsReady, ready, "", "", e.Second());
      StatusStored(a.WithStatus(SettledStatus(a.z, e.Second())), e.Fate(WriteStatus));
    }
  }

  lemma StatusStored(l: Local, fate: Fate)
    requires UpdateStatus(l, fate).ok
    ensures var r := UpdateStatus(l, fate);
            r.w.cr.status == l.z.status && r.z == r.w.cr && r.w.sts == l.w.sts
  {
  }

  lemma ClearComplete(l: Local, e: Weather)
    requires WorldInv(l.w) && ClearUpgradeStatus(l, e).ok
    ensures var r := ClearUpgradeStatus(l, e);
            && r.w.cr.status == l.w.cr.status && !r.z.status.InUpgrade()
            && r.z.status.UpgradeFailed() == l.z.status.UpgradeFailed()
            && r.z.status.currentVersion == l.z.status.currentVersion
  {
    WithEffect(l.z.status, Upgrading, IsFalse, "", "", e.Second());
    var cleared := l.z.status.With(Upgrading, IsFalse, "", "", e.Second()).(targetVersion := "");
    UpdateObjectKeeps(l.WithStatus(cleared), e.Fate(UpdateCleared));
  }

  /** The upgrade stage and the rest of the pass, once the StatefulSet was written. */
  lemma UpgradeComplete(l: Local, found: StsStatus, e: Weather)
    requires LocalInv(l) && Fresh(l) && l.z.rv == l.w.cr.rv && Pending(l.z.status)
    requires LastStages(UpgradeStatefulSet(l, found, e), e).ok
    ensures Judged(l.w.cr.status, found, e.now, LastStages(UpgradeStatefulSet(l, found, e), e).w.cr.status)
  {
    var s := l.z.status;
    JudgePending(s, l.z.spec.image.tag, found, e.now);
    UpgradeKeeps(l, found, e);
    var r := UpgradeStatefulSet(l, found, e);
    LastStagesComplete(r, e);
    match Judge(s, l.z.spec.image.tag, found, e.now)
    case Clear(t) => ClearComplete(l.WithStatus(t), e);
    case Persist(t) => StatusStored(l.WithStatus(t), e.Fate(WriteProgress));
    case Remember(t) =>
  }

  lemma SyncComplete(l: Local, found: Sts, next: Sts, e: Weather)
    requires Current(l) && Pending(l.z.status) && l.w.sts == Some(found)
    requires LastStages(SyncExisting(l, found, next, e), e).ok
    ensures Judged(l.w.cr.status, found.status, e.now, LastStages(SyncExisting(l, found, next, e), e).w.cr.status)
  {
    var a := if next.spec.replicas != found.spec.replicas then PublishSize(l, next.spec.replicas, e) else l;
    assert a.w == l.w.(znodes := a.w.znodes) && a.z == l.z && a.w.Versions() == l.w.Versions();
    var relabelled := Relabelled(found, l.z.rv);
    SyncedIsFresh(a, relabelled, next, e);
    var b := UpdateStatefulSet(a, relabelled, next, e);
    UpgradeComplete(b, found.status, e);
  }

  lemma MiddleComplete(l: Local, e: Weather)
    requires Current(l) && Pending(l.z.status) && l.w.sts.Some? && Generable(l.z.spec) && MiddleStages(l, e).ok
    ensures Judged(l.w.cr.status, l.w.sts.value.status, e.now, MiddleStages(l, e).w.cr.status)
  {
    SyncComplete(l, l.w.sts.value, MakeStatefulSet(l.w.id, l.z.spec), e);
  }

  /** A complete pass over current data decides a pending upgrade from what the StatefulSet reports
      and the time: it ends it, records progress, lets it fail or lets it wait. */
  lemma CompletePass(w: World, e: Weather)
    requires WorldInv(w) && View(w, e) == w.cr && Pass(w, e).1 == Complete && w.sts.Some? && Pending(w.cr.status)
    ensures Judged(w.cr.status, w.sts.value.status, e.now, Pass(w, e).0.cr.status)
  {
    var l := Local(w, Prepared(w.cr, w.id.name, e.now), true);
    DefaultedIsGenerable(w.cr.spec, w.id.name);
    FinalizersKeep(l, e);
    MiddleComplete(ReconcileFinalizers(l, e), e);
  }

  // ----- The recovery of a failed upgrade -----

  lemma MiddleRecovers(l: Local, e: Weather)
    requires Current(l) && l.z.status.UpgradeFailed() && Generable(l.z.spec) && MiddleStages(l, e).ok
    requires Repaired(l.w.sts) && !e.Fails(GetSts)
    ensures !MiddleStages(l, e).w.cr.status.InUpgrade()
  {
    RecoveryKeeps(l, e);
    var s, now := l.z.status, e.Second();
    var mended := s.Recovered(now);
    WithEffect(s.(currentVersion := s.targetVersion), Error, IsFalse, "", "", now);
    ClearComplete(l.WithStatus(mended), e);
    LastStagesComplete(RecoverFailedUpgrade(l, e), e);
  }

  lemma MiddleWaits(l: Local, e: Weather)
    requires l.z.status.UpgradeFailed() && Generable(l.z.spec) && MiddleStages(l, e).ok
    requires e.Fails(GetSts) || !Repaired(l.w.sts)
    ensures MiddleStages(l, e).w == l.w
  {
    assert RecoverFailedUpgrade(l, e) == l;
  }

  /** A complete pass over the current version of a failed upgrade recovers it exactly when it could read
      the StatefulSet and found it repaired; otherwise the stored status is what it was. */
  lemma RecoversExactly(w: World, e: Weather)
    requires WorldInv(w) && View(w, e) == w.cr && Pass(w, e).1 == Complete && w.cr.status.UpgradeFailed()
    ensures var t := Pass(w, e).0.cr.status;
            if !e.Fails(GetSts) && Repaired(w.sts) then RecoveredFrom(w.cr.status, t) else t == w.cr.status
  {
    var l := Local(w, Prepared(w.cr, w.id.name, e.now), true);
    DefaultedIsGenerable(w.cr.spec, w.id.name);
    FinalizersKeep(l, e);
    FailedStateExit(w, e);
    var a := ReconcileFinalizers(l, e);
    if !e.Fails(GetSts) && Repaired(w.sts) {
      MiddleRecovers(a, e);
    } else {
      MiddleWaits(a, e);
    }
  }

  // ----- The start of an upgrade -----

  /** An upgrade that has just begun at this time. */
  ghost predicate Begun(s: Status, now: int) {
    Pending(s) && ProgressMessage(s) == "" && ProgressStamp(s) == At(Cut(now))
  }

  /** Upgrading is False, the cluster is ready, the revisions differ and another tag is asked for. */
  ghost predicate Due(s: Status, tag: string, found: StsStatus) {
    && HasStatus(s.conditions, Upgrading, IsFalse) && s.Ready()
    && found.currentRevision != found.updateRevision && tag != s.currentVersion
  }

  lemma JudgeStart(s: Status, tag: string, found: StsStatus, now: int)
    requires StatusInv(s) && !s.InUpgrade() && tag != ""
    ensures match Judge(s, tag, found, now)
            case Clear(t) => false
            case Remember(t) => !t.InUpgrade() && !t.UpgradeFailed() && !Due(s, tag, found)
            case Persist(t) =>
              !t.UpgradeFailed() && (t.InUpgrade() <==> Due(s, tag, found))
              && (t.InUpgrade() ==> Begun(t, now) && t.targetVersion == tag)
  {
    var second := Cut(now);
    var condition := Lookup(s.conditions, Upgrading);
    if condition.None? {
      WithEffect(s, Upgrading, IsFalse, "", "", second);
    } else if condition.value.status == IsFalse && s.Ready() && tag != s.currentVersion {
      StartedStatus(s, tag, second);
    }
  }

  lemma SettledStartsNothing(l: Local, e: Weather)
    requires !l.z.status.InUpgrade() && !l.w.cr.status.InUpgrade()
    ensures !UpdateStatus(l.WithStatus(SettledStatus(l.z, e.Second())), e.Fate(WriteStatus)).w.cr.status.InUpgrade()
  {
    var ready := if l.z.status.readyReplicas == l.z.spec.replicas then IsTrue else IsFalse;
    WithEffect(l.z.status, PodsReady, ready, "", "", e.Second());
  }

  lemma LastStagesStartNothing(l: Local, e: Weather)
    requires !l.z.status.InUpgrade() && !l.w.cr.status.InUpgrade()
    ensures !LastStages(l, e).w.cr.status.InUpgrade()
  {
    InitialisedEffect(l.z.status, e.Second());
    RootedEffect(l, e);
    SettledStartsNothing(Rooted(l, e), e);
  }

  lemma PersistStarts(l: Local, t: Status, e: Weather)
    requires !l.w.cr.status.InUpgrade() && !t.UpgradeFailed() && (t.InUpgrade() ==> Begun(t, e.now))
    requires LastStages(UpdateStatus(l.WithStatus(t), e.Fate(WriteProgress)), e).ok
    ensures var after := LastStages(UpdateStatus(l.WithStatus(t), e.Fate(WriteProgress)), e).w.cr.status;
            (after.InUpgrade() <==> t.InUpgrade())
            && (after.InUpgrade() ==> Begun(after, e.now) && after.targetVersion == t.targetVersion)
  {
    var r := UpdateStatus(l.WithStatus(t), e.Fate(WriteProgress));
    StatusStored(l.WithStatus(t), e.Fate(WriteProgress));
    if !t.InUpgrade() {
      LastStagesStartNothing(r, e);
    }
  }

  /** What a complete pass makes of a status without an upgrade. */
  ghost predicate StartsExactly(s: Status, tag: string, found: StsStatus, now: int, t: Status) {
    (t.InUpgrade() <==> Due(s, tag, found)) && (t.InUpgrade() ==> Begun(t, now) && t.targetVersion == tag)
  }

  lemma UpgradeStarts(l: Local, found: StsStatus, e: Weather)
    requires LocalInv(l) && Fresh(l) && l.z.rv == l.w.cr.rv && !l.w.cr.status.InUpgrade()
    requires LastStages(UpgradeStatefulSet(l, found, e), e).ok
    ensures StartsExactly(l.w.cr.status, l.w.cr.spec.image.tag, found, e.now,
                          LastStages(UpgradeStatefulSet(l, found, e), e).w.cr.status)
  {
    JudgeStart(l.z.status, l.z.spec.image.tag, found, e.now);
    match Judge(l.z.status, l.z.spec.image.tag, found, e.now)
    case Remember(t) => LastStagesStartNothing(l.WithStatus(t), e);
    case Persist(t) => PersistStarts(l, t, e);
    case Clear(_) =>
  }

  lemma SyncStarts(l: Local, found: Sts, next: Sts, e: Weather)
    requires Current(l) && !l.w.cr.status.InUpgrade() && l.w.sts == Some(found)
    requires LastStages(SyncExisting(l, found, next, e), e).ok
    ensures StartsExactly(l.w.cr.status, l.w.cr.spec.image.tag, found.status, e.now,
                          LastStages(SyncExisting(l, found, next, e), e).w.cr.status)
  {
    var a := if next.spec.replicas != found.spec.replicas then PublishSize(l, next.spec.replicas, e) else l;
    assert a.w == l.w.(znodes := a.w.znodes) && a.z == l.z && a.w.Versions() == l.w.Versions();
    var relabelled := Relabelled(found, l.z.rv);
    SyncedIsFresh(a, relabelled, next, e);
    UpgradeStarts(UpdateStatefulSet(a, relabelled, next, e), found.status, e);
  }

  lemma MiddleStarts(l: Local, e: Weather)
    requires Current(l) && !l.w.cr.status.InUpgrade() && l.w.sts.Some? && Generable(l.z.spec) && MiddleStages(l, e).ok
    ensures StartsExactly(l.w.cr.status, l.w.cr.spec.image.tag, l.w.sts.value.status, e.now,
                          MiddleStages(l, e).w.cr.status)
  {
    SyncStarts(l, l.w.sts.value, MakeStatefulSet(l.w.id, l.z.spec), e);
  }

  /** A complete pass over current data starts an upgrade exactly when Upgrading is False, the cluster is
      ready, the revisions differ and the tag asked for is not the current version; the upgrade then
      begins with an empty progress message, stamped with the second of the pass. */
  lemma StartingPass(w: World, e: Weather)
    requires WorldInv(w) && View(w, e) == w.cr && Pass(w, e).1 == Complete && w.sts.Some? && !w.cr.status.InUpgrade()
    ensures StartsExactly(w.cr.status, w.cr.spec.image.tag, w.sts.value.status, e.now, Pass(w, e).0.cr.status)
  {
    var l := Local(w, Prepared(w.cr, w.id.name, e.now), true);
    DefaultedIsGenerable(w.cr.spec, w.id.name);
    FinalizersKeep(l, e);
    FinalizersKeepTag(l, e);
    MiddleStarts(ReconcileFinalizers(l, e), e);
  }

  /** What is stored of the spec by the finalizer stage is the spec in memory. */
  lemma FinalizersKeepTag(l: Local, e: Weather)
    requires l.z.spec.image.tag == l.w.cr.spec.image.tag
    ensures ReconcileFinalizers(l, e).w.cr.spec.image.tag == l.w.cr.spec.image.tag
  {
  }

  // ----- The upgrade as a clock sees it -----

  /** All the deadline depends on: no upgrade, one under way with its last recorded count and the
      second it was recorded in, or a failed one. */
  datatype Progress = Idle | Running(message: string, stamp: int) | Broken

  ghost function ProgressOf(s: Status): Progress {
    if s.UpgradeFailed() then Broken
    else if s.InUpgrade() then Running(ProgressMessage(s), ParseStamp(ProgressStamp(s)))
    else Idle
  }

  /** One complete pass at time `now`. */
  ghost predicate Ticks(p: Progress, found: StsStatus, now: int, q: Progress) {
    match p
    case Broken => true
    case Idle => q.Running? ==> q == Running("", Cut(now))
    case Running(message, stamp) =>
      if found.currentRevision == found.updateRevision then q.Idle?
      else if Itoa(found.updatedReplicas) != message then q == Running(Itoa(found.updatedReplicas), Cut(now))
      else if now > Nanos(stamp + 600) then q.Broken?
      else q == p
  }

  lemma PassTicks(w: World, e: Weather)
    requires WorldInv(w) && View(w, e) == w.cr && Pass(w, e).1 == Complete && w.sts.Some?
    ensures Ticks(ProgressOf(w.cr.status), w.sts.value.status, e.now, ProgressOf(Pass(w, e).0.cr.status))
  {
    PassKeeps(w, e);
    if Pending(w.cr.status) {
      CompletePass(w, e);
    } else if !w.cr.status.InUpgrade() {
      StartingPass(w, e);
    }
  }

  datatype Tick = Tick(now: int, found: StsStatus, progress: Progress)

  /** Complete passes in the order of time; `progress` is what each of them left stored. */
  ghost predicate Timeline(ts: seq<Tick>) {
    forall i, j | 0 <= i && j == i + 1 && j < |ts| ::
      ts[i].now <= ts[j].now && Ticks(ts[i].progress, ts[j].found, ts[j].now, ts[j].progress)
  }

  /** The first pass started an upgrade, which is under way after each of the passes up to `n`. */
  ghost predicate UnderWay(ts: seq<Tick>, n: nat) {
    && Timeline(ts) && n < |ts| && ts[0].progress == Running("", Cut(ts[0].now))
    && forall i | 0 <= i <= n :: ts[i].progress.Running?
  }

  /** The stamp always dates from the first pass since which every pass saw the same count. */
  lemma {:induction false} LastStamp(ts: seq<Tick>, n: nat) returns (f: nat)
    requires UnderWay(ts, n) && n >= 1
    ensures 1 <= f <= n && ts[n].progress == Running(Itoa(ts[n].found.updatedReplicas), Cut(ts[f].now))
    ensures forall k | f <= k <= n :: ts[k].found.updatedReplicas == ts[n].found.updatedReplicas
    ensures f == 1 || ts[f - 1].found.updatedReplicas != ts[n].found.updatedReplicas
    decreases n
  {
    assert Ticks(ts[n - 1].progress, ts[n].found, ts[n].now, ts[n].progress);
    f := n;
    if n > 1 {
      var g := LastStamp(ts, n - 1);
      if Itoa(ts[n].found.updatedReplicas) == Itoa(ts[n - 1].found.updatedReplicas) {
        ItoaInjective(ts[n].found.updatedReplicas, ts[n - 1].found.updatedReplicas);
        f := g;
      }
    }
  }

  lemma ScaleUp(x: int, y: int, c: int)
    requires x + 1 <= y && c >= 0
    ensures x * c + c <= y * c
  {
    assert (y - x - 1) * c >= 0;
  }

  ghost predicate AtMostApart(ts: seq<Tick>, period: int) {
    forall i, j | 0 <= i && j == i + 1 && j < |ts| :: ts[j].now <= ts[i].now + period
  }

  ghost predicate NeverFalls(ts: seq<Tick>) {
    forall i, j | 1 <= i && j == i + 1 && j < |ts| :: ts[i].found.updatedReplicas <= ts[j].found.updatedReplicas
  }

  /** The latest time at which the count may have risen for the u-th time. */
  ghost function Latest(start: int, period: int, u: int): int {
    start + period + u * (TEN_MINUTES + period)
  }

  lemma LatestRises(start: int, period: int, u: int, v: int)
    requires u + 1 <= v && period >= 0
    ensures Latest(start, period, u) + TEN_MINUTES + period <= Latest(start, period, v)
  {
    ScaleUp(u, v, TEN_MINUTES + period);
  }

  lemma {:induction false} RunningBound(ts: seq<Tick>, n: nat, period: int)
    requires UnderWay(ts, n) && n >= 1 && period >= 0 && AtMostApart(ts, period) && NeverFalls(ts)
    ensures var u := ts[n].found.updatedReplicas - ts[1].found.updatedReplicas;
            var latest := Latest(ts[0].now, period, u);
            && u >= 0 && ts[n].progress.message == Itoa(ts[n].found.updatedReplicas)
            && Nanos(ts[n].progress.stamp) <= latest && ts[n].now <= latest + TEN_MINUTES
    decreases n
  {
    assert Ticks(ts[n - 1].progress, ts[n].found, ts[n].now, ts[n].progress);
    assert ts[n].now <= ts[n - 1].now + period;
    if n > 1 {
      RunningBound(ts, n - 1, period);
      var u, v, base := ts[n - 1].found.updatedReplicas, ts[n].found.updatedReplicas, ts[1].found.updatedReplicas;
      if Itoa(u) == Itoa(v) {
        ItoaInjective(u, v);
      } else {
        LatestRises(ts[0].now, period, u - base, v - base);
      }
    }
  }

  /** Bounded resolution of a timeline: while the upgrade is under way, one more pass fits before the
      deadline. */
  lemma DeadlineNotReached(ts: seq<Tick>, n: nat, period: int, r: int)
    requires UnderWay(ts, n) && n >= 1 && period >= 0 && AtMostApart(ts, period) && NeverFalls(ts)
    requires forall i | 1 <= i < |ts| :: 0 <= ts[i].found.updatedReplicas <= r
    ensures ts[n].now <= ts[0].now + (r + 1) * (TEN_MINUTES + period)
  {
    RunningBound(ts, n, period);
    LatestRises(ts[0].now, period, ts[n].found.updatedReplicas - ts[1].found.updatedReplicas, r + 1);
  }

  // ----- Runs of complete passes -----

  /** Complete passes over current data, in the order of time, with the StatefulSet in place. Between
      them anything may happen that does not write the status: spec edits, StatefulSet reports, others. */
  ghost predicate Watched(ws: seq<World>, es: seq<Weather>) {
    && |ws| == |es|
    && (forall i | 0 <= i < |ws| :: CompletelyPassed(ws[i], es[i]))
    && (forall i, j | 0 <= i && j == i + 1 && j < |ws| ::
          ws[j].cr.status == After(ws[i], es[i]) && es[i].now <= es[j].now)
  }

  ghost predicate CompletelyPassed(w: World, e: Weather) {
    WorldInv(w) && w.sts.Some? && View(w, e) == w.cr && Pass(w, e).1 == Complete
  }

  ghost function After(w: World, e: Weather): Status {
    Pass(w, e).0.cr.status
  }

  ghost function TickOf(w: World, e: Weather): Tick {
    Tick(e.now, if w.sts.Some? then w.sts.value.status else EMPTY_STS_STATUS, ProgressOf(After(w, e)))
  }

  lemma TicksOf(ws: seq<World>, es: seq<Weather>) returns (ts: seq<Tick>)
    requires Watched(ws, es)
    ensures |ts| == |ws| && Timeline(ts)
    ensures forall i | 0 <= i < |ws| :: ts[i] == TickOf(ws[i], es[i])
  {
    ts := seq(|ws|, i requires 0 <= i < |ws| => TickOf(ws[i], es[i]));
    forall i, j | 0 <= i && j == i + 1 && j < |ts|
      ensures ts[i].now <= ts[j].now && Ticks(ts[i].progress, ts[j].found, ts[j].now, ts[j].progress)
    {
      assert CompletelyPassed(ws[j], es[j]);
      PassTicks(ws[j], es[j]);
    }
  }

  /** The first of the passes starts an upgrade, and it is pending after each of those up to `n`. */
  ghost predicate PendingThrough(ws: seq<World>, es: seq<Weather>, n: nat) {
    && Watched(ws, es) && n < |ws| && !ws[0].cr.status.InUpgrade()
    && forall i | 0 <= i <= n :: ProgressOf(After(ws[i], es[i])).Running?
  }

  lemma TicksUnderWay(ws: seq<World>, es: seq<Weather>, n: nat) returns (ts: seq<Tick>)
    requires PendingThrough(ws, es, n)
    ensures |ts| == |ws| && UnderWay(ts, n)
    ensures forall i | 0 <= i < |ws| :: ts[i] == TickOf(ws[i], es[i])
  {
    ts := TicksOf(ws, es);
    assert CompletelyPassed(ws[0], es[0]);
    StartingPass(ws[0], es[0]);
  }

  ghost function Updated(w: World): int {
    if w.sts.Some? then w.sts.value.status.updatedReplicas else 0
  }

  /** Sound and complete: the next pass declares the upgrade failed exactly when the StatefulSet is still
      between revisions, its count is the one seen before, and the time is past the stamp plus ten
      minutes, the stamp being the second of the pass that first saw this count: no earlier pass of the
      upgrade did just before it. So more than 599 seconds have really passed since then, with every pass
      seeing the same count. */
  lemma TimeoutExactly(ws: seq<World>, es: seq<Weather>, n: nat) returns (f: nat)
    requires PendingThrough(ws, es, n) && n >= 1 && n + 1 < |ws|
    ensures 1 <= f <= n && forall k | f <= k <= n :: Updated(ws[k]) == Updated(ws[n])
    ensures f == 1 || Updated(ws[f - 1]) != Updated(ws[n])
    ensures var found, now := ws[n + 1].sts, es[n + 1].now;
            && (ProgressOf(After(ws[n + 1], es[n + 1])).Broken? <==>
                  found.Some? && found.value.status.currentRevision != found.value.status.updateRevision
                  && Updated(ws[n + 1]) == Updated(ws[n]) && now > Nanos(Cut(es[f].now) + 600))
            && (ProgressOf(After(ws[n + 1], es[n + 1])).Broken? ==> now - es[f].now > Nanos(599))
  {
    var ts := TicksUnderWay(ws, es, n);
    f := LastStamp(ts, n);
    assert Ticks(ts[n].progress, ts[n + 1].found, ts[n + 1].now, ts[n + 1].progress);
    if Itoa(Updated(ws[n + 1])) == Itoa(Updated(ws[n])) {
      ItoaInjective(Updated(ws[n + 1]), Updated(ws[n]));
    }
    assert CompletelyPassed(ws[n], es[n]) && CompletelyPassed(ws[n + 1], es[n + 1]);
    if f > 1 {
      assert CompletelyPassed(ws[f - 1], es[f - 1]);
    }
  }

  /** Passes are at most `period` apart; from the second on, the number of updated replicas never falls
      and stays within 0..r. */
  ghost predicate Steps(ws: seq<World>, es: seq<Weather>, period: int, r: nat) {
    && period >= 0 && |ws| == |es|
    && (forall i, j | 0 <= i && j == i + 1 && j < |es| :: es[j].now <= es[i].now + period)
    && (forall i, j | 1 <= i && j == i + 1 && j < |ws| :: Updated(ws[i]) <= Updated(ws[j]))
    && (forall i | 1 <= i < |ws| :: 0 <= Updated(ws[i]) <= r)
  }

  /** The clock's view of such a run takes the same steps. */
  ghost predicate TickSteps(ts: seq<Tick>, period: int, r: nat) {
    && period >= 0 && AtMostApart(ts, period) && NeverFalls(ts)
    && forall i | 1 <= i < |ts| :: 0 <= ts[i].found.updatedReplicas <= r
  }

  lemma TicksStep(ws: seq<World>, es: seq<Weather>, n: nat, period: int, r: nat) returns (ts: seq<Tick>)
    requires PendingThrough(ws, es, n) && Steps(ws, es, period, r)
    ensures |ts| == |ws| && UnderWay(ts, n) && TickSteps(ts, period, r)
    ensures ts[n].now == es[n].now && ts[0].now == es[0].now
  {
    ts := TicksUnderWay(ws, es, n);
    forall i | 0 <= i < |ts|
      ensures ts[i].now == es[i].now && ts[i].found.updatedReplicas == Updated(ws[i])
    {
      assert CompletelyPassed(ws[i], es[i]);
    }
  }

  lemma TickBound(ts: seq<Tick>, n: nat, period: int, r: nat)
    requires UnderWay(ts, n) && TickSteps(ts, period, r)
    ensures ts[n].now <= ts[0].now + (r + 1) * (TEN_MINUTES + period)
  {
    if n >= 1 {
      DeadlineNotReached(ts, n, period, r);
    } else {
      ScaleUp(-1, r, TEN_MINUTES + period);
    }
  }

  /** While the upgrade is pending after a pass, the last moment of this bound is not past. */
  lemma PendingBound(ws: seq<World>, es: seq<Weather>, n: nat, period: int, r: nat)
    requires PendingThrough(ws, es, n) && Steps(ws, es, period, r)
    ensures es[n].now <= es[0].now + (r + 1) * (TEN_MINUTES + period)
  {
    var ts := TicksStep(ws, es, n, period, r);
    TickBound(ts, n, period, r);
  }

  /** The first pass up to `m` that leaves no upgrade pending, or `m + 1`. */
  lemma {:induction false} FirstResolved(ws: seq<World>, es: seq<Weather>, i: nat, m: nat) returns (k: nat)
    requires 1 <= i <= m + 1 && m < |ws| && PendingThrough(ws, es, i - 1)
    ensures i <= k <= m + 1 && PendingThrough(ws, es, k - 1)
    ensures k <= m ==> !ProgressOf(After(ws[k], es[k])).Running?
    decreases m + 1 - i
  {
    k := i;
    if i <= m && ProgressOf(After(ws[i], es[i])).Running? {
      k := FirstResolved(ws, es, i + 1, m);
    }
  }

  /** Every upgrade is resolved in bounded time: some pass made no later than
      period + (r + 1) * (600s + period) after its start leaves it completed or failed, provided that
      passes go on that long. */
  lemma UpgradeIsResolved(ws: seq<World>, es: seq<Weather>, m: nat, period: int, r: nat) returns (k: nat)
    requires PendingThrough(ws, es, 0) && Steps(ws, es, period, r)
    requires m < |ws| && es[m].now > es[0].now + (r + 1) * (TEN_MINUTES + period)
    ensures 1 <= k <= m && !ProgressOf(After(ws[k], es[k])).Running?
    ensures es[k].now <= es[0].now + period + (r + 1) * (TEN_MINUTES + period)
  {
    k := FirstResolved(ws, es, 1, m);
    PendingBound(ws, es, k - 1, period, r);
    assert k <= m ==> es[k].now <= es[k - 1].now + period;
  }
}
