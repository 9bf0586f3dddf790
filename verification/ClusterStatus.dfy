/** The status of a ZookeeperCluster and its condition list (api/v1beta1/status.go).

    `Status` is the status as a value, which is what the API server stores; the class
    `ZookeeperClusterStatus` is the struct whose methods edit the list in place. */
module ClusterStatus {
  import opened Options

  datatype ConditionType = PodsReady | Upgrading | Error

  datatype ConditionStatus = IsTrue | IsFalse | IsUnknown

  /** An RFC 3339 time stamp: the empty string, or an instant cut to whole seconds. */
  datatype Stamp = Never | At(seconds: int)

  predicate NotAfter(a: Stamp, b: Stamp) {
    a.Never? || (b.At? && a.seconds <= b.seconds)
  }

  datatype ClusterCondition = ClusterCondition(
    kind: ConditionType, status: ConditionStatus, reason: string, message: string,
    lastUpdateTime: Stamp, lastTransitionTime: Stamp)

  const UPDATING_REASON := "Updating Zookeeper"
  const UPGRADE_FAILED := "UpgradeFailed"

  function NewCondition(kind: ConditionType, status: ConditionStatus, reason: string, message: string)
      : ClusterCondition
  {
    ClusterCondition(kind, status, reason, message, Never, Never)
  }

  /** The position of the first condition of a type, -1 if there is none. */
  function Position(cs: seq<ClusterCondition>, kind: ConditionType): (i: int)
    ensures -1 <= i < |cs|
    ensures i >= 0 ==> cs[i].kind == kind && forall j | 0 <= j < i :: cs[j].kind != kind
    ensures i == -1 ==> forall j | 0 <= j < |cs| :: cs[j].kind != kind
  {
    if cs == [] then -1
    else if cs[0].kind == kind then 0
    else
      var i := Position(cs[1..], kind);
      if i == -1 then -1 else i + 1
  }

  /** `GetClusterCondition`: the caller gets a copy, never a reference into the list. */
  function Lookup(cs: seq<ClusterCondition>, kind: ConditionType): Option<ClusterCondition> {
    var i := Position(cs, kind);
    if i == -1 then None else Some(cs[i])
  }

  /** How an existing condition absorbs a new one at second `now`. */
  function Absorb(e: ClusterCondition, c: ClusterCondition, now: int): ClusterCondition {
    var moved := if e.status != c.status
                 then e.(status := c.status, lastTransitionTime := At(now), lastUpdateTime := At(now)) else e;
    if moved.reason != c.reason || moved.message != c.message
    then moved.(reason := c.reason, message := c.message, lastUpdateTime := At(now)) else moved
  }

  /** `setClusterCondition`: a new type is appended without stamps, a known one is edited in place. */
  function SetCondition(cs: seq<ClusterCondition>, c: ClusterCondition, now: int): seq<ClusterCondition> {
    var i := Position(cs, c.kind);
    if i == -1 then cs + [c] else cs[i := Absorb(cs[i], c, now)]
  }

  const ALL_KINDS: seq<ConditionType> := [PodsReady, Upgrading, Error]

  function InitKinds(cs: seq<ClusterCondition>, kinds: seq<ConditionType>, now: int): seq<ClusterCondition>
    decreases |kinds|
  {
    if kinds == [] then cs
    else
      var c := NewCondition(kinds[0], IsFalse, "", "");
      InitKinds(if Lookup(cs, kinds[0]).None? then SetCondition(cs, c, now) else cs, kinds[1..], now)
  }

  function InitConditions(cs: seq<ClusterCondition>, now: int): seq<ClusterCondition> {
    InitKinds(cs, ALL_KINDS, now)
  }

  function UpdateProgressConditions(cs: seq<ClusterCondition>, reason: string, message: string, now: int)
      : seq<ClusterCondition>
  {
    if HasStatus(cs, Upgrading, IsTrue)
    then SetCondition(cs, NewCondition(Upgrading, IsTrue, reason, message), now) else cs
  }

  predicate HasStatus(cs: seq<ClusterCondition>, kind: ConditionType, status: ConditionStatus) {
    var c := Lookup(cs, kind);
    c.Some? && c.value.status == status
  }

  /** The stored status. Member lists and service end points are not part of this model. */
  datatype Status = Status(
    replicas: int, readyReplicas: int, metaRootCreated: bool,
    currentVersion: string, targetVersion: string, conditions: seq<ClusterCondition>)
  {
    predicate InUpgrade() { HasStatus(conditions, Upgrading, IsTrue) }

    predicate Ready() { HasStatus(conditions, PodsReady, IsTrue) }

    predicate UpgradeFailed() {
      var c := Lookup(conditions, Error);
      c.Some? && c.value.status == IsTrue && c.value.reason == UPGRADE_FAILED
    }

    /** `GetLastCondition`: only the upgrade has progress to look at. */
    function LastCondition(): Option<ClusterCondition> {
      if InUpgrade() then Lookup(conditions, Upgrading) else None
    }

    function With(kind: ConditionType, status: ConditionStatus, reason: string, message: string, now: int): Status {
      this.(conditions := SetCondition(conditions, NewCondition(kind, status, reason, message), now))
    }

    function Initialised(now: int): Status {
      this.(conditions := InitConditions(conditions, now))
    }

    /** A failed upgrade taken as done. */
    function Recovered(now: int): Status {
      this.(currentVersion := targetVersion).With(Error, IsFalse, "", "", now)
    }

    function Progressed(reason: string, message: string, now: int): Status {
      this.(conditions := UpdateProgressConditions(conditions, reason, message, now))
    }
  }

  const EMPTY_STATUS := Status(0, 0, false, "", "", [])

  /** The status of the ZookeeperCluster object a reconcile pass holds in memory. */
  class ZookeeperClusterStatus {
    var replicas: int
    var readyReplicas: int
    var metaRootCreated: bool
    var currentVersion: string
    var targetVersion: string
    var conditions: seq<ClusterCondition>

    function View(): Status
      reads this
    {
      Status(replicas, readyReplicas, metaRootCreated, currentVersion, targetVersion, conditions)
    }

    constructor (s: Status)
      ensures View() == s
    {
      replicas, readyReplicas, metaRootCreated := s.replicas, s.readyReplicas, s.metaRootCreated;
      currentVersion, targetVersion, conditions := s.currentVersion, s.targetVersion, s.conditions;
    }

    /** `z.Status = *status`. */
    method Assign(s: Status)
      modifies this
      ensures View() == s
    {
      replicas, readyReplicas, metaRootCreated := s.replicas, s.readyReplicas, s.metaRootCreated;
      currentVersion, targetVersion, conditions := s.currentVersion, s.targetVersion, s.conditions;
    }

    method GetClusterCondition(kind: ConditionType) returns (position: int, found: Option<ClusterCondition>)
      ensures position == Position(conditions, kind) && found == Lookup(conditions, kind)
    {
      for i := 0 to |conditions|
        invariant forall j | 0 <= j < i :: conditions[j].kind != kind
      {
        if conditions[i].kind == kind {
          return i, Some(conditions[i]);
        }
      }
      return -1, None;
    }

    method SetClusterCondition(c: ClusterCondition, now: int)
      modifies this`conditions
      ensures conditions == SetCondition(old(conditions), c, now)
    {
      var position, found := GetClusterCondition(c.kind);
      if found.None? {
        conditions := conditions + [c];
        return;
      }
      var existing := found.value;
      if existing.status != c.status {
        existing := existing.(status := c.status);
        existing := existing.(lastTransitionTime := At(now));
        existing := existing.(lastUpdateTime := At(now));
      }
      if existing.reason != c.reason || existing.message != c.message {
        existing := existing.(reason := c.reason);
        existing := existing.(message := c.message);
        existing := existing.(lastUpdateTime := At(now));
      }
      conditions := conditions[position := existing];
    }

    method Init(now: int)
      modifies this`conditions
      ensures conditions == InitConditions(old(conditions), now)
    {
      for i := 0 to |ALL_KINDS|
        invariant InitKinds(conditions, ALL_KINDS[i..], now) == InitConditions(old(conditions), now)
      {
        assert ALL_KINDS[i..][1..] == ALL_KINDS[i + 1..];
        var _, condition := GetClusterCondition(ALL_KINDS[i]);
        if condition.None? {
          SetClusterCondition(NewCondition(ALL_KINDS[i], IsFalse, "", ""), now);
        }
      }
    }

    method SetPodsReadyCondition(status: ConditionStatus, now: int)
      modifies this`conditions
      ensures View() == old(View()).With(PodsReady, status, "", "", now)
    {
      SetClusterCondition(NewCondition(PodsReady, status, "", ""), now);
    }

    method SetUpgradingConditionTrue(reason: string, message: string, now: int)
      modifies this`conditions
      ensures View() == old(View()).With(Upgrading, IsTrue, reason, message, now)
    {
      SetClusterCondition(NewCondition(Upgrading, IsTrue, reason, message), now);
    }

    method SetUpgradingConditionFalse(now: int)
      modifies this`conditions
      ensures View() == old(View()).With(Upgrading, IsFalse, "", "", now)
    {
      SetClusterCondition(NewCondition(Upgrading, IsFalse, "", ""), now);
    }

    method SetErrorConditionTrue(reason: string, message: string, now: int)
      modifies this`conditions
      ensures View() == old(View()).With(Error, IsTrue, reason, message, now)
    {
      SetClusterCondition(NewCondition(Error, IsTrue, reason, message), now);
    }

    method SetErrorConditionFalse(now: int)
      modifies this`conditions
      ensures View() == old(View()).With(Error, IsFalse, "", "", now)
    {
      SetClusterCondition(NewCondition(Error, IsFalse, "", ""), now);
    }

    method UpdateProgress(reason: string, updatedReplicas: string, now: int)
      modifies this`conditions
      ensures View() == old(View()).Progressed(reason, updatedReplicas, now)
    {
      if View().InUpgrade() {
        SetUpgradingConditionTrue(reason, updatedReplicas, now);
      }
    }
  }
}

/** What the condition list means: a map from types to conditions, with ordered stamps. */
module ConditionProperties {
  import opened Options
  import opened ClusterStatus

  ghost predicate Unique(cs: seq<ClusterCondition>) {
    forall i, j | 0 <= i < j < |cs| :: cs[i].kind != cs[j].kind
  }

  /** Setting a condition: it now holds the new status, reason and message; its transition stamp
      moves exactly when an existing status changed, its update stamp exactly when anything did;
      every other type and every position keep what they had. */
  lemma SetEffect(cs: seq<ClusterCondition>, c: ClusterCondition, now: int)
    ensures var after := SetCondition(cs, c, now);
            && (forall k | k != c.kind :: Lookup(after, k) == Lookup(cs, k))
            && (Unique(cs) ==> Unique(after))
            && |cs| <= |after|
            && (forall i | 0 <= i < |cs| :: after[i].kind == cs[i].kind)
            && (forall i | 0 <= i < |cs| && cs[i].kind != c.kind :: after[i] == cs[i])
            && Lookup(after, c.kind).Some?
            && var e, r := Lookup(cs, c.kind), Lookup(after, c.kind).value;
               && r.kind == c.kind && r.status == c.status && r.reason == c.reason && r.message == c.message
               && (e.None? ==> r == c)
               && (e.Some? ==>
                     && var o := e.value;
                     && r.lastTransitionTime == (if o.status == c.status then o.lastTransitionTime else At(now))
                     && r.lastUpdateTime == (if o.status == c.status && o.reason == c.reason && o.message == c.message
                                             then o.lastUpdateTime else At(now)))
  {
    var after := SetCondition(cs, c, now);
    assert forall i | 0 <= i < |cs| :: after[i].kind == cs[i].kind;
    forall k | k != c.kind
      ensures Lookup(after, k) == Lookup(cs, k)
    {
      var p, q := Position(after, k), Position(cs, k);
      assert 0 <= p < |cs| ==> cs[p].kind == k;
      assert 0 <= q ==> after[q].kind == k;
      assert p == q;
    }
    var p, q := Position(after, c.kind), Position(cs, c.kind);
    if q == -1 {
      assert after[|cs|].kind == c.kind;
    } else {
      assert after[q].kind == c.kind;
      assert p == q;
    }
  }

  datatype Op = Set(c: ClusterCondition) | Init | Progress(reason: string, message: string)

  function Apply(cs: seq<ClusterCondition>, op: Op, now: int): seq<ClusterCondition> {
    match op
    case Set(c) => SetCondition(cs, c, now)
    case Init => InitConditions(cs, now)
    case Progress(reason, message) => UpdateProgressConditions(cs, reason, message, now)
  }

  /** A run of calls, each at its own second. */
  function Run(cs: seq<ClusterCondition>, ops: seq<(Op, int)>): seq<ClusterCondition>
    decreases |ops|
  {
    if ops == [] then cs else Run(Apply(cs, ops[0].0, ops[0].1), ops[1..])
  }

  /** The reference semantics: a map from type to condition. */
  type ConditionMap = map<ConditionType, ClusterCondition>

  ghost function AsMap(cs: seq<ClusterCondition>): ConditionMap {
    map k: ConditionType | Lookup(cs, k).Some? :: Lookup(cs, k).value
  }

  ghost function PutInMap(m: ConditionMap, c: ClusterCondition, now: int): ConditionMap {
    m[c.kind := if c.kind in m then Absorb(m[c.kind], c, now) else c]
  }

  ghost function ApplyToMap(m: ConditionMap, op: Op, now: int): ConditionMap {
    match op
    case Set(c) => PutInMap(m, c, now)
    case Init =>
      map k: ConditionType | k in ALL_KINDS :: if k in m then m[k] else NewCondition(k, IsFalse, "", "")
    case Progress(reason, message) =>
      if Upgrading in m && m[Upgrading].status == IsTrue
      then PutInMap(m, NewCondition(Upgrading, IsTrue, reason, message), now) else m
  }

  ghost function RunOnMap(m: ConditionMap, ops: seq<(Op, int)>): ConditionMap
    decreases |ops|
  {
    if ops == [] then m else RunOnMap(ApplyToMap(m, ops[0].0, ops[0].1), ops[1..])
  }

  /** The order of types is append-only. */
  ghost predicate SameOrder(before: seq<ClusterCondition>, after: seq<ClusterCondition>) {
    |before| <= |after| && forall i | 0 <= i < |before| :: before[i].kind == after[i].kind
  }

  lemma {:induction false} SetRefinesMap(cs: seq<ClusterCondition>, c: ClusterCondition, now: int)
    ensures AsMap(SetCondition(cs, c, now)) == PutInMap(AsMap(cs), c, now)
  {
    SetEffect(cs, c, now);
    SetLookup(cs, c, now);
    PutLookup(cs, SetCondition(cs, c, now), c, now);
  }

  lemma PutLookup(before: seq<ClusterCondition>, after: seq<ClusterCondition>, c: ClusterCondition, now: int)
    requires forall k | k != c.kind :: Lookup(after, k) == Lookup(before, k)
    requires Lookup(after, c.kind)
             == Some(if Lookup(before, c.kind).Some? then Absorb(Lookup(before, c.kind).value, c, now) else c)
    ensures AsMap(after) == PutInMap(AsMap(before), c, now)
  {
    var m, n := AsMap(after), PutInMap(AsMap(before), c, now);
    forall k: ConditionType
      ensures (k in m <==> k in n) && (k in m ==> m[k] == n[k])
    {
      assert k in AsMap(before) <==> Lookup(before, k).Some?;
    }
  }

  lemma SetLookup(cs: seq<ClusterCondition>, c: ClusterCondition, now: int)
    ensures Lookup(SetCondition(cs, c, now), c.kind)
            == Some(if Lookup(cs, c.kind).Some? then Absorb(Lookup(cs, c.kind).value, c, now) else c)
  {
    SetEffect(cs, c, now);
    var after, q := SetCondition(cs, c, now), Position(cs, c.kind);
    var i := if q == -1 then |cs| else q;
    assert after[i].kind == c.kind && forall j | 0 <= j < i :: after[j].kind == cs[j].kind;
    assert Position(after, c.kind) == i;
  }

  lemma {:induction false} InitEffect(cs: seq<ClusterCondition>, kinds: seq<ConditionType>, now: int)
    ensures var after := InitKinds(cs, kinds, now);
            && (Unique(cs) ==> Unique(after)) && SameOrder(cs, after)
            && forall k :: Lookup(after, k) ==
                 if Lookup(cs, k).None? && k in kinds then Some(NewCondition(k, IsFalse, "", "")) else Lookup(cs, k)
    decreases |kinds|
  {
    if kinds != [] {
      var c := NewCondition(kinds[0], IsFalse, "", "");
      var next := if Lookup(cs, kinds[0]).None? then SetCondition(cs, c, now) else cs;
      SetEffect(cs, c, now);
      InitEffect(next, kinds[1..], now);
    }
  }

  lemma AllKinds()
    ensures forall k :: k in ALL_KINDS
  {
    forall k
      ensures k in ALL_KINDS
    {
      match k
      case PodsReady => assert ALL_KINDS[0] == k;
      case Upgrading => assert ALL_KINDS[1] == k;
      case Error => assert ALL_KINDS[2] == k;
    }
  }

  lemma {:induction false} InitRefinesMap(cs: seq<ClusterCondition>, now: int)
    ensures AsMap(InitConditions(cs, now)) == ApplyToMap(AsMap(cs), Init, now)
    ensures Unique(cs) ==> Unique(InitConditions(cs, now))
    ensures SameOrder(cs, InitConditions(cs, now))
  {
    InitEffect(cs, ALL_KINDS, now);
    AllKinds();
    InitLookup(cs, InitConditions(cs, now), now);
  }

  lemma InitLookup(before: seq<ClusterCondition>, after: seq<ClusterCondition>, now: int)
    requires forall k :: k in ALL_KINDS
    requires forall k :: Lookup(after, k) ==
               if Lookup(before, k).None? then Some(NewCondition(k, IsFalse, "", "")) else Lookup(before, k)
    ensures AsMap(after) == ApplyToMap(AsMap(before), Init, now)
  {
    var m, n := AsMap(after), ApplyToMap(AsMap(before), Init, now);
    forall k
      ensures k in m && k in n && m[k] == n[k]
    {
      assert k in AsMap(before) <==> Lookup(before, k).Some?;
    }
  }

  lemma {:induction false} ApplyRefinesMap(cs: seq<ClusterCondition>, op: Op, now: int)
    ensures AsMap(Apply(cs, op, now)) == ApplyToMap(AsMap(cs), op, now)
    ensures Unique(cs) ==> Unique(Apply(cs, op, now))
    ensures SameOrder(cs, Apply(cs, op, now))
  {
    match op
    case Set(c) =>
      SetRefinesMap(cs, c, now);
      SetEffect(cs, c, now);
    case Init =>
      InitRefinesMap(cs, now);
    case Progress(reason, message) =>
      var c := NewCondition(Upgrading, IsTrue, reason, message);
      SetRefinesMap(cs, c, now);
      SetEffect(cs, c, now);
  }

  /** Over any sequence of Set*, Init and UpdateProgress calls the list behaves as a map from type
      to condition, never holds a type twice, and never reorders the types it holds. */
  lemma {:induction false} ListRefinesMap(cs: seq<ClusterCondition>, ops: seq<(Op, int)>)
    requires Unique(cs)
    ensures AsMap(Run(cs, ops)) == RunOnMap(AsMap(cs), ops)
    ensures Unique(Run(cs, ops)) && SameOrder(cs, Run(cs, ops))
    decreases |ops|
  {
    if ops != [] {
      ApplyRefinesMap(cs, ops[0].0, ops[0].1);
      ListRefinesMap(Apply(cs, ops[0].0, ops[0].1), ops[1..]);
    }
  }

  /** No stamp lies in the future, and no condition was updated before it last changed status. */
  ghost predicate StampsOrdered(cs: seq<ClusterCondition>, now: int) {
    forall i | 0 <= i < |cs| ::
      NotAfter(cs[i].lastTransitionTime, cs[i].lastUpdateTime) && NotAfter(cs[i].lastUpdateTime, At(now))
  }

  ghost predicate Monotone(now: int, ops: seq<(Op, int)>) {
    && (forall i | 0 <= i < |ops| :: now <= ops[i].1)
    && (forall i, j | 0 <= i < j < |ops| :: ops[i].1 <= ops[j].1)
  }

  /** The stamps a caller passes in are the empty ones `newClusterCondition` makes. */
  ghost predicate FromNew(op: Op) {
    op.Set? ==> op.c.lastUpdateTime.Never? && op.c.lastTransitionTime.Never?
  }

  lemma {:induction false} InitKeepsStamps(cs: seq<ClusterCondition>, kinds: seq<ConditionType>, now: int)
    requires StampsOrdered(cs, now)
    ensures StampsOrdered(InitKinds(cs, kinds, now), now)
    decreases |kinds|
  {
    if kinds != [] {
      var c := NewCondition(kinds[0], IsFalse, "", "");
      InitKeepsStamps(if Lookup(cs, kinds[0]).None? then SetCondition(cs, c, now) else cs, kinds[1..], now);
    }
  }

  lemma ApplyKeepsStamps(cs: seq<ClusterCondition>, now: int, op: Op, t: int)
    requires StampsOrdered(cs, now) && now <= t && FromNew(op)
    ensures StampsOrdered(Apply(cs, op, t), t)
  {
    assert StampsOrdered(cs, t);
    if op.Init? {
      InitKeepsStamps(cs, ALL_KINDS, t);
    }
  }

  /** Under a clock that does not go back, stamps stay ordered over any sequence of calls. */
  lemma {:induction false} StampsStayOrdered(cs: seq<ClusterCondition>, now: int, ops: seq<(Op, int)>)
    requires StampsOrdered(cs, now) && Monotone(now, ops)
    requires forall i | 0 <= i < |ops| :: FromNew(ops[i].0)
    ensures StampsOrdered(Run(cs, ops), if ops == [] then now else ops[|ops| - 1].1)
    decreases |ops|
  {
    if ops != [] {
      var op, t := ops[0].0, ops[0].1;
      assert FromNew(op);
      ApplyKeepsStamps(cs, now, op, t);
      StampsStayOrdered(Apply(cs, op, t), t, ops[1..]);
    }
  }
}
