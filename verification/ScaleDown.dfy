/** A scale-down from end to end: the pass that resizes the StatefulSet, and then passes, edits and pods
    in any order, every stop reading the size znode as it then is. */
module ScaleDown {
  import opened Options
  import opened Text
  import opened Calls
  import opened ClusterSpec
  import opened ClusterStatus
  import opened Generators
  import opened Reconcile
  import opened UpgradeInvariants
  import opened OwnerLabel
  import opened Scaling
  import opened Freeze
  import opened Requeue
  import R = Runs
  import M = Membership

  // ----- The size stays -----

  /** The replicas a spec asks for once defaulted. */
  function Desired(s: Spec): int { if s.replicas == 0 then 3 else s.replicas }

  /** Every stored version from the given one on asks for this size. */
  ghost predicate SizedFrom(w: World, named: CR, size: int) {
    forall v | v in w.Versions() && named.rv <= v.rv :: Desired(v.spec) == size
  }

  /** The StatefulSet has the size, and so has every version from the one its label names on. */
  ghost predicate Sized(w: World, size: int) {
    && w.sts.Some? && w.sts.value.spec.replicas == size
    && exists named :: MadeFrom(w, w.sts.value, named) && SizedFrom(w, named, size)
  }

  /** A pass under way that would store nothing of another size. */
  ghost predicate SizedLocal(l: Local, size: int) {
    Sized(l.w, size) && (l.z.rv == l.w.cr.rv ==> Desired(l.z.spec) == size)
  }

  /** Every znode there is keeps its data. */
  ghost predicate ZnodesStay(w: World, r: World) {
    forall p | p in w.znodes :: p in r.znodes && r.znodes[p] == w.znodes[p]
  }

  lemma CurrentIsSized(w: World, size: int)
    requires WorldInv(w) && Sized(w, size)
    ensures Desired(w.cr.spec) == size
  {
    var named :| MadeFrom(w, w.sts.value, named) && SizedFrom(w, named, size);
    StoredIsOlder(w, named);
    assert w.Versions()[|w.older|] == w.cr;
  }

  lemma WriteSizes(l: Local, c: CR, fate: Fate, size: int)
    requires WorldInv(l.w) && SizedLocal(l, size) && (!Conflicts(l) ==> Desired(c.spec) == size)
    ensures SizedLocal(Write(l, c, fate), size)
  {
    var w, r := l.w, Write(l, c, fate).w;
    WriteGrows(l, c, fate);
    if r != w {
      assert r.Versions() == w.Versions() + [r.cr];
      var named :| MadeFrom(w, w.sts.value, named) && SizedFrom(w, named, size);
      StillStored(w, r, named);
      assert MadeFrom(r, r.sts.value, named) && SizedFrom(r, named, size);
    }
  }

  lemma UpdateSizes(l: Local, fate: Fate, size: int)
    requires WorldInv(l.w) && SizedLocal(l, size)
    ensures SizedLocal(UpdateObject(l, fate), size)
  {
    WriteSizes(l, l.w.cr.(spec := l.z.spec, finalizers := l.z.finalizers), fate, size);
  }

  lemma StatusSizes(l: Local, fate: Fate, size: int)
    requires WorldInv(l.w) && SizedLocal(l, size)
    ensures SizedLocal(UpdateStatus(l, fate), size)
  {
    CurrentIsSized(l.w, size);
    WriteSizes(l, l.w.cr.(status := l.z.status), fate, size);
  }

  lemma SameSizes(l: Local, r: Local, size: int)
    requires SizedLocal(l, size) && r.z.rv == l.z.rv && r.z.spec == l.z.spec
    requires r.w.cr == l.w.cr && r.w.older == l.w.older && r.w.id == l.w.id && r.w.sts == l.w.sts
    ensures SizedLocal(r, size)
  {
    assert r.w.Versions() == l.w.Versions();
    var named :| MadeFrom(l.w, l.w.sts.value, named) && SizedFrom(l.w, named, size);
    assert MadeFrom(r.w, r.w.sts.value, named) && SizedFrom(r.w, named, size);
  }

  lemma CleanupSizes(l: Local, e: Weather, size: int)
    requires SizedLocal(l, size)
    ensures SizedLocal(CleanupOrphanPVCs(l, e), size)
  {
    SameSizes(l, CleanupOrphanPVCs(l, e), size);
  }

  lemma KeepFinalizerSizes(l: Local, e: Weather, size: int)
    requires WorldInv(l.w) && SizedLocal(l, size)
    ensures SizedLocal(KeepFinalizer(l, e), size)
  {
    var added := l.(z := l.z.(finalizers := l.z.finalizers + [Claims.ZK_FINALIZER]));
    AddedSizes(l, added, e.Fate(UpdateFinalizers), size);
    CleanupSizes(UpdateObject(added, e.Fate(UpdateFinalizers)), e, size);
    CleanupSizes(l, e, size);
  }

  lemma AddedSizes(l: Local, added: Local, fate: Fate, size: int)
    requires WorldInv(l.w) && SizedLocal(l, size) && added.w == l.w && added.z.rv == l.z.rv && added.z.spec == l.z.spec
    ensures SizedLocal(UpdateObject(added, fate), size)
  {
    UpdateSizes(added, fate, size);
  }

  lemma DropFinalizerSizes(l: Local, e: Weather, size: int)
    requires WorldInv(l.w) && SizedLocal(l, size)
    ensures SizedLocal(DropFinalizer(l, e), size)
  {
    var a := CleanUpAllPVCs(l, e);
    assert a.w.Versions() == l.w.Versions();
    SameSizes(l, a, size);
    var finalizers := Claims.Removed(a.z.finalizers, Claims.ZK_FINALIZER);
    UpdateSizes(a.(z := a.z.(finalizers := finalizers)), e.Fate(UpdateFinalizers), size);
  }

  lemma FinalizersSize(l: Local, e: Weather, size: int)
    requires WorldInv(l.w) && SizedLocal(l, size)
    ensures SizedLocal(ReconcileFinalizers(l, e), size)
  {
    KeepFinalizerSizes(l, e, size);
    DropFinalizerSizes(l, e, size);
  }

  lemma ClearSizes(l: Local, e: Weather, size: int)
    requires WorldInv(l.w) && SizedLocal(l, size)
    ensures SizedLocal(ClearUpgradeStatus(l, e), size)
  {
    UpdateSizes(l.WithStatus(l.z.status.With(Upgrading, IsFalse, "", "", e.Second()).(targetVersion := "")),
                e.Fate(UpdateCleared), size);
  }

  lemma UpgradeSizes(l: Local, found: StsStatus, e: Weather, size: int)
    requires WorldInv(l.w) && SizedLocal(l, size)
    ensures SizedLocal(UpgradeStatefulSet(l, found, e), size)
  {
    var v := Judge(l.z.status, l.z.spec.image.tag, found, e.now);
    MemorySizes(l, v.s, size);
    match v {
      case Remember(_) =>
      case Persist(s) => StatusSizes(l.WithStatus(s), e.Fate(WriteProgress), size);
      case Clear(s) => ClearSizes(l.WithStatus(s), e, size);
    }
  }

  lemma MemorySizes(l: Local, s: Status, size: int)
    requires SizedLocal(l, size)
    ensures SizedLocal(l.WithStatus(s), size)
  {
  }

  lemma RecoverySizes(l: Local, e: Weather, size: int)
    requires WorldInv(l.w) && SizedLocal(l, size)
    ensures SizedLocal(RecoverFailedUpgrade(l, e), size)
  {
    var s := l.z.status;
    ClearSizes(l.WithStatus(s.Recovered(e.Second())), e, size);
  }

  lemma RecoveryKeepsZnodes(l: Local, e: Weather)
    ensures ZnodesStay(l.w, RecoverFailedUpgrade(l, e).w)
  {
    var s := l.z.status;
    ClearKeepsObjects(l.WithStatus(s.Recovered(e.Second())), e);
  }

  lemma LastStagesSize(l: Local, e: Weather, size: int)
    requires WorldInv(l.w) && SizedLocal(l, size)
    ensures Sized(LastStages(l, e).w, size)
  {
    RootedEffect(l, e);
    var a := Rooted(l, e);
    SameSizes(l, a, size);
    StatusSizes(a.WithStatus(SettledStatus(a.z, e.Second())), e.Fate(WriteStatus), size);
  }

  lemma UpdateTouches(l: Local, found: Sts, next: Sts, e: Weather)
    ensures var b := UpdateStatefulSet(l, found, next, e);
            && b.w == l.w.(sts := b.w.sts, revision := b.w.revision) && b.w.Versions() == l.w.Versions()
            && b.z.spec == l.z.spec && b.z.rv == l.z.rv
  {
  }

  lemma MadeSizes(l: Local, found: Sts, v: CR, named: CR, e: Weather, size: int)
    requires WorldInv(l.w) && SizedLocal(l, size) && ReadFrom(l, v) && Generable(l.z.spec) && l.w.sts == Some(found)
    requires OwnerRv(found) == Some(Itoa(named.rv)) && named.rv <= v.rv <= MAX_INT64 && SizedFrom(l.w, named, size)
    ensures var b := UpdateStatefulSet(l, Relabelled(found, l.z.rv), MakeStatefulSet(l.w.id, l.z.spec), e);
            SizedLocal(b, size) && b.w.cr == l.w.cr && b.w.Versions() == l.w.Versions() && b.w.znodes == l.w.znodes
            && l.z.spec.replicas == size
  {
    UpdateMakes(l, found, v, named, e);
    UpdateTouches(l, Relabelled(found, l.z.rv), MakeStatefulSet(l.w.id, l.z.spec), e);
    var b := UpdateStatefulSet(l, Relabelled(found, l.z.rv), MakeStatefulSet(l.w.id, l.z.spec), e);
    assert l.z.spec.replicas == Desired(v.spec) == size;
    if b.w.sts == l.w.sts {
      SameSizes(l, b, size);
    } else {
      assert MadeFrom(b.w, b.w.sts.value, v) && SizedFrom(b.w, v, size);
    }
  }

  /** From the write of the StatefulSet on, when the version read is no older than the one named. */
  lemma UpdatedSizes(l: Local, found: Sts, v: CR, named: CR, e: Weather, size: int)
    requires WorldInv(l.w) && SizedLocal(l, size) && ReadFrom(l, v) && Generable(l.z.spec) && l.w.sts == Some(found)
    requires OwnerRv(found) == Some(Itoa(named.rv)) && named.rv <= v.rv <= MAX_INT64 && SizedFrom(l.w, named, size)
    ensures var b := UpdateStatefulSet(l, Relabelled(found, l.z.rv), MakeStatefulSet(l.w.id, l.z.spec), e);
            var r := if b.ok then UpgradeStatefulSet(b, found.status, e) else b;
            SizedLocal(r, size) && ZnodesStay(l.w, r.w) && l.z.spec.replicas == size
  {
    MadeSizes(l, found, v, named, e, size);
    var b := UpdateStatefulSet(l, Relabelled(found, l.z.rv), MakeStatefulSet(l.w.id, l.z.spec), e);
    HistoryStays(l.w, b.w);
    UpgradeSizes(b, found.status, e, size);
    UpgradeKeepsObjects(b, found.status, e);
  }

  lemma SyncSizesFrom(l: Local, found: Sts, v: CR, named: CR, e: Weather, size: int)
    requires WorldInv(l.w) && SizedLocal(l, size) && ReadFrom(l, v) && Generable(l.z.spec) && l.w.sts == Some(found)
    requires OwnerRv(found) == Some(Itoa(named.rv)) && SizedFrom(l.w, named, size)
    requires v.rv <= MAX_INT64 && named.rv <= MAX_INT64
    ensures var r := SyncExisting(l, found, MakeStatefulSet(l.w.id, l.z.spec), e);
            ZnodesStay(l.w, r.w) && SizedLocal(r, size)
  {
    CompareNumeric(v.rv, named.rv);
    if named.rv <= v.rv {
      UpdatedSizes(l, found, v, named, e, size);
    }
  }

  lemma SyncSizes(l: Local, v: CR, e: Weather, size: int)
    requires WorldInv(l.w) && SizedLocal(l, size) && ReadFrom(l, v) && Generable(l.z.spec) && l.w.cr.rv <= MAX_INT64
    ensures var r := SyncExisting(l, l.w.sts.value, MakeStatefulSet(l.w.id, l.z.spec), e);
            ZnodesStay(l.w, r.w) && SizedLocal(r, size)
  {
    var named :| MadeFrom(l.w, l.w.sts.value, named) && SizedFrom(l.w, named, size);
    StoredIsOlder(l.w, named);
    StoredIsOlder(l.w, v);
    SyncSizesFrom(l, l.w.sts.value, v, named, e, size);
  }

  lemma StatefulSetSizes(l: Local, v: CR, e: Weather, size: int)
    requires WorldInv(l.w) && SizedLocal(l, size) && ReadFrom(l, v) && Generable(l.z.spec) && l.w.cr.rv <= MAX_INT64
    ensures var r := ReconcileStatefulSet(l, e);
            ZnodesStay(l.w, r.w) && SizedLocal(r, size)
  {
    if l.z.status.UpgradeFailed() {
      RecoverySizes(l, e, size);
      RecoveryKeepsZnodes(l, e);
    } else {
      SyncSizes(l, v, e, size);
    }
  }

  lemma MiddleStagesSize(l: Local, v: CR, e: Weather, size: int)
    requires LocalInv(l) && SizedLocal(l, size) && ReadFrom(l, v) && Generable(l.z.spec) && l.w.cr.rv <= MAX_INT64
    requires l.z.rv == l.w.cr.rv ==> l.z.status == l.w.cr.status
    ensures var r := MiddleStages(l, e);
            ZnodesStay(l.w, r.w) && Sized(r.w, size)
  {
    StatefulSetKeeps(l, e);
    StatefulSetSizes(l, v, e, size);
    var r := ReconcileStatefulSet(l, e);
    LastStagesSize(r, e, size);
    LastStagesKeepObjects(r, e);
  }

  lemma FullPassSizes(l: Local, v: CR, e: Weather, size: int)
    requires LocalInv(l) && l.ok && SizedLocal(l, size) && ReadFrom(l, v) && Generable(l.z.spec)
    requires l.z.rv == l.w.cr.rv ==> l.z.status == l.w.cr.status
    requires FullPass(l, e).w.revision <= MAX_INT64
    ensures var r := FullPass(l, e);
            ZnodesStay(l.w, r.w) && Sized(r.w, size)
  {
    FinalizersKeep(l, e);
    FinalizersRead(l, v, e);
    FinalizersSize(l, e, size);
    var a := ReconcileFinalizers(l, e);
    MiddleStagesGrow(a, e);
    if a.ok {
      var u :| ReadFrom(a, u);
      MiddleStagesSize(a, u, e, size);
    }
  }

  lemma DefaultingSizes(l: Local, fate: Fate, size: int)
    requires WorldInv(l.w) && SizedLocal(l, size)
    ensures var r := UpdateObject(l, fate).w;
            ZnodesStay(l.w, r) && Sized(r, size)
  {
    UpdateSizes(l, fate, size);
    WriteKeepsObjects(l, l.w.cr.(spec := l.z.spec, finalizers := l.z.finalizers), fate);
  }

  lemma ReadSized(w: World, e: Weather, size: int)
    requires WorldInv(w) && Sized(w, size)
    ensures SizedLocal(Local(w, Prepared(View(w, e), w.id.name, e.now), true), size)
  {
    ViewIsStored(w, e);
    CurrentIsSized(w, size);
  }

  /** While every version from the one named by the label on asks for the size the StatefulSet has, no
      pass, whatever version it reads and whatever fails, resizes it or touches a znode there is. */
  lemma SizeStays(w: World, e: Weather, size: int)
    requires WorldInv(w) && Sized(w, size) && Pass(w, e).0.revision <= MAX_INT64
    ensures var r := Pass(w, e).0;
            ZnodesStay(w, r) && Sized(r, size)
  {
    ViewIsStored(w, e);
    ReadSized(w, e, size);
    var read := View(w, e);
    var l := Local(w, Prepared(read, w.id.name, e.now), true);
    if NeedsUpdate(read.spec) {
      DefaultingSizes(l, e.Fate(UpdateDefaults), size);
    } else if !e.Fails(GetCR) && !(w.gone && e.view >= |w.older|) {
      DefaultedIsGenerable(read.spec, w.id.name);
      FullPassSizes(l, read, e, size);
    }
  }

  // ----- The pass that resizes -----

  /** From the write of the StatefulSet on, by a pass over the current version. */
  lemma UpdatedSettles(l: Local, found: Sts, u: nat, e: Weather)
    requires WorldInv(l.w) && ReadFrom(l, l.w.cr) && Generable(l.z.spec) && l.w.sts == Some(found)
    requires OwnerRv(found) == Some(Itoa(u)) && u <= l.w.cr.rv <= MAX_INT64
    ensures var b := UpdateStatefulSet(l, Relabelled(found, l.z.rv), MakeStatefulSet(l.w.id, l.z.spec), e);
            var r := if b.ok then UpgradeStatefulSet(b, found.status, e) else b;
            r.w.sts != l.w.sts ==> SizedLocal(r, l.z.spec.replicas)
  {
    var b := UpdateStatefulSet(l, Relabelled(found, l.z.rv), MakeStatefulSet(l.w.id, l.z.spec), e);
    UpdateMakes(l, found, l.w.cr, l.w.cr.(rv := u), e);
    UpgradeGrows(b, found.status, e);
    assert b.w.Versions() == l.w.Versions() && b.w.cr == l.w.cr && b.z.spec == l.z.spec && b.z.rv == l.z.rv;
    if b.w.sts != l.w.sts {
      NewestSizes(b);
      UpgradeSizes(b, found.status, e, l.z.spec.replicas);
    }
  }

  /** A StatefulSet just made from the current version. */
  lemma NewestSizes(l: Local)
    requires WorldInv(l.w) && ReadFrom(l, l.w.cr) && l.w.sts.Some? && MadeFrom(l.w, l.w.sts.value, l.w.cr)
    ensures SizedLocal(l, l.z.spec.replicas)
  {
    forall v | v in l.w.Versions() && l.w.cr.rv <= v.rv
      ensures v == l.w.cr
    {
      StoredIsOlder(l.w, v);
      SameRevision(l.w, v, l.w.cr);
    }
    assert SizedFrom(l.w, l.w.cr, l.z.spec.replicas);
  }

  lemma SyncSettles(l: Local, found: Sts, u: nat, e: Weather)
    requires WorldInv(l.w) && ReadFrom(l, l.w.cr) && Generable(l.z.spec) && l.w.sts == Some(found)
    requires OwnerRv(found) == Some(Itoa(u)) && u <= l.w.cr.rv <= MAX_INT64
    ensures var r := SyncExisting(l, found, MakeStatefulSet(l.w.id, l.z.spec), e);
            r.w.sts != l.w.sts ==> SizedLocal(r, l.z.spec.replicas)
  {
    var next := MakeStatefulSet(l.w.id, l.z.spec);
    CompareNumeric(l.z.rv, u);
    var a := if next.spec.replicas != found.spec.replicas then PublishSize(l, next.spec.replicas, e) else l;
    assert a.w == l.w.(znodes := a.w.znodes) && a.z == l.z && a.w.Versions() == l.w.Versions();
    if a.ok {
      UpdatedSettles(a, found, u, e);
    }
  }

  lemma StatefulSetSettles(l: Local, e: Weather)
    requires WorldInv(l.w) && LabelInv(l.w) && ReadFrom(l, l.w.cr) && Generable(l.z.spec) && l.w.sts.Some?
    requires l.w.cr.rv <= MAX_INT64
    ensures var r := ReconcileStatefulSet(l, e);
            r.w.sts != l.w.sts ==> SizedLocal(r, l.z.spec.replicas)
  {
    if l.z.status.UpgradeFailed() {
      RecoveryGrows(l, e);
    } else {
      var u := NamedLabel(l.w);
      SyncSettles(l, l.w.sts.value, u, e);
    }
  }

  lemma LastStagesSettle(before: Option<Sts>, r: Local, e: Weather, size: int)
    requires WorldInv(r.w) && (r.w.sts != before ==> SizedLocal(r, size))
    ensures LastStages(r, e).w.sts != before ==> Sized(LastStages(r, e).w, size)
  {
    LastStagesKeepObjects(r, e);
    if r.w.sts != before {
      LastStagesSize(r, e, size);
    }
  }

  lemma MiddleSettles(l: Local, e: Weather)
    requires LocalInv(l) && LabelInv(l.w) && ReadFrom(l, l.w.cr) && Generable(l.z.spec) && l.w.sts.Some?
    requires l.z.status == l.w.cr.status && l.w.cr.rv <= MAX_INT64
    ensures var r := MiddleStages(l, e).w;
            r.sts != l.w.sts ==> Sized(r, l.z.spec.replicas)
  {
    StatefulSetKeeps(l, e);
    StatefulSetSettles(l, e);
    LastStagesSettle(l.w.sts, ReconcileStatefulSet(l, e), e, l.z.spec.replicas);
  }

  lemma FullPassSettles(l: Local, e: Weather)
    requires LocalInv(l) && l.ok && LabelInv(l.w) && ReadFrom(l, l.w.cr) && Generable(l.z.spec) && l.w.sts.Some?
    requires l.z.status == l.w.cr.status && FullPass(l, e).w.revision <= MAX_INT64
    ensures var r := FullPass(l, e).w;
            r.sts != l.w.sts ==> Sized(r, l.z.spec.replicas)
  {
    FinalizersKeep(l, e);
    FinalizersRead(l, l.w.cr, e);
    var a := ReconcileFinalizers(l, e);
    SameSts(l.w, a.w);
    MiddleStagesGrow(a, e);
    if a.ok {
      var u :| ReadFrom(a, u);
      CurrentIsRead(a, u);
      MiddleSettles(a, e);
    }
  }

  lemma CurrentIsPrepared(w: World, now: int) returns (l: Local)
    requires WorldInv(w) && !NeedsUpdate(w.cr.spec)
    ensures l == Local(w, Prepared(w.cr, w.id.name, now), true) && LocalInv(l) && l.z.status == w.cr.status
    ensures ReadFrom(l, w.cr) && Generable(l.z.spec)
  {
    l := Local(w, Prepared(w.cr, w.id.name, now), true);
    DefaultedIsGenerable(w.cr.spec, w.id.name);
    assert w.Versions()[|w.older|] == w.cr;
  }

  /** A pass over the current version that changes the StatefulSet leaves it with the size every version
      from the one it names on asks for. */
  lemma ResizeSettles(w: World, e: Weather)
    requires WorldInv(w) && LabelInv(w) && View(w, e) == w.cr && w.sts.Some? && Pass(w, e).0.revision <= MAX_INT64
    ensures var r := Pass(w, e).0;
            r.sts != w.sts ==> r.sts.Some? && Sized(r, r.sts.value.spec.replicas)
  {
    if !NeedsUpdate(w.cr.spec) && !e.Fails(GetCR) && !(w.gone && e.view >= |w.older|) {
      var l := CurrentIsPrepared(w, e.now);
      FullPassSettles(l, e);
    }
  }

  // ----- The operator and the pods together -----

  datatype Joint = Joint(w: World, c: M.Cluster)

  datatype Event = Operator(op: R.Event) | Pods(pod: M.Event)

  /** A stop that can read the size znode reads what it then holds. */
  function AsRead(w: World, ev: M.Event): M.Event {
    if !ev.Stops? then ev
    else
      var path := PodScripts.ZnodePath(w.id.name);
      if ev.t.data.None? || path !in w.znodes then ev.(t := ev.t.(data := None))
      else ev.(t := ev.t.(data := Some(w.znodes[path].data)))
  }

  function Next(j: Joint, ev: Event): Joint {
    match ev
    case Operator(op) => j.(w := R.Next(j.w, op))
    case Pods(pod) => j.(c := M.Next(j.c, AsRead(j.w, pod)))
  }

  function Run(j: Joint, evs: seq<Event>): Joint
    decreases |evs|
  {
    if evs == [] then j else Run(Next(j, evs[0]), evs[1..])
  }

  /** Nobody asks for another size, deletes the StatefulSet or edits the size znode. */
  ghost predicate KeepsSize(w: World, op: R.Event, size: int) {
    match op
    case SpecEdited(spec) => Desired(spec) == size
    case StsDeleted => false
    case ZnodesChanged(znodes) =>
      MetaPath(w.id) in w.znodes ==> MetaPath(w.id) in znodes && znodes[MetaPath(w.id)] == w.znodes[MetaPath(w.id)]
    case _ => true
  }

  /** Passes of any kind, whatever else the operator's world goes through at this size, and pods that
      stop, start and are probed, each under its own name. */
  ghost predicate OrderlyStep(j: Joint, ev: Event, size: int) {
    match ev
    case Operator(op) => KeepsSize(j.w, op, size) && R.Next(j.w, op).revision <= MAX_INT64
    case Pods(pod) =>
      && pod.id in j.c.disks && M.Regular(j.c, pod) && pod.id <= 0x8000_0000
      && (pod.Starts? ==> PodScripts.ServerId(pod.b.host) == Some(pod.id))
      && (pod.Probes? ==> PodScripts.ServerId(pod.p.host) == Some(pod.id))
  }

  ghost predicate Orderly(j: Joint, evs: seq<Event>, size: int)
    decreases |evs|
  {
    evs == [] || (OrderlyStep(j, evs[0], size) && Orderly(Next(j, evs[0]), evs[1..], size))
  }

  /** The size is settled and published. */
  ghost predicate Settled(w: World, size: int) {
    && WorldInv(w) && Sized(w, size)
    && MetaPath(w.id) in w.znodes && w.znodes[MetaPath(w.id)].data == SizeData(size)
  }

  lemma StaysSettled(w: World, r: World, size: int)
    requires Settled(w, size) && WorldInv(r) && r.id == w.id && Sized(r, size) && ZnodesStay(w, r)
    ensures Settled(r, size)
  {
  }

  lemma PassSettles(w: World, e: Weather, size: int)
    requires Settled(w, size) && Pass(w, e).0.revision <= MAX_INT64
    ensures Settled(Pass(w, e).0, size)
  {
    PassKeeps(w, e);
    PassGrows(w, e);
    SizeStays(w, e, size);
    StaysSettled(w, Pass(w, e).0, size);
  }

  lemma OtherSettles(w: World, op: R.Event, size: int)
    requires Settled(w, size) && KeepsSize(w, op, size) && !op.Reconciled?
    ensures Settled(R.Next(w, op), size)
  {
    match op
    case SpecEdited(spec) => EditSettles(w, w.cr.(spec := spec), size);
    case DeletionRequested => EditSettles(w, w.cr.(deleting := true), size);
    case StsReported(status) => ReportSizes(w, status, size);
    case _ => SameWorldSizes(w, R.Next(w, op), size);
  }

  lemma EditSettles(w: World, c: CR, size: int)
    requires Settled(w, size) && c.status == w.cr.status && (c.spec == w.cr.spec || Desired(c.spec) == size)
    ensures !w.gone ==> Settled(StoreVersion(w, c), size)
  {
    StoreKeepsHistory(w, c);
    EditSizes(w, c, size);
  }

  lemma EventSettles(w: World, op: R.Event, size: int)
    requires Settled(w, size) && KeepsSize(w, op, size) && R.Next(w, op).revision <= MAX_INT64
    ensures Settled(R.Next(w, op), size)
  {
    if op.Reconciled? {
      PassSettles(w, op.e, size);
    } else {
      OtherSettles(w, op, size);
    }
  }

  lemma SameWorldSizes(w: World, r: World, size: int)
    requires Sized(w, size) && r.cr == w.cr && r.older == w.older && r.id == w.id && r.sts == w.sts
    ensures Sized(r, size) && r.Versions() == w.Versions()
  {
    assert r.Versions() == w.Versions();
    var named :| MadeFrom(w, w.sts.value, named) && SizedFrom(w, named, size);
    assert MadeFrom(r, r.sts.value, named) && SizedFrom(r, named, size);
  }

  lemma EditSizes(w: World, c: CR, size: int)
    requires WorldInv(w) && Sized(w, size) && (c.spec == w.cr.spec || Desired(c.spec) == size)
    ensures !w.gone ==> Sized(StoreVersion(w, c), size)
  {
    CurrentIsSized(w, size);
    var l := Local(w, w.cr, true);
    WriteSizes(l, c, Done, size);
    assert !w.gone ==> Write(l, c, Done).w == StoreVersion(w, c);
  }

  lemma ReportSizes(w: World, status: StsStatus, size: int)
    requires Sized(w, size)
    ensures var r := R.Reported(w, status);
            Sized(r, size) && r.Versions() == w.Versions()
  {
    var r := R.Reported(w, status);
    var named :| MadeFrom(w, w.sts.value, named) && SizedFrom(w, named, size);
    ReportMadeFrom(w, status, named);
    assert SizedFrom(r, named, size);
  }

  /** What happens to the pods of a run, the stops with what they read. */
  function PodsOf(j: Joint, evs: seq<Event>): seq<M.Event>
    decreases |evs|
  {
    if evs == [] then []
    else (if evs[0].Pods? then [AsRead(j.w, evs[0].pod)] else []) + PodsOf(Next(j, evs[0]), evs[1..])
  }

  lemma RunFirst(c: M.Cluster, ev: M.Event, rest: seq<M.Event>)
    ensures M.Run(c, [ev] + rest) == M.Run(M.Next(c, ev), rest)
  {
    assert ([ev] + rest)[1..] == rest;
  }

  /** The pods of the joint run are a run of their own. */
  lemma {:induction false} PodsRun(j: Joint, evs: seq<Event>)
    ensures Run(j, evs).c == M.Run(j.c, PodsOf(j, evs))
    decreases |evs|
  {
    if evs != [] {
      var rest := PodsOf(Next(j, evs[0]), evs[1..]);
      PodsRun(Next(j, evs[0]), evs[1..]);
      if evs[0].Pods? {
        RunFirst(j.c, AsRead(j.w, evs[0].pod), rest);
      } else {
        assert [] + rest == rest;
      }
    }
  }

  /** What one pod does, with what it reads. */
  ghost predicate PodStep(c: M.Cluster, ev: M.Event, size: int) {
    M.AtSize(ev, size) && ev.id in c.disks && M.Regular(c, ev)
  }

  lemma StepSettles(j: Joint, ev: Event, size: int)
    requires Settled(j.w, size) && OrderlyStep(j, ev, size)
    ensures Settled(Next(j, ev).w, size) && (ev.Pods? ==> PodStep(j.c, AsRead(j.w, ev.pod), size))
  {
    if ev.Operator? {
      EventSettles(j.w, ev.op, size);
    }
  }

  /** Once the size is settled it stays so. */
  lemma {:induction false} RunSettles(j: Joint, evs: seq<Event>, size: int)
    requires Settled(j.w, size) && Orderly(j, evs, size)
    ensures Settled(Run(j, evs).w, size)
    decreases |evs|
  {
    if evs != [] {
      StepSettles(j, evs[0], size);
      RunSettles(Next(j, evs[0]), evs[1..], size);
    }
  }

  /** Then the run of the pods is one at that size. */
  lemma {:induction false} PodsSettled(j: Joint, evs: seq<Event>, size: int)
    requires Settled(j.w, size) && M.Int32(size) && Orderly(j, evs, size)
    ensures M.AllAtSize(PodsOf(j, evs), size) && M.AllRegular(j.c, PodsOf(j, evs))
    decreases |evs|
  {
    if evs != [] {
      StepSettles(j, evs[0], size);
      var d, rest := Next(j, evs[0]), PodsOf(Next(j, evs[0]), evs[1..]);
      PodsSettled(d, evs[1..], size);
      if evs[0].Pods? {
        PodFirst(j.c, AsRead(j.w, evs[0].pod), rest, size);
      } else {
        assert [] + rest == rest;
      }
    }
  }

  lemma PodFirst(c: M.Cluster, ev: M.Event, rest: seq<M.Event>, size: int)
    requires PodStep(c, ev, size) && M.AllAtSize(rest, size) && M.AllRegular(M.Next(c, ev), rest)
    ensures M.AllAtSize([ev] + rest, size) && M.AllRegular(c, [ev] + rest)
  {
    assert ([ev] + rest)[1..] == rest;
  }

  /** In the run of the operator and the pods together, once the size is settled: the members that leave
      are exactly those a stop removed after reading that size. */
  lemma JointScales(j: Joint, evs: seq<Event>, size: int)
    requires Settled(j.w, size) && M.Int32(size) && M.AllOwn(j.c) && M.AllProvisioned(j.c) && Orderly(j, evs, size)
    ensures var d := Run(j, evs);
            && Settled(d.w, size) && M.RolesRise(j.c.members, d.c.members)
            && forall id :: id in d.c.members <==> id in j.c.members && !M.RemovedIn(PodsOf(j, evs), size, id)
  {
    PodsRun(j, evs);
    RunSettles(j, evs, size);
    PodsSettled(j, evs, size);
    M.ScalesExactly(j.c, PodsOf(j, evs), size);
  }

  /** A scale-down from end to end. A pass over the current version resizes the StatefulSet to `b`, and
      ZooKeeper did not refuse the new size. Then, whatever passes, edits that keep the size, reports,
      starts, probes and stops follow in any order, the members 1..a become exactly 1..b if and only if
      every server beyond `b` was stopped, read the size and was removed. */
  lemma ScaleDownEndToEnd(w: World, e: Weather, c: M.Cluster, evs: seq<Event>, a: int, b: int)
    requires WorldInv(w) && LabelInv(w) && View(w, e) == w.cr && e.Fate(SetZnode) != Refused
    requires var r := Pass(w, e).0;
             && w.sts.Some? && r.sts.Some? && w.sts.value.spec.replicas != r.sts.value.spec.replicas == b
             && r.revision <= MAX_INT64 && Orderly(Joint(r, c), evs, b)
    requires M.Int32(b) && b <= a && M.AllOwn(c) && M.AllProvisioned(c)
    requires forall id :: id in c.members <==> 1 <= id <= a
    ensures var d := Run(Joint(Pass(w, e).0, c), evs);
            (forall id :: id in d.c.members <==> 1 <= id <= b) <==>
            (forall id | b < id <= a && 1 <= id :: M.RemovedIn(PodsOf(Joint(Pass(w, e).0, c), evs), b, id))
  {
    var j := Joint(Pass(w, e).0, c);
    PassKeeps(w, e);
    PassGrows(w, e);
    ResizeSettles(w, e);
    PublishedBeforeResize(w, e);
    PodsRun(j, evs);
    PodsSettled(j, evs, b);
    M.ScaleDownExactly(c, PodsOf(j, evs), a, b);
  }
}
