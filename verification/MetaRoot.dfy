/** The size znode is created once, and creating it is not repeatable. */
module MetaRoot {
  import opened Calls
  import opened ClusterStatus
  import opened Generators
  import opened Znodes
  import opened Reconcile
  import opened UpgradeInvariants
  import opened Runs
  import opened OwnerLabel

  /** The first of the nodes `CreateNode` makes. */
  function FirstNode(id: Identity): string { NodePaths(MetaPath(id))[0] }

  /** That node exists, and no stored version says that the size znode was created: what remains when
      the creation was cut off, or its record never stored. */
  ghost predicate Wedged(w: World) {
    FirstNode(w.id) in w.znodes && Unrecorded(w)
  }

  ghost predicate Unrecorded(w: World) {
    forall i | 0 <= i < |w.Versions()| :: !w.Versions()[i].status.metaRootCreated
  }

  /** A pass under way that has recorded nothing, in the presence of the given nodes. */
  ghost predicate Unaware(l: Local, nodes: set<string>) {
    Unrecorded(l.w) && !l.z.status.metaRootCreated && nodes <= l.w.znodes.Keys
  }

  lemma WrittenUnaware(l: Local, nodes: set<string>, c: CR, fate: Fate)
    requires Unaware(l, nodes) && !c.status.metaRootCreated
    ensures Unaware(Write(l, c, fate), nodes)
  {
    var w, r := l.w, StoreVersion(l.w, c);
    assert w.Versions()[|w.older|] == w.cr;
    if c != w.cr {
      assert r.Versions() == w.Versions() + [r.cr];
    }
  }

  lemma FinalizersUnaware(l: Local, nodes: set<string>, e: Weather)
    requires Unaware(l, nodes)
    ensures Unaware(ReconcileFinalizers(l, e), nodes)
  {
    var added := l.(z := l.z.(finalizers := l.z.finalizers + [Claims.ZK_FINALIZER]));
    var fate := e.Fate(UpdateFinalizers);
    assert l.w.Versions()[|l.w.older|] == l.w.cr;
    WrittenUnaware(added, nodes, l.w.cr.(spec := added.z.spec, finalizers := added.z.finalizers), fate);
    CleanupUnaware(l, nodes, e);
    CleanupUnaware(UpdateObject(added, fate), nodes, e);
    var a := CleanUpAllPVCs(l, e);
    assert a.w.Versions() == l.w.Versions();
    var dropped := a.(z := a.z.(finalizers := Claims.Removed(a.z.finalizers, Claims.ZK_FINALIZER)));
    WrittenUnaware(dropped, nodes, a.w.cr.(spec := a.z.spec, finalizers := dropped.z.finalizers), fate);
  }

  lemma CleanupUnaware(l: Local, nodes: set<string>, e: Weather)
    requires Unaware(l, nodes)
    ensures Unaware(CleanupOrphanPVCs(l, e), nodes)
  {
    assert CleanupOrphanPVCs(l, e).w.Versions() == l.w.Versions();
  }

  /** No verdict touches the flag. */
  lemma JudgeKeepsFlag(s: Status, tag: string, found: StsStatus, now: int)
    ensures Judge(s, tag, found, now).s.metaRootCreated == s.metaRootCreated
  {
  }

  lemma ClearUnaware(l: Local, nodes: set<string>, e: Weather)
    requires Unaware(l, nodes)
    ensures Unaware(ClearUpgradeStatus(l, e), nodes)
  {
    var cleared := l.WithStatus(l.z.status.With(Upgrading, IsFalse, "", "", e.Second()).(targetVersion := ""));
    assert l.w.Versions()[|l.w.older|] == l.w.cr;
    WrittenUnaware(cleared, nodes, l.w.cr.(spec := l.z.spec, finalizers := l.z.finalizers), e.Fate(UpdateCleared));
  }

  lemma UpgradeUnaware(l: Local, nodes: set<string>, found: StsStatus, e: Weather)
    requires Unaware(l, nodes)
    ensures Unaware(UpgradeStatefulSet(l, found, e), nodes)
  {
    JudgeKeepsFlag(l.z.status, l.z.spec.image.tag, found, e.now);
    match Judge(l.z.status, l.z.spec.image.tag, found, e.now)
    case Remember(s) =>
    case Persist(s) => WrittenUnaware(l.WithStatus(s), nodes, l.w.cr.(status := s), e.Fate(WriteProgress));
    case Clear(s) => ClearUnaware(l.WithStatus(s), nodes, e);
  }

  lemma SyncUnaware(l: Local, nodes: set<string>, found: Sts, next: Sts, e: Weather)
    requires Unaware(l, nodes)
    ensures Unaware(SyncExisting(l, found, next, e), nodes)
  {
    var a := if next.spec.replicas != found.spec.replicas then PublishSize(l, next.spec.replicas, e) else l;
    assert a.z == l.z && a.w.Versions() == l.w.Versions() && l.w.znodes.Keys <= a.w.znodes.Keys;
    var b := UpdateStatefulSet(a, Relabelled(found, l.z.rv), next, e);
    assert b.w.Versions() == a.w.Versions();
    UpgradeUnaware(b, nodes, found.status, e);
  }

  lemma StatefulSetUnaware(l: Local, nodes: set<string>, e: Weather)
    requires Unaware(l, nodes) && Generable(l.z.spec)
    ensures Unaware(ReconcileStatefulSet(l, e), nodes)
  {
    var s, next := l.z.status, MakeStatefulSet(l.w.id, l.z.spec);
    if s.UpgradeFailed() {
      var mended := s.Recovered(e.Second());
      ClearUnaware(l.WithStatus(mended), nodes, e);
    } else if l.w.sts.Some? {
      SyncUnaware(l, nodes, l.w.sts.value, next, e);
    } else {
      assert CreateStatefulSet(l, next, e).w.Versions() == l.w.Versions();
    }
  }

  /** It is not time to create the size znode, or it cannot be created. */
  ghost predicate NoRoot(l: Local, nodes: set<string>) {
    FirstNode(l.w.id) in nodes || l.z.status.readyReplicas != l.z.spec.replicas
  }

  /** The one place that sets the flag cannot get there. */
  lemma RootUnaware(l: Local, nodes: set<string>, e: Weather)
    requires Unaware(l, nodes) && NoRoot(l, nodes)
    ensures Unaware(Rooted(l, e), nodes)
  {
    RootedEffect(l, e);
    if FirstNode(l.w.id) in nodes {
      CreateNotRepeatable(l.w.znodes, NodePaths(MetaPath(l.w.id)), SizeData(l.z.spec.replicas), e.znodeFates);
    }
  }

  lemma ClusterStatusUnaware(l: Local, nodes: set<string>, e: Weather)
    requires Unaware(l, nodes) && NoRoot(l, nodes)
    ensures Unaware(ReconcileClusterStatus(l, e), nodes)
  {
    RootUnaware(l, nodes, e);
    var a := Rooted(l, e);
    var t := SettledStatus(a.z, e.Second());
    WrittenUnaware(a.WithStatus(t), nodes, a.w.cr.(status := t), e.Fate(WriteStatus));
  }

  lemma FullPassUnaware(l: Local, nodes: set<string>, e: Weather)
    requires Unaware(l, nodes) && FirstNode(l.w.id) in nodes && Generable(l.z.spec)
    ensures Unaware(FullPass(l, e), nodes) && FullPass(l, e).w.id == l.w.id
  {
    FinalizersUnaware(l, nodes, e);
    var a := ReconcileFinalizers(l, e);
    FinalizersId(l, e);
    StatefulSetUnaware(a, nodes, e);
    StatefulSetGrows(a, e);
    ClusterStatusUnaware(ReconcileStatefulSet(a, e), nodes, e);
    ClusterStatusGrows(ReconcileStatefulSet(a, e), e);
  }

  lemma FinalizersId(l: Local, e: Weather)
    ensures ReconcileFinalizers(l, e).w.id == l.w.id
  {
  }

  lemma ReadUnaware(w: World, e: Weather)
    requires Wedged(w)
    ensures Unaware(Local(w, Prepared(View(w, e), w.id.name, e.now), true), {FirstNode(w.id)})
    ensures !w.cr.status.metaRootCreated
  {
    var vs := w.Versions();
    assert vs[|w.older|] == w.cr && (e.view < |w.older| ==> vs[e.view] == View(w, e));
  }

  lemma PassWedged(w: World, e: Weather)
    requires Wedged(w)
    ensures Wedged(Pass(w, e).0)
  {
    ReadUnaware(w, e);
    var read := View(w, e);
    var l := Local(w, Prepared(read, w.id.name, e.now), true);
    var nodes := {FirstNode(w.id)};
    if NeedsUpdate(read.spec) {
      WrittenUnaware(l, nodes, w.cr.(spec := l.z.spec, finalizers := l.z.finalizers), e.Fate(UpdateDefaults));
    } else {
      DefaultedIsGenerable(read.spec, w.id.name);
      FullPassUnaware(l, nodes, e);
    }
  }

  lemma NodesAreDistinct(id: Identity)
    ensures var paths := NodePaths(MetaPath(id));
            && paths[|paths| - 1] == MetaPath(id) && (forall i, j | 0 <= i < j < |paths| :: paths[i] != paths[j])
  {
    AbsolutePath(MetaPath(id));
  }

  lemma FirstNodeCreated(tree: Tree, id: Identity, data: string, fates: map<string, Fate>)
    requires FateOf(fates, FirstNode(id)) != Refused
    ensures FirstNode(id) in CreateAll(tree, NodePaths(MetaPath(id)), data, fates).0
  {
    var paths := NodePaths(MetaPath(id));
    NodesAreDistinct(id);
    var (next, ok) := Create(tree, paths[0], if |paths| == 1 then data else "", FateOf(fates, paths[0]));
    CreateExactly(next, paths[1..], data, fates);
  }

  /** The creation of the size znode meets a node that exists already or a call that fails. */
  ghost predicate Obstructed(w: World, e: Weather) {
    exists it | it in NodePaths(MetaPath(w.id)) :: it in w.znodes || FateOf(e.znodeFates, it) != Done
  }

  lemma RootedExactly(l: Local, e: Weather)
    requires l.ok && !l.z.status.metaRootCreated && l.z.status.readyReplicas == l.z.spec.replicas
    requires !e.Fails(ListPods) && !e.Fails(ConnectForRoot)
    ensures Rooted(l, e).ok <==> !Obstructed(l.w, e)
  {
    var paths := NodePaths(MetaPath(l.w.id));
    RootedEffect(l, e);
    NodesAreDistinct(l.w.id);
    CreateExactly(l.w.znodes, paths, SizeData(l.z.spec.replicas), e.znodeFates);
    assert forall i | 0 <= i < |paths| :: paths[i] in paths;
  }

  /** How it comes about, exactly. When all replicas are ready for the first time and the creation begins,
      the cluster is wedged if and only if the creation meets a node that exists already or a call that
      fails, or the record is not stored, be it refused or, because the pass worked on an outdated
      version, in conflict. */
  lemma LostRecordWedges(l: Local, e: Weather)
    requires Unrecorded(l.w) && !l.z.status.metaRootCreated && !l.z.status.InUpgrade() && !l.z.status.UpgradeFailed()
    requires l.ok && l.z.status.readyReplicas == l.z.spec.replicas && !e.Fails(ListPods) && !e.Fails(ConnectForRoot)
    requires FateOf(e.znodeFates, FirstNode(l.w.id)) != Refused
    ensures Wedged(ReconcileClusterStatus(l, e).w) <==>
            Obstructed(l.w, e) || e.Fate(WriteStatus) == Refused || Conflicts(l)
  {
    RootedEffect(l, e);
    RootedExactly(l, e);
    FirstNodeCreated(l.w.znodes, l.w.id, SizeData(l.z.spec.replicas), e.znodeFates);
    var a := Rooted(l, e);
    var b := a.WithStatus(SettledStatus(a.z, e.Second()));
    if !a.ok || e.Fate(WriteStatus) == Refused || Conflicts(l) {
      assert ReconcileClusterStatus(l, e).w == a.w;
    } else {
      Recorded(b, e.Fate(WriteStatus));
    }
  }

  lemma Recorded(l: Local, fate: Fate)
    requires l.z.status.metaRootCreated && !fate.Refused? && !Conflicts(l)
    ensures !Unrecorded(UpdateStatus(l, fate).w)
  {
    var w := UpdateStatus(l, fate).w;
    assert w.Versions()[|w.older|] == w.cr;
  }

  /** Nobody deletes the node. */
  ghost predicate NodeStays(id: Identity, evs: seq<Event>) {
    forall i | 0 <= i < |evs| && evs[i].ZnodesChanged? :: FirstNode(id) in evs[i].znodes
  }

  lemma NextWedged(w: World, ev: Event)
    requires WorldInv(w) && Wedged(w) && (ev.ZnodesChanged? ==> FirstNode(w.id) in ev.znodes)
    ensures Wedged(Next(w, ev)) && Next(w, ev).id == w.id
  {
    assert w.Versions()[|w.older|] == w.cr;
    NextGrows(w, ev);
    match ev
    case Reconciled(e) => PassWedged(w, e);
    case SpecEdited(spec) => WrittenUnaware(Local(w, w.cr, true), {FirstNode(w.id)}, w.cr.(spec := spec), Done);
    case DeletionRequested => WrittenUnaware(Local(w, w.cr, true), {FirstNode(w.id)}, w.cr.(deleting := true), Done);
    case _ => assert Next(w, ev).Versions() == w.Versions();
  }

  lemma {:induction false} RunWedged(w: World, evs: seq<Event>)
    requires WorldInv(w) && Wedged(w) && NodeStays(w.id, evs)
    ensures Wedged(Run(w, evs))
    decreases |evs|
  {
    if evs != [] {
      NextWedged(w, evs[0]);
      NextKeeps(w, evs[0]);
      RunWedged(Next(w, evs[0]), evs[1..]);
    }
  }

  /** Once the first node exists while no stored version records the znode, then, whatever passes, edits
      and failures follow, and as long as nobody deletes the node, the cluster is never recorded as
      ready and never gets a version, so no upgrade of it can start. */
  lemma WedgeIsPermanent(w: World, evs: seq<Event>)
    requires WorldInv(w) && Wedged(w) && NodeStays(w.id, evs)
    ensures var vs := Run(w, evs).Versions();
            forall i | 0 <= i < |vs| ::
              var s := vs[i].status;
              !s.metaRootCreated && !s.Ready() && s.currentVersion == "" && !s.InUpgrade()
  {
    RunWedged(w, evs);
    RunKeeps(w, evs);
  }
}
