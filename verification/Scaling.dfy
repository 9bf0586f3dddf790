/** Scaling across the operator and the pods: the size is published before the StatefulSet is resized,
    the pods that stop read it, and the volumes left behind are collected. */
module Scaling {
  import opened Options
  import opened Text
  import opened Calls
  import opened ClusterSpec
  import opened ClusterStatus
  import opened Generators
  import opened Claims
  import opened Znodes
  import opened Reconcile
  import opened UpgradeInvariants
  import opened MetaRoot
  import opened PodScripts
  import opened Membership

  /** The size znode before and after: written, unless that write was refused. */
  ghost predicate Published(w: World, r: World, size: int, fate: Fate) {
    var path := MetaPath(w.id);
    && path in w.znodes && path in r.znodes
    && r.znodes[path] == if fate.Refused? then w.znodes[path] else Znode(SizeData(size), w.znodes[path].version + 1)
  }

  /** If the StatefulSet was resized, the new size was published first. */
  ghost predicate ResizeIsPublished(w: World, r: World, fate: Fate) {
    w.sts.Some? && r.sts.Some? && w.sts.value.spec.replicas != r.sts.value.spec.replicas ==>
      Published(w, r, r.sts.value.spec.replicas, fate)
  }

  /** A stage that keeps the StatefulSet, the claims and every znode there is. */
  ghost predicate Keeps(w: World, r: World) {
    && r.id == w.id && r.sts == w.sts && r.claims == w.claims
    && forall p | p in w.znodes :: p in r.znodes && r.znodes[p] == w.znodes[p]
  }

  lemma WriteKeepsObjects(l: Local, c: CR, fate: Fate)
    ensures Keeps(l.w, Write(l, c, fate).w) && Write(l, c, fate).w.znodes == l.w.znodes
  {
  }

  lemma ClearKeepsObjects(l: Local, e: Weather)
    ensures Keeps(l.w, ClearUpgradeStatus(l, e).w)
  {
    var cleared := l.WithStatus(l.z.status.With(Upgrading, IsFalse, "", "", e.Second()).(targetVersion := ""));
    WriteKeepsObjects(cleared, l.w.cr.(spec := l.z.spec, finalizers := l.z.finalizers), e.Fate(UpdateCleared));
  }

  lemma UpgradeKeepsObjects(l: Local, found: StsStatus, e: Weather)
    ensures Keeps(l.w, UpgradeStatefulSet(l, found, e).w)
  {
    match Judge(l.z.status, l.z.spec.image.tag, found, e.now)
    case Remember(s) =>
    case Persist(s) => WriteKeepsObjects(l.WithStatus(s), l.w.cr.(status := s), e.Fate(WriteProgress));
    case Clear(s) => ClearKeepsObjects(l.WithStatus(s), e);
  }

  lemma CreationKeepsNodes(tree: Tree, id: Identity, data: string, fates: map<string, Fate>)
    ensures var after := CreateAll(tree, NodePaths(MetaPath(id)), data, fates).0;
            forall p | p in tree :: p in after && after[p] == tree[p]
  {
    NodesAreDistinct(id);
    CreateExactly(tree, NodePaths(MetaPath(id)), data, fates);
  }

  lemma CreationKeepsObjects(l: Local, e: Weather)
    ensures Keeps(l.w, CreateMetaRoot(l, e).w)
  {
    CreationKeepsNodes(l.w.znodes, l.w.id, SizeData(l.z.spec.replicas), e.znodeFates);
  }

  lemma RootKeepsObjects(l: Local, e: Weather)
    ensures Keeps(l.w, Rooted(l, e).w)
  {
    CreationKeepsObjects(l.WithStatus(l.z.status.Initialised(e.Second())), e);
  }

  lemma LastStagesKeepObjects(l: Local, e: Weather)
    ensures Keeps(l.w, LastStages(l, e).w)
  {
    RootKeepsObjects(l, e);
    var a := Rooted(l, e);
    var t := SettledStatus(a.z, e.Second());
    WriteKeepsObjects(a.WithStatus(t), a.w.cr.(status := t), e.Fate(WriteStatus));
  }

  lemma SyncPublishes(l: Local, found: Sts, next: Sts, e: Weather)
    requires l.w.sts == Some(found)
    ensures var r := SyncExisting(l, found, next, e);
            ResizeIsPublished(l.w, r.w, e.Fate(SetZnode)) && r.w.id == l.w.id && r.w.claims == l.w.claims
  {
    var a := if next.spec.replicas != found.spec.replicas then PublishSize(l, next.spec.replicas, e) else l;
    PublishEffect(l, next.spec.replicas, e);
    assert Relabelled(found, l.z.rv).spec == found.spec;
    UpdatedKeeps(a, Relabelled(found, l.z.rv), next, e);
  }

  lemma PublishEffect(l: Local, size: int, e: Weather)
    ensures var a := PublishSize(l, size, e);
            && a.w == l.w.(znodes := a.w.znodes) && a.z == l.z
            && (a.ok ==> Published(l.w, a.w, size, e.Fate(SetZnode)))
  {
  }

  /** The write of the StatefulSet and the upgrade stage keep every znode and claim. */
  lemma UpdatedKeeps(l: Local, found: Sts, next: Sts, e: Weather)
    ensures var b := UpdateStatefulSet(l, found, next, e);
            var r := if b.ok then UpgradeStatefulSet(b, found.status, e) else b;
            && Keeps(l.w.(sts := r.w.sts), r.w)
            && r.w.sts == if e.Fate(UpdateSts) == Refused then l.w.sts else Some(SyncedStatefulSet(found, next))
  {
    var b := UpdateStatefulSet(l, found, next, e);
    UpgradeKeepsObjects(b, found.status, e);
  }

  lemma StatefulSetPublishes(l: Local, e: Weather)
    requires Generable(l.z.spec)
    ensures var r := ReconcileStatefulSet(l, e);
            ResizeIsPublished(l.w, r.w, e.Fate(SetZnode)) && r.w.id == l.w.id && r.w.claims == l.w.claims
  {
    var s, next := l.z.status, MakeStatefulSet(l.w.id, l.z.spec);
    if s.UpgradeFailed() {
      ClearKeepsObjects(l.WithStatus(s.Recovered(e.Second())), e);
    } else if l.w.sts.Some? {
      SyncPublishes(l, l.w.sts.value, next, e);
    }
  }

  lemma MiddleStagesPublish(l: Local, e: Weather)
    requires Generable(l.z.spec)
    ensures ResizeIsPublished(l.w, MiddleStages(l, e).w, e.Fate(SetZnode)) && MiddleStages(l, e).w.claims == l.w.claims
  {
    StatefulSetPublishes(l, e);
    LastStagesKeepObjects(ReconcileStatefulSet(l, e), e);
  }

  lemma FinalizersKeepObjects(l: Local, e: Weather)
    ensures var r := ReconcileFinalizers(l, e);
            r.w.id == l.w.id && r.w.sts == l.w.sts && r.w.znodes == l.w.znodes
  {
    var added := l.(z := l.z.(finalizers := l.z.finalizers + [ZK_FINALIZER]));
    WriteKeepsObjects(added, l.w.cr.(spec := added.z.spec, finalizers := added.z.finalizers), e.Fate(UpdateFinalizers));
    var a := CleanUpAllPVCs(l, e);
    var dropped := a.(z := a.z.(finalizers := Removed(a.z.finalizers, ZK_FINALIZER)));
    WriteKeepsObjects(dropped, a.w.cr.(spec := a.z.spec, finalizers := dropped.z.finalizers), e.Fate(UpdateFinalizers));
  }

  lemma FullPassPublishes(l: Local, e: Weather)
    requires Generable(l.z.spec)
    ensures ResizeIsPublished(l.w, FullPass(l, e).w, e.Fate(SetZnode))
  {
    FinalizersKeepObjects(l, e);
    MiddleStagesPublish(ReconcileFinalizers(l, e), e);
  }

  /** A pass that resizes the StatefulSet found the size znode, and has published exactly the new size
      in it unless ZooKeeper refused that one write, whose error is dropped. */
  lemma PublishedBeforeResize(w: World, e: Weather)
    ensures ResizeIsPublished(w, Pass(w, e).0, e.Fate(SetZnode))
  {
    var read := View(w, e);
    var l := Local(w, Prepared(read, w.id.name, e.now), true);
    DefaultedIsGenerable(read.spec, w.id.name);
    if NeedsUpdate(read.spec) {
      WriteKeepsObjects(l, w.cr.(spec := l.z.spec, finalizers := l.z.finalizers), e.Fate(UpdateDefaults));
    } else {
      FullPassPublishes(l, e);
    }
  }

  /** So a pod stopped after the pass that resized the StatefulSet, reading the znode that pass wrote,
      leaves the ensemble exactly when it is beyond the new size. */
  lemma ResizedPodsLeaveExactly(w: World, e: Weather, s: Site, id: nat)
    requires var r := Pass(w, e).0;
             && w.sts.Some? && r.sts.Some? && r.sts.value.spec.replicas != w.sts.value.spec.replicas
             && Int32(r.sts.value.spec.replicas) && e.Fate(SetZnode) != Refused
    requires Owns(s.disk, id) && s.disk.myid == Some(Itoa(id)) && id in s.members
    ensures var r := Pass(w, e).0;
            && ZnodePath(w.id.name) in r.znodes
            && (id !in Stopped(s, Stop(Some(r.znodes[ZnodePath(w.id.name)].data), Done)) <==>
                  r.sts.value.spec.replicas < id)
  {
    PublishedBeforeResize(w, e);
    var size := Pass(w, e).0.sts.value.spec.replicas;
    TeardownExactly(s, Stop(Some(SizeData(size)), Done), id, size);
  }

  // ----- When the two sizes come apart -----

  /** The published size is the StatefulSet's. */
  ghost predicate Agree(w: World) {
    && w.sts.Some? && MetaPath(w.id) in w.znodes
    && w.znodes[MetaPath(w.id)].data == SizeData(w.sts.value.spec.replicas)
  }

  /** A pass, past its finalizers, gets as far as publishing a new size. */
  ghost predicate Resizes(l: Local, e: Weather) {
    && l.ok && !e.Fails(SyncConfigMap) && !l.z.status.UpgradeFailed() && !e.Fails(GetSts) && l.w.sts.Some?
    && (l.z.spec.pod.serviceAccountName != "default" ==> !e.Fails(SyncServiceAccount))
    && CompareResourceVersion(Itoa(l.z.rv), OwnerRv(l.w.sts.value)) >= 0
    && l.z.spec.replicas != l.w.sts.value.spec.replicas && !e.Fails(Connect) && !e.Fails(ZnodeExists)
  }

  /** Exactly one of the two writes of a resize is refused. */
  ghost predicate OneRefused(e: Weather) {
    (e.Fate(SetZnode) == Refused) != (e.Fate(UpdateSts) == Refused)
  }

  lemma SizeDataInjective(a: int, b: int)
    requires SizeData(a) == SizeData(b)
    ensures a == b
  {
    var prefix := "CLUSTER_SIZE=";
    assert SizeData(a)[|prefix|..] == Itoa(a) && SizeData(b)[|prefix|..] == Itoa(b);
    ItoaInjective(a, b);
  }

  /** The outcome of a resize on the two sizes. */
  lemma ResizeExactly(l: Local, found: Sts, next: Sts, e: Weather)
    requires Agree(l.w) && l.ok && l.w.sts == Some(found) && next.spec.replicas != found.spec.replicas
    requires CompareResourceVersion(Itoa(l.z.rv), OwnerRv(found)) >= 0 && !e.Fails(Connect) && !e.Fails(ZnodeExists)
    ensures var r := SyncExisting(l, found, next, e).w;
            && r.id == l.w.id && MetaPath(r.id) in r.znodes
            && r.znodes[MetaPath(r.id)].data
               == SizeData(if e.Fate(SetZnode) == Refused then found.spec.replicas else next.spec.replicas)
            && (if e.Fate(UpdateSts) == Refused then r.sts == l.w.sts
                else r.sts.Some? && r.sts.value.spec.replicas == next.spec.replicas)
  {
    var a := PublishSize(l, next.spec.replicas, e);
    PublishEffect(l, next.spec.replicas, e);
    UpdatedKeeps(a, Relabelled(found, l.z.rv), next, e);
    UpgradeKeepsObjects(UpdateStatefulSet(a, Relabelled(found, l.z.rv), next, e), found.status, e);
  }

  lemma SyncAgrees(l: Local, found: Sts, next: Sts, e: Weather)
    requires Agree(l.w) && l.ok && l.w.sts == Some(found)
    ensures Agree(SyncExisting(l, found, next, e).w) <==>
            !(CompareResourceVersion(Itoa(l.z.rv), OwnerRv(found)) >= 0 && next.spec.replicas != found.spec.replicas
              && !e.Fails(Connect) && !e.Fails(ZnodeExists) && OneRefused(e))
  {
    if CompareResourceVersion(Itoa(l.z.rv), OwnerRv(found)) >= 0 && next.spec.replicas == found.spec.replicas {
      UpdatedKeeps(l, Relabelled(found, l.z.rv), next, e);
      UpgradeKeepsObjects(UpdateStatefulSet(l, Relabelled(found, l.z.rv), next, e), found.status, e);
    } else if CompareResourceVersion(Itoa(l.z.rv), OwnerRv(found)) >= 0 && !e.Fails(Connect) && !e.Fails(ZnodeExists) {
      ResizeExactly(l, found, next, e);
      if SizeData(found.spec.replicas) == SizeData(next.spec.replicas) {
        SizeDataInjective(found.spec.replicas, next.spec.replicas);
      }
    }
  }

  lemma StatefulSetAgrees(l: Local, e: Weather)
    requires Agree(l.w) && l.ok && !e.Fails(SyncConfigMap) && Generable(l.z.spec)
    ensures var r := ReconcileStatefulSet(l, e).w;
            (Agree(r) <==> !(Resizes(l, e) && OneRefused(e))) && r.id == l.w.id
  {
    StatefulSetPublishes(l, e);
    var s, next := l.z.status, MakeStatefulSet(l.w.id, l.z.spec);
    if s.UpgradeFailed() {
      ClearKeepsObjects(l.WithStatus(s.Recovered(e.Second())), e);
    } else {
      SyncAgrees(l, l.w.sts.value, next, e);
    }
  }

  lemma KeptAgrees(w: World, r: World)
    requires Keeps(w, r) && w.sts.Some? && MetaPath(w.id) in w.znodes
    ensures Agree(r) <==> Agree(w)
  {
  }

  lemma SyncStays(l: Local, found: Sts, next: Sts, e: Weather)
    requires l.w.sts == Some(found) && MetaPath(l.w.id) in l.w.znodes
    ensures var r := SyncExisting(l, found, next, e).w;
            r.sts.Some? && r.id == l.w.id && MetaPath(l.w.id) in r.znodes
  {
    var a := if next.spec.replicas != found.spec.replicas then PublishSize(l, next.spec.replicas, e) else l;
    PublishEffect(l, next.spec.replicas, e);
    UpdatedKeeps(a, Relabelled(found, l.z.rv), next, e);
  }

  /** The stage removes neither the StatefulSet nor the size znode. */
  lemma StatefulSetStays(l: Local, e: Weather)
    requires l.w.sts.Some? && MetaPath(l.w.id) in l.w.znodes && Generable(l.z.spec)
    ensures var r := ReconcileStatefulSet(l, e).w;
            r.sts.Some? && r.id == l.w.id && MetaPath(l.w.id) in r.znodes
  {
    var s := l.z.status;
    if s.UpgradeFailed() {
      ClearKeepsObjects(l.WithStatus(s.Recovered(e.Second())), e);
    } else {
      SyncStays(l, l.w.sts.value, MakeStatefulSet(l.w.id, l.z.spec), e);
    }
  }

  lemma MiddleStagesAgree(l: Local, e: Weather)
    requires Agree(l.w) && Generable(l.z.spec)
    ensures Agree(MiddleStages(l, e).w) <==> !(Resizes(l, e) && OneRefused(e))
  {
    if l.ok && !e.Fails(SyncConfigMap) {
      StatefulSetAgrees(l, e);
      var r := ReconcileStatefulSet(l, e);
      StatefulSetStays(l, e);
      LastStagesKeepObjects(r, e);
      KeptAgrees(r.w, LastStages(r, e).w);
    }
  }

  /** The pass reads an object with its defaults in place, and after its finalizers it comes to a resize. */
  ghost predicate GetsToResize(w: World, e: Weather) {
    && !e.Fails(GetCR) && !(w.gone && e.view >= |w.older|) && !NeedsUpdate(View(w, e).spec)
    && Resizes(ReconcileFinalizers(Local(w, Prepared(View(w, e), w.id.name, e.now), true), e), e)
  }

  /** One pass, exactly: sizes that agree come apart if and only if the pass gets to a resize and exactly
      one of its two writes, the znode's and the StatefulSet's, is refused. */
  lemma SizesComeApart(w: World, e: Weather)
    requires Agree(w)
    ensures Agree(Pass(w, e).0) <==> !(GetsToResize(w, e) && OneRefused(e))
  {
    var read := View(w, e);
    var l := Local(w, Prepared(read, w.id.name, e.now), true);
    if NeedsUpdate(read.spec) {
      WriteKeepsObjects(l, w.cr.(spec := l.z.spec, finalizers := l.z.finalizers), e.Fate(UpdateDefaults));
    } else {
      DefaultedIsGenerable(read.spec, w.id.name);
      FinalizersKeepObjects(l, e);
      MiddleStagesAgree(ReconcileFinalizers(l, e), e);
    }
  }

  // ----- What that leads to -----

  /** The published size and the StatefulSet's. */
  ghost predicate SizesAre(w: World, published: int, size: int) {
    && w.sts.Some? && w.sts.value.spec.replicas == size
    && MetaPath(w.id) in w.znodes && w.znodes[MetaPath(w.id)].data == SizeData(published)
  }

  /** The sizes a resize from `before` to `after` leaves. */
  ghost predicate Resized(w: World, before: int, after: int, e: Weather) {
    SizesAre(w, if e.Fate(SetZnode) == Refused then before else after,
                if e.Fate(UpdateSts) == Refused then before else after)
  }

  lemma KeptResized(w: World, r: World, before: int, after: int, e: Weather)
    requires Keeps(w, r) && Resized(w, before, after, e)
    ensures Resized(r, before, after, e)
  {
  }

  lemma StatefulSetResizes(l: Local, e: Weather)
    requires Agree(l.w) && Generable(l.z.spec) && Resizes(l, e)
    ensures Resized(ReconcileStatefulSet(l, e).w, l.w.sts.value.spec.replicas, l.z.spec.replicas, e)
  {
    ResizeExactly(l, l.w.sts.value, MakeStatefulSet(l.w.id, l.z.spec), e);
  }

  lemma MiddleStagesResize(l: Local, e: Weather)
    requires Agree(l.w) && Generable(l.z.spec) && Resizes(l, e)
    ensures Resized(MiddleStages(l, e).w, l.w.sts.value.spec.replicas, l.z.spec.replicas, e)
  {
    StatefulSetResizes(l, e);
    var r := ReconcileStatefulSet(l, e);
    LastStagesKeepObjects(r, e);
    KeptResized(r.w, LastStages(r, e).w, l.w.sts.value.spec.replicas, l.z.spec.replicas, e);
  }

  /** The two sizes after a pass that gets to a resize, whatever fails later in it. */
  lemma ResizingPass(w: World, e: Weather)
    requires Agree(w) && GetsToResize(w, e)
    ensures Resized(Pass(w, e).0, w.sts.value.spec.replicas, Defaulted(View(w, e).spec, w.id.name).replicas, e)
  {
    var l := Local(w, Prepared(View(w, e), w.id.name, e.now), true);
    DefaultedIsGenerable(View(w, e).spec, w.id.name);
    FinalizersKeepObjects(l, e);
    MiddleStagesResize(ReconcileFinalizers(l, e), e);
  }

  /** A pass publishes a smaller size and its update of the StatefulSet is refused: a pod in range of the
      StatefulSet, restarted in the course of things, removes its server. */
  lemma StrandedSizeRemoves(w: World, e: Weather, s: Site, id: nat)
    requires Agree(w) && GetsToResize(w, e) && e.Fate(SetZnode) != Refused && e.Fate(UpdateSts) == Refused
    requires var asked := Defaulted(View(w, e).spec, w.id.name).replicas;
             Int32(asked) && asked < id <= w.sts.value.spec.replicas
    requires Owns(s.disk, id) && s.disk.myid == Some(Itoa(id))
    ensures var r := Pass(w, e).0;
            && r.sts.Some? && id <= r.sts.value.spec.replicas && ZnodePath(r.id.name) in r.znodes
            && id !in Stopped(s, Stop(Some(r.znodes[ZnodePath(r.id.name)].data), Done))
  {
    var asked := Defaulted(View(w, e).spec, w.id.name).replicas;
    ResizingPass(w, e);
    TeardownExactly(s, Stop(Some(SizeData(asked)), Done), id, asked);
  }

  // ----- The volumes left behind -----

  lemma {:induction false} RemovedMembers(slice: seq<string>, str: string)
    ensures forall c :: c in Removed(slice, str) <==> c in slice && c != str
  {
    if slice != [] {
      RemovedMembers(slice[..|slice| - 1], str);
      assert slice == slice[..|slice| - 1] + [slice[|slice| - 1]];
    }
  }

  /** The finalizer is there or not wanted, or is stored. */
  ghost predicate Registered(l: Local, e: Weather) {
    || ZK_FINALIZER in l.z.finalizers || l.w.disableFinalizer
    || (e.Fate(UpdateFinalizers) == Done && l.z.rv == l.w.cr.rv && !l.w.gone)
  }

  lemma RegistrationExactly(l: Local, e: Weather)
    requires l.ok && (l.z.rv == l.w.cr.rv ==> l.z.status == l.w.cr.status)
    ensures var added := l.(z := l.z.(finalizers := l.z.finalizers + [ZK_FINALIZER]));
            var a := if ZK_FINALIZER !in l.z.finalizers && !l.w.disableFinalizer
                     then UpdateObject(added, e.Fate(UpdateFinalizers)) else l;
            && a.w.claims == l.w.claims && (a.ok <==> Registered(l, e))
            && (a.ok ==> a.z.status == l.z.status && a.z.spec == l.z.spec)
  {
  }

  lemma KeptClaims(l: Local, e: Weather)
    requires l.ok && (l.z.rv == l.w.cr.rv ==> l.z.status == l.w.cr.status)
    ensures KeepFinalizer(l, e).w.claims
            == if Registered(l, e) && l.z.status.readyReplicas == l.z.spec.replicas < |l.w.claims|
                  && !e.Fails(ListClaims) && !e.Fails(ListClaimsAgain)
               then Swept(l.w.claims, l.z.spec.replicas, RefusedDeletes(e, l.w.claims)) else l.w.claims
  {
    RegistrationExactly(l, e);
  }

  /** The volumes of this spec go with the cluster: it names no policy, or the one to delete them. */
  ghost predicate ToReclaim(s: Spec) {
    s.persistence.Some? ==> s.persistence.value.reclaimPolicy == "Delete"
  }

  lemma ReclaimIsStored(s: Spec, name: string)
    requires !Lacks(s)
    ensures ReclaimsVolumes(Defaulted(s, name)) <==> ToReclaim(s)
  {
  }

  /** The pass, over a version of a live object, gets as far as the count test, and the test fires. */
  ghost predicate Collects(w: World, e: Weather) {
    var read := View(w, e);
    && !e.Fails(GetCR) && !(w.gone && e.view >= |w.older|) && !NeedsUpdate(read.spec)
    && !read.deleting && ToReclaim(read.spec)
    && Registered(Local(w, read, true), e)
    && read.status.readyReplicas == read.spec.replicas < |w.claims|
    && !e.Fails(ListClaims) && !e.Fails(ListClaimsAgain)
  }

  /** The finalizer stage of a pass over a version of a live object. */
  lemma CollectionExactly(w: World, e: Weather)
    requires WorldInv(w) && !View(w, e).deleting && !NeedsUpdate(View(w, e).spec)
    requires !e.Fails(GetCR) && !(w.gone && e.view >= |w.older|)
    ensures var read := View(w, e);
            ReconcileFinalizers(Local(w, Prepared(read, w.id.name, e.now), true), e).w.claims
            == if Collects(w, e) then Swept(w.claims, read.spec.replicas, RefusedDeletes(e, w.claims)) else w.claims
  {
    ViewIsStored(w, e);
    ReclaimIsStored(View(w, e).spec, w.id.name);
    KeptClaims(Local(w, Prepared(View(w, e), w.id.name, e.now), true), e);
  }

  lemma PassClaims(w: World, e: Weather)
    requires WorldInv(w) && !View(w, e).deleting
    ensures Pass(w, e).0.claims == if Collects(w, e)
                                   then Swept(w.claims, View(w, e).spec.replicas, RefusedDeletes(e, w.claims))
                                   else w.claims
  {
    var read := View(w, e);
    var l := Local(w, Prepared(read, w.id.name, e.now), true);
    if NeedsUpdate(read.spec) {
      WriteKeepsObjects(l, w.cr.(spec := l.z.spec, finalizers := l.z.finalizers), e.Fate(UpdateDefaults));
    } else if !e.Fails(GetCR) && !(w.gone && e.view >= |w.older|) {
      DefaultedIsGenerable(read.spec, w.id.name);
      CollectionExactly(w, e);
      MiddleStagesPublish(ReconcileFinalizers(l, e), e);
    }
  }

  /** A pass over a version of a live object deletes a claim exactly when it collects, the ordinal is out
      of range of the version it read, and the delete is not refused. So a claim in range of the stored
      spec is never lost to a pass over the current version, only to one over an outdated version that
      asks for fewer replicas and had them ready. */
  lemma LiveClaimsSurvive(w: World, e: Weather, ordinal: nat)
    requires WorldInv(w) && !View(w, e).deleting && Ordinal(ordinal) && ClaimName(w.id.name, ordinal) in w.claims
    ensures var name := ClaimName(w.id.name, ordinal);
            && (name !in Pass(w, e).0.claims <==>
                  Collects(w, e) && ordinal >= View(w, e).spec.replicas && e.Fate(DeleteClaim(name)) != Refused)
            && (name !in Pass(w, e).0.claims && ordinal < w.cr.spec.replicas ==>
                  View(w, e) != w.cr && View(w, e).spec.replicas < w.cr.spec.replicas)
  {
    PassClaims(w, e);
    OrphanExactlyOutOfRange(w.id.name, ordinal, View(w, e).spec.replicas);
    SweptMembers(w.claims, View(w, e).spec.replicas, RefusedDeletes(e, w.claims));
  }

  /** A pass that works on the current version has its finalizers in memory. */
  ghost predicate FinalizersKnown(l: Local) {
    l.z.rv == l.w.cr.rv ==> l.z.finalizers == l.w.cr.finalizers
  }

  lemma KeepLast(l: Local, e: Weather)
    requires l.ok && FinalizersKnown(l) && ZK_FINALIZER in l.w.cr.finalizers && WorldInv(l.w)
    ensures var r := KeepFinalizer(l, e);
            (r.ok ==> FinalizersKnown(r)) && ZK_FINALIZER in r.w.cr.finalizers
  {
    var r := KeepFinalizer(l, e);
    assert r.w.cr.finalizers == l.w.cr.finalizers || ZK_FINALIZER in r.w.cr.finalizers;
  }

  lemma DropLast(l: Local, e: Weather)
    requires l.ok && FinalizersKnown(l) && ZK_FINALIZER in l.w.cr.finalizers && WorldInv(l.w)
    ensures var r := DropFinalizer(l, e);
            && (r.ok ==> FinalizersKnown(r))
            && (ZK_FINALIZER !in r.w.cr.finalizers ==>
                  forall c | c in r.w.claims :: c in l.w.claims && e.Fate(DeleteClaim(c)) == Refused)
  {
    WithoutMembers(l.w.claims, (set c | c in l.w.claims) - RefusedDeletes(e, l.w.claims));
    RemovedMembers(l.z.finalizers, ZK_FINALIZER);
  }

  /** The finalizer stage: the finalizer goes only from an object being deleted, and only once a delete was
      issued for every claim listed. */
  lemma DroppedLast(l: Local, e: Weather)
    requires l.ok && FinalizersKnown(l) && ZK_FINALIZER in l.w.cr.finalizers && WorldInv(l.w)
    ensures var r := ReconcileFinalizers(l, e);
            && (r.ok ==> FinalizersKnown(r))
            && (ZK_FINALIZER !in r.w.cr.finalizers ==>
                  l.z.deleting && forall c | c in r.w.claims :: c in l.w.claims && e.Fate(DeleteClaim(c)) == Refused)
  {
    if l.z.deleting {
      DropLast(l, e);
    } else {
      KeepLast(l, e);
    }
  }

  /** A stage that leaves the finalizers stored as they are. */
  ghost predicate FinalizersStay(l: Local, r: Local) {
    r.w.cr.finalizers == l.w.cr.finalizers && FinalizersKnown(r)
  }

  lemma WriteLeavesFinalizers(l: Local, c: CR, fate: Fate)
    requires l.w.cr.rv <= l.w.revision && FinalizersKnown(l) && (!Conflicts(l) ==> c.finalizers == l.w.cr.finalizers)
    ensures FinalizersStay(l, Write(l, c, fate)) && Write(l, c, fate).w.cr.rv <= Write(l, c, fate).w.revision
  {
  }

  lemma ClearLeavesFinalizers(l: Local, e: Weather)
    requires l.w.cr.rv <= l.w.revision && FinalizersKnown(l)
    ensures FinalizersStay(l, ClearUpgradeStatus(l, e))
  {
    var cleared := l.WithStatus(l.z.status.With(Upgrading, IsFalse, "", "", e.Second()).(targetVersion := ""));
    WriteLeavesFinalizers(cleared, l.w.cr.(spec := l.z.spec, finalizers := l.z.finalizers), e.Fate(UpdateCleared));
  }

  lemma UpgradeLeavesFinalizers(l: Local, found: StsStatus, e: Weather)
    requires l.w.cr.rv <= l.w.revision && FinalizersKnown(l)
    ensures FinalizersStay(l, UpgradeStatefulSet(l, found, e))
  {
    match Judge(l.z.status, l.z.spec.image.tag, found, e.now)
    case Remember(s) =>
    case Persist(s) => WriteLeavesFinalizers(l.WithStatus(s), l.w.cr.(status := s), e.Fate(WriteProgress));
    case Clear(s) => ClearLeavesFinalizers(l.WithStatus(s), e);
  }

  lemma SyncLeavesFinalizers(l: Local, found: Sts, next: Sts, e: Weather)
    requires l.w.cr.rv <= l.w.revision && FinalizersKnown(l)
    ensures FinalizersStay(l, SyncExisting(l, found, next, e))
  {
    var a := if next.spec.replicas != found.spec.replicas then PublishSize(l, next.spec.replicas, e) else l;
    PublishEffect(l, next.spec.replicas, e);
    var b := UpdateStatefulSet(a, Relabelled(found, l.z.rv), next, e);
    assert b.w.cr == l.w.cr && b.z.finalizers == l.z.finalizers && b.z.rv == l.z.rv && l.w.revision <= b.w.revision;
    UpgradeLeavesFinalizers(b, found.status, e);
  }

  lemma StatefulSetLeavesFinalizers(l: Local, e: Weather)
    requires l.w.cr.rv <= l.w.revision && FinalizersKnown(l) && Generable(l.z.spec)
    ensures FinalizersStay(l, ReconcileStatefulSet(l, e))
  {
    var s := l.z.status;
    if s.UpgradeFailed() {
      ClearLeavesFinalizers(l.WithStatus(s.Recovered(e.Second())), e);
    } else if l.w.sts.Some? {
      SyncLeavesFinalizers(l, l.w.sts.value, MakeStatefulSet(l.w.id, l.z.spec), e);
    }
  }

  lemma MiddleStagesLeaveFinalizers(l: Local, e: Weather)
    requires LocalInv(l) && FinalizersKnown(l) && Generable(l.z.spec)
    requires l.z.rv == l.w.cr.rv ==> l.z.status == l.w.cr.status
    ensures MiddleStages(l, e).w.cr.finalizers == l.w.cr.finalizers
  {
    StatefulSetLeavesFinalizers(l, e);
    StatefulSetKeeps(l, e);
    var r := ReconcileStatefulSet(l, e);
    RootedEffect(r, e);
    var a := Rooted(r, e);
    var t := SettledStatus(a.z, e.Second());
    WriteLeavesFinalizers(a.WithStatus(t), a.w.cr.(status := t), e.Fate(WriteStatus));
  }

  lemma FullPassDropsLast(l: Local, e: Weather)
    requires LocalInv(l) && l.ok && Generable(l.z.spec) && l.z.rv == l.w.cr.rv && l.z.status == l.w.cr.status
    requires l.z.finalizers == l.w.cr.finalizers && ZK_FINALIZER in l.z.finalizers
    requires ZK_FINALIZER !in FullPass(l, e).w.cr.finalizers
    ensures l.z.deleting
    ensures forall c | c in FullPass(l, e).w.claims :: c in l.w.claims && e.Fate(DeleteClaim(c)) == Refused
  {
    DroppedLast(l, e);
    FinalizersKeep(l, e);
    var a := ReconcileFinalizers(l, e);
    MiddleStagesPublish(a, e);
    if a.ok {
      MiddleStagesLeaveFinalizers(a, e);
    }
  }

  /** The finalizer goes only in a pass over the current version of an object being deleted, and only once
      a delete was issued for every claim: those still there are ones whose delete was refused. */
  lemma FinalizerGoesLast(w: World, e: Weather)
    requires WorldInv(w) && ZK_FINALIZER in w.cr.finalizers && ZK_FINALIZER !in Pass(w, e).0.cr.finalizers
    ensures View(w, e) == w.cr && w.cr.deleting
    ensures forall c | c in Pass(w, e).0.claims :: c in w.claims && e.Fate(DeleteClaim(c)) == Refused
  {
    ViewIsStored(w, e);
    if View(w, e).rv != w.cr.rv {
      Runs.OutdatedPass(w, e);
    } else if !NeedsUpdate(w.cr.spec) && !e.Fails(GetCR) && !(w.gone && e.view >= |w.older|) {
      DefaultedIsGenerable(w.cr.spec, w.id.name);
      var l := PreparedIsConsistent(w, e);
      FullPassDropsLast(l, e);
    }
  }
}
