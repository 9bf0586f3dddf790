/** What the operator makes of a spec in the StatefulSet: which fields of the version it read the pods get,
    and which edits give them another template, and so a rolling update. */
module Templates {
  import opened Options
  import opened Text
  import opened ClusterSpec
  import opened Generators
  import opened Reconcile
  import opened UpgradeInvariants
  import opened OwnerLabel
  import opened Requeue
  import opened Scaling

  /** The pods run the image, ports, probes and policy of this spec. Their labels are the spec's, overridden by
      the pod policy's, overridden by the two the selectors need. */
  ghost predicate Carries(id: Identity, t: PodTemplate, s: Spec) {
    var specLabels, podLabels := OrEmpty(s.labels), OrEmpty(s.pod.labels);
    && t.image == s.image.repository + ":" + s.image.tag && t.pullPolicy == s.image.pullPolicy
    && t.ports == (if s.ports.Some? then s.ports.value else [])
    && s.probes.Some? && Some(t.readinessProbe) == s.probes.value.readinessProbe
    && Some(t.livenessProbe) == s.probes.value.livenessProbe
    && t.terminationGracePeriodSeconds == s.pod.terminationGracePeriodSeconds
    && t.serviceAccountName == s.pod.serviceAccountName
    && t.annotations == s.pod.annotations && t.affinity == s.pod.affinity
    && t.labels.Keys == specLabels.Keys + podLabels.Keys + {"app", "kind"}
    && forall k | k in t.labels ::
         t.labels[k] == if k == "app" then id.name else if k == "kind" then "ZookeeperMember"
                        else if k in podLabels then podLabels[k] else specLabels[k]
  }

  /** What every write of the StatefulSet brings in line with a spec. */
  ghost predicate InLine(id: Identity, sts: StsSpec, s: Spec) {
    sts.replicas == s.replicas && Carries(id, sts.template, s) && sts.updateStrategy == "RollingUpdate"
  }

  /** What its creation fixes: the selector and, unless storage is ephemeral, one claim per pod. */
  ghost predicate Founded(id: Identity, sts: StsSpec, s: Spec) {
    && sts.selector == map["app" := id.name]
    && (IsEphemeral(s.storageType) ==> sts.claims == [])
    && (!IsEphemeral(s.storageType) ==>
          && |sts.claims| == 1 && s.persistence.Some?
          && var c, labels := sts.claims[0], OrEmpty(s.labels);
          && c.name == "data" && c.accessModes == s.persistence.value.accessModes
          && c.requests == s.persistence.value.requests
          && c.labels.Keys == labels.Keys + {"app", "uid"}
          && forall k | k in c.labels ::
               c.labels[k] == if k == "app" then id.name else if k == "uid" then id.uid else labels[k])
  }

  lemma ThreeMerged(a: Labels, b: Labels, c: Labels)
    ensures MergedLabels([a, b, c]) == a + b + c
  {
    assert [a, b, c][..2] == [a, b];
    TwoMerged(a, b);
  }

  lemma TemplateCarries(id: Identity, s: Spec)
    requires Generable(s)
    ensures Carries(id, MakeTemplate(id, s), s)
  {
    ThreeMerged(OrEmpty(s.labels), OrEmpty(s.pod.labels), map["app" := id.name, "kind" := "ZookeeperMember"]);
  }

  lemma GeneratedIsFounded(id: Identity, s: Spec)
    requires Generable(s)
    ensures Founded(id, MakeStatefulSet(id, s).spec, s)
  {
    var forced := map["app" := id.name, "uid" := id.uid];
    TwoMerged(OrEmpty(s.labels), forced);
    assert forced.Keys == {"app", "uid"} && forced["app"] == id.name && forced["uid"] == id.uid;
  }

  lemma GeneratedIsInLine(id: Identity, s: Spec)
    requires Generable(s)
    ensures InLine(id, MakeStatefulSet(id, s).spec, s) && Founded(id, MakeStatefulSet(id, s).spec, s)
  {
    TemplateCarries(id, s);
    GeneratedIsFounded(id, s);
  }

  /** So a StatefulSet whose label names a stored version carries that version. */
  lemma LabelledIsInLine(w: World, v: CR)
    requires w.sts.Some? && MadeFrom(w, w.sts.value, v)
    ensures InLine(w.id, w.sts.value.spec, Defaulted(v.spec, w.id.name))
  {
    DefaultedIsGenerable(v.spec, w.id.name);
    GeneratedIsInLine(w.id, Defaulted(v.spec, w.id.name));
  }

  // ----- A pass -----

  /** Labels that differ in nothing but the owner's. */
  ghost predicate SameLabels(a: Labels, b: Labels) {
    forall k | k != "owner-rv" :: (k in a <==> k in b) && (k in a ==> a[k] == b[k])
  }

  /** The StatefulSet is as before, or in line with this spec; a new one is founded on it, and an old one
      keeps its other labels, selector, claims and status. */
  ghost predicate Wrote(before: Option<Sts>, id: Identity, s: Spec, after: Option<Sts>) {
    || after == before
    || (&& after.Some? && InLine(id, after.value.spec, s)
        && (before.None? ==> Founded(id, after.value.spec, s) && SameLabels(OrEmpty(s.labels), after.value.labels))
        && (before.Some? ==>
              && SameLabels(before.value.labels, after.value.labels)
              && after.value.spec.selector == before.value.spec.selector
              && after.value.spec.claims == before.value.spec.claims
              && after.value.status == before.value.status))
  }

  lemma SyncWrites(l: Local, found: Sts, next: Sts, e: Weather)
    requires l.w.sts == Some(found)
    ensures SyncExisting(l, found, next, e).w.sts
            in {Some(found), Some(SyncedStatefulSet(Relabelled(found, l.z.rv), next))}
  {
    var a := if next.spec.replicas != found.spec.replicas then PublishSize(l, next.spec.replicas, e) else l;
    PublishEffect(l, next.spec.replicas, e);
    UpdatedKeeps(a, Relabelled(found, l.z.rv), next, e);
  }

  lemma CreationWrites(l: Local, next: Sts, e: Weather)
    ensures var after := CreateStatefulSet(l, next, e).w.sts;
            || after == l.w.sts
            || (after.Some? && after.value.spec == next.spec && SameLabels(next.labels, after.value.labels))
  {
  }

  lemma SyncedIsWritten(id: Identity, s: Spec, found: Sts, next: Sts, rv: nat)
    requires InLine(id, next.spec, s)
    ensures Wrote(Some(found), id, s, Some(SyncedStatefulSet(Relabelled(found, rv), next)))
  {
  }

  lemma RecoveryKeepsSts(l: Local, e: Weather)
    ensures RecoverFailedUpgrade(l, e).w.sts == l.w.sts
  {
    ClearKeepsObjects(l.WithStatus(l.z.status.Recovered(e.Second())), e);
  }

  lemma StatefulSetWrites(l: Local, e: Weather)
    requires Generable(l.z.spec)
    ensures Wrote(l.w.sts, l.w.id, l.z.spec, ReconcileStatefulSet(l, e).w.sts)
  {
    var s, next := l.z.status, MakeStatefulSet(l.w.id, l.z.spec);
    GeneratedIsInLine(l.w.id, l.z.spec);
    if s.UpgradeFailed() {
      RecoveryKeepsSts(l, e);
    } else if l.w.sts.Some? {
      SyncWrites(l, l.w.sts.value, next, e);
      SyncedIsWritten(l.w.id, l.z.spec, l.w.sts.value, next, l.z.rv);
    } else {
      CreationWrites(l, next, e);
    }
  }

  lemma MiddleStagesWrite(l: Local, e: Weather)
    requires Generable(l.z.spec)
    ensures Wrote(l.w.sts, l.w.id, l.z.spec, MiddleStages(l, e).w.sts)
  {
    StatefulSetWrites(l, e);
    LastStagesKeepObjects(ReconcileStatefulSet(l, e), e);
  }

  /** Whatever version a pass reads and whatever fails in it: if it changes the StatefulSet at all, it brings
      replicas, template and strategy in line with the version it read, and creates it on that version. */
  lemma PassWrites(w: World, e: Weather)
    ensures Wrote(w.sts, w.id, Defaulted(View(w, e).spec, w.id.name), Pass(w, e).0.sts)
  {
    var read := View(w, e);
    var l := Local(w, Prepared(read, w.id.name, e.now), true);
    DefaultedIsGenerable(read.spec, w.id.name);
    if NeedsUpdate(read.spec) {
      WriteKeepsObjects(l, w.cr.(spec := l.z.spec, finalizers := l.z.finalizers), e.Fate(UpdateDefaults));
    } else {
      FinalizersKeepObjects(l, e);
      MiddleStagesWrite(ReconcileFinalizers(l, e), e);
    }
  }

  lemma StatefulSetBringsInLine(l: Local, e: Weather)
    requires Generable(l.z.spec) && !l.z.status.UpgradeFailed() && ReconcileStatefulSet(l, e).ok
    ensures var r := ReconcileStatefulSet(l, e);
            r.w.sts.Some? && InLine(l.w.id, r.w.sts.value.spec, l.z.spec)
  {
    var next := MakeStatefulSet(l.w.id, l.z.spec);
    GeneratedIsInLine(l.w.id, l.z.spec);
    if l.w.sts.Some? {
      SyncBringsInStep(l, l.w.sts.value, next, e);
    }
  }

  lemma SyncBringsInStep(l: Local, found: Sts, next: Sts, e: Weather)
    requires l.w.sts == Some(found) && SyncExisting(l, found, next, e).ok
    ensures SyncExisting(l, found, next, e).w.sts == Some(SyncedStatefulSet(Relabelled(found, l.z.rv), next))
  {
    var a := if next.spec.replicas != found.spec.replicas then PublishSize(l, next.spec.replicas, e) else l;
    PublishEffect(l, next.spec.replicas, e);
    UpdatedKeeps(a, Relabelled(found, l.z.rv), next, e);
  }

  /** A complete pass, unless it waits for a failed upgrade to be repaired, leaves the StatefulSet there and in
      line with the version it read, current or not. */
  lemma CompletePassWrites(w: World, e: Weather)
    requires WorldInv(w) && Pass(w, e).1 == Complete && !View(w, e).status.UpgradeFailed()
    ensures var r := Pass(w, e).0;
            r.sts.Some? && InLine(w.id, r.sts.value.spec, Defaulted(View(w, e).spec, w.id.name))
  {
    DefaultedIsGenerable(View(w, e).spec, w.id.name);
    var l := PreparedIsConsistent(w, e);
    FinalizersKeep(l, e);
    FinalizersKeepObjects(l, e);
    var a := ReconcileFinalizers(l, e);
    StatefulSetBringsInLine(a, e);
    LastStagesKeepObjects(ReconcileStatefulSet(a, e), e);
  }

  // ----- Edits that roll the pods -----

  /** Another tag of the same repository is another image, so an edit of the tag alone gives another template. */
  lemma TagChangesTemplate(id: Identity, s: Spec, t: Spec)
    requires Generable(s) && Generable(t)
    requires s.image.repository == t.image.repository && s.image.tag != t.image.tag
    ensures MakeTemplate(id, s) != MakeTemplate(id, t)
  {
    var prefix := s.image.repository + ":";
    TemplateCarries(id, s);
    TemplateCarries(id, t);
    assert (prefix + s.image.tag)[|prefix|..] == s.image.tag && (prefix + t.image.tag)[|prefix|..] == t.image.tag;
  }

  lemma AnnotationChangesTemplate(id: Identity, s: Spec, t: Spec)
    requires Generable(s) && Generable(t) && s.pod.annotations != t.pod.annotations
    ensures MakeTemplate(id, s) != MakeTemplate(id, t)
  {
    TemplateCarries(id, s);
    TemplateCarries(id, t);
  }

  /** The second of a restart that these annotations note. */
  ghost predicate NotesRestart(annotations: Option<Labels>, second: int) {
    annotations.Some? && "restartTime" in annotations.value && annotations.value["restartTime"] == Itoa(second)
  }

  /** A pass that consumes a restart trigger stores a spec whose template is no other's: not of any spec that
      notes no restart, or one of another second. */
  lemma RestartChangesTemplate(w: World, e: Weather, t: Spec)
    requires WorldInv(w) && w.cr.spec.triggerRollingRestart && !w.gone
    requires !Pass(w, e).0.cr.spec.triggerRollingRestart
    requires Generable(t) && !NotesRestart(t.pod.annotations, e.now / 1_000_000_000)
    ensures var s := Defaulted(Pass(w, e).0.cr.spec, w.id.name);
            && NotesRestart(s.pod.annotations, e.now / 1_000_000_000)
            && Generable(s) && MakeTemplate(w.id, s) != MakeTemplate(w.id, t)
  {
    TriggerIsConsumedOnce(w, e);
    var s := Defaulted(Pass(w, e).0.cr.spec, w.id.name);
    DefaultedIsGenerable(Pass(w, e).0.cr.spec, w.id.name);
    AnnotationChangesTemplate(w.id, s, t);
  }

  /** And the notes of different seconds differ. */
  lemma RestartsAreToldApart(annotations: Option<Labels>, i: int, j: int)
    requires NotesRestart(annotations, i) && NotesRestart(annotations, j)
    ensures i == j
  {
    ItoaInjective(i, j);
  }
}
