# ZooKeeper operator: a model in Dafny

The operator keeps a ZooKeeper cluster in the shape a `ZookeeperCluster` object asks for. This project
models three linked parts of it in Dafny and proves how they behave over whole runs.

**The reconcile pass and the upgrade state machine.** A pass reads some stored version of the object (any
stored version, as a cached client may), fills in defaults, and carries out eight functions in order up to
the first error. `Reconcile.Pass` is that pass as a function of the store and of what it meets: every call
has a fate (done, refused, or carried out without an acknowledgement). `Reconciler.ZookeeperClusterReconciler`
is the same pass as methods that edit the instance and its status in place; each is proved to have exactly the
specified effect. `Runs` interleaves passes with spec edits, deletion, StatefulSet reports, claims and znodes
changing, and other writers. The proofs are about every stored version of every such run: consistent
conditions, version history, the soundness of the ten-minute deadline, the freeze and the recovery of a failed
upgrade, the `owner-rv` staleness guard, the finalizer and the end of the object, and the size znode. What a
complete pass does is proved exactly: when it records the cluster as ready and with which version, and which
fields of the version it read the StatefulSet carries afterwards. `Lifecycle` gives a run from the creation over
the first readiness to the end of an upgrade. That a passed
deadline is declared, and the bound on an upgrade, are about complete passes over current data: a pass that
fails may store nothing.

**Scaling and membership.** `PodScripts` models the start, readiness and teardown scripts on one pod's volume
and on the ensemble, a map from server ids to roles. A pod may be killed between any two of its edits, and a
file is emptied before it is filled. `Volumes` follows one volume over any sequence of starts, `Membership` the
whole ensemble over restarts, promotions and stops. `Scaling` and `ScaleDown` join the operator's side to the
pods' in one run, in which every stop reads the znode the passes have written.

**What is filled in, printed and parsed.** Defaulting field by field and as a fixpoint, ordinals in claim and
host names, the size znode, the dynamic configuration lines that `zu` and `grep` search, `zoo.cfg` key by key,
labels and selectors, and ports looked up in two ways.

Some expected properties do not hold. They are proved with the exact condition:

- Defaulting reports a change for ever when a session timeout derived from the tick wraps to zero in 64 bits;
  no pass over its current version completes (`DefaultingIsAFixpoint`, `WrappedTimeoutNeverCompletes`;
  `WrappedTick` is an input).
- Creating the size znode is not repeatable. Once it begins, if and only if it meets a node that exists already
  or a call that fails, or the status that records it is not stored, the cluster is never recorded as ready and
  never gets a version until somebody deletes the first node (`LostRecordWedges`, `WedgeIsPermanent`;
  `WedgeIsReached` is such a run).
- A promotion removes the server and adds it again without looking at either result, and the probe succeeds
  in any case; the server is lost exactly when the removal took effect and the add did not (`Promoted`;
  `PromotionInterrupted` is an input).
- An observer whose address contains the word "participant" is taken for a participant (`ReadyExactly`), and a
  participant whose address contains "observer" is reported as an observer by `zu get-role` (`GetRoleExactly`);
  `MisreadAddress` and `MisreportedAddress` are inputs.
- A server removed by a scale-down and started again on its old volume stays out (`RejoinsExactly`;
  `RestartStaysOut` is an input).
- A pod killed while it copies `zoo.cfg` loses the `dynamicConfigFile` line for good (`LinkLostExactly`,
  `LostLinkStaysLost`; `CopyCutShort` is an input).
- The claim count test compares numbers only: an orphan survives exactly when the orphans do not outnumber the
  claims missing in range (`OrphansCollected`; `OrphanOverlooked` is an input). A pass that reads an outdated
  version collects by that version's size (`LiveClaimsSurvive`).
- The pass that recovers a failed upgrade records readiness by the count stored before, not by what the
  StatefulSet reports (`RecoveryGoesByStoredCount`); every other pass that finds the StatefulSet goes by its
  report (`ReadyMeansAllReported`).
- A resize writes the size znode and the StatefulSet, and drops the znode's error. The two sizes come apart
  exactly when a pass gets that far and one of the two writes is refused (`SizesComeApart`). A smaller size
  that was published alone removes servers in range at the next restart (`StrandedSizeRemoves`).

Where the code and its comments differ the model follows the code: the comment above
`compareResourceVersion` describes three results by order, while an unparsable version yields 0 or 1; the
comment in `cleanupOrphanPVCs` says the check keeps claims until the StatefulSet has scaled down, while the
code only compares counts.

## Model

| member | source | states |
|---|---|---|
| Text.AtoiItoa | pkg/utils/finalizer_utils.go:47-50 | a 64-bit integer that was printed is read back as itself, without an error |
| ClusterStatus.ZookeeperClusterStatus.GetClusterCondition | api/v1beta1/status.go:146-153 | the scan returns the first condition of a type and its position, as a copy, or -1 and nothing |
| ClusterStatus.ZookeeperClusterStatus.SetClusterCondition | api/v1beta1/status.go:155-177 | the list edited in place is the specified one: appended without stamps, or absorbed at its position with stamps for what changed |
| ClusterStatus.ZookeeperClusterStatus.Init | api/v1beta1/status.go:90-103 | exactly the missing ones of the three conditions are added, in order |
| ClusterStatus.ZookeeperClusterStatus.UpdateProgress | api/v1beta1/status.go:209-214 | the condition records the new count only while an upgrade is on |
| ConditionProperties.SetEffect | api/v1beta1/status.go:155-177 | the transition stamp moves exactly when an existing status changes, the update stamp exactly when anything does; other types and all positions keep what they had |
| ConditionProperties.ListRefinesMap | api/v1beta1/status.go:90-214 | over any sequence of Set, Init and UpdateProgress the list behaves as a map from type to condition, without duplicates and without reordering |
| ConditionProperties.StampsStayOrdered | api/v1beta1/status.go:155-177 | under a clock that does not go back no condition was updated before it last changed status |
| ClusterSpec.ImageWithDefaults | api/v1beta1/zookeepercluster_types.go:415-429 | each field of the image that is set stays and each missing one gets its default, whatever the others are; the flag says whether one was missing |
| ClusterSpec.ConfigWithDefaults | api/v1beta1/zookeepercluster_types.go:680-735 | each setting that is not zero stays and each zero one gets its default, the session timeouts 2 and 20 of the ticks in force with 64-bit wrap-around |
| ClusterSpec.ProbesWithDefaults | api/v1beta1/zookeepercluster_types.go:557-578 | a missing probe is filled in and reported |
| ClusterSpec.FindPorts | api/v1beta1/zookeepercluster_types.go:222-234 | the scan finds exactly the well-known names that are present |
| ClusterSpec.PodWithDefaults | api/v1beta1/zookeepercluster_types.go:485-535 | grace period, account, labels and affinity are filled in and reported |
| ClusterSpec.PersistenceWithDefaults | api/v1beta1/zookeepercluster_types.go:760-777 | an invalid policy and a missing size are filled in and reported; the access modes are overwritten and not reported |
| ClusterSpec.SpecWithDefaults | api/v1beta1/zookeepercluster_types.go:177-299 | every field the user set comes back as it was, whatever else is missing, and every missing one gets its default; the access modes are overwritten and the storage type has its own condition; the flag is true exactly when some part was missing |
| ClusterSpec.DefaultedIsFilled | api/v1beta1/zookeepercluster_types.go:177-299 | the same of the defaulted spec as every pass works on it, with ports, labels, probes, claims and timeouts each in terms of the field itself |
| DefaultingProperties.DefaultingIsAFixpoint | api/v1beta1/zookeepercluster_types.go:177-299 | a second defaulting changes nothing, and reports a change exactly when a derived timeout wraps to zero |
| DefaultingProperties.FlagIsHonest | api/v1beta1/zookeepercluster_types.go:177-299 | the first reports a change exactly when something other than the access modes changed, or a timeout wraps |
| Generators.ZookeeperPorts | api/v1beta1/zookeepercluster_types.go:360-376 | the scan leaves the last match of each well-known name |
| Generators.LookupsAgree | pkg/utils/zookeeper_util.go:37-44 | with distinct names the first match and the last match give the same port |
| Generators.DefaultedLookupsAgree | pkg/utils/zookeeper_util.go:26-44 | after defaulting both lookups succeed for all five well-known ports and agree |
| Generators.CopyInto | pkg/zk/generators.go:430-437 | copying one map into another gives their union with the later winning, in whatever order the keys come |
| Generators.MergeLabels | pkg/zk/generators.go:418-427 | merging does not depend on iteration order, and later maps win |
| Generators.SelectorsMatch | pkg/zk/generators.go:56-105 | for any user labels the selectors of the StatefulSet, services, disruption budget and claim listing match the labels generated for their targets |
| Generators.ServiceSays | pkg/zk/generators.go:342-384 | a service carries the spec's labels overridden by its own two, and says that it is headless exactly when it has no cluster address |
| Templates.GeneratedIsInLine | pkg/zk/generators.go:44-196 | the generated StatefulSet has the spec's replicas, image with repository and tag, pull policy, ports, each probe in its own slot, grace period, account, annotations, affinity and merged labels, rolls its updates, and claims the access modes and requests of the spec unless storage is ephemeral |
| Templates.LabelledIsInLine | controllers/zookeepercluster_controller.go:240-273 | a StatefulSet whose label names a stored version carries that version's fields |
| Templates.PassWrites | controllers/zookeepercluster_controller.go:228-291 | a pass that changes the StatefulSet, whatever it read and whatever fails, brings it in line with the version it read and keeps selector, claims and status; a new one is founded on that version |
| Templates.CompletePassWrites | controllers/zookeepercluster_controller.go:228-291 | after a complete pass, unless it waits for a failed upgrade, the StatefulSet is there and in line with the version read |
| Templates.TagChangesTemplate | api/v1beta1/zookeepercluster_types.go:433-435 | specs of one repository and different tags have different templates |
| Templates.RestartChangesTemplate | controllers/zookeepercluster_controller.go:86-102 | consuming a restart trigger gives a template that no spec without a restart, or with one of another second, has |
| Templates.RestartsAreToldApart | controllers/zookeepercluster_controller.go:86-102 | the annotations of restarts in different seconds differ |
| Claims.ContainsString | pkg/utils/finalizer_utils.go:22-29 | true exactly when the text is an element |
| Claims.RemoveString | pkg/utils/finalizer_utils.go:31-39 | the loop removes every occurrence and keeps the order of the rest |
| Claims.ReadOrdinal | pkg/utils/finalizer_utils.go:41-50 | the ordinal printed after any prefix and a dash is read back |
| Claims.OrphanExactlyOutOfRange | pkg/utils/finalizer_utils.go:41-53 | for every cluster name, a claim of an ordinal below 2^31 is an orphan exactly when the ordinal is at least the replica count |
| Claims.InRangeClaimsSurvive | controllers/zookeepercluster_controller.go:736-758 | no claim with an ordinal in range is ever deleted, whatever else is listed or fails |
| Claims.CountTest | controllers/zookeepercluster_controller.go:738-744 | the count test fires exactly when the orphans outnumber the claims missing in range |
| Claims.OrphansCollected | controllers/zookeepercluster_controller.go:736-758 | with no refused delete an orphan survives exactly when there is one and orphans do not outnumber missing claims; with all in-range claims present none survives |
| Znodes.ZookeeperClient.CreateNode | pkg/zk/zookeeper_client.go:44-60 | the loop creates the prefixes of the path in order and then the node with the data, stopping at the first error |
| Znodes.AbsolutePath | pkg/zk/zookeeper_client.go:44-60 | for an absolute path the nodes are ever longer prefixes, the last being the path later reads use |
| Znodes.CreateExactly | pkg/zk/zookeeper_client.go:44-60 | creation succeeds exactly when none of the nodes existed and no call failed; existing nodes are untouched |
| Znodes.UpdateExactly | pkg/zk/zookeeper_client.go:62-67 | a node is set only at the version given, which moves on by one, and no other node is touched |
| Znodes.CreateNotRepeatable | pkg/zk/zookeeper_client.go:44-60 | once the first node exists every later creation fails and changes nothing |
| Reconciler.SyncStatefulSet | pkg/zk/synchronizers.go:19-23 | replicas, template and update strategy are taken over, nothing else |
| Reconciler.ZookeeperClusterReconciler.CleanupOrphanPVCs | controllers/zookeepercluster_controller.go:736-758 | the collection by count test and loop deletes exactly the specified claims and nothing else changes |
| Reconciler.ZookeeperClusterReconciler.CleanUpAllPVCs | controllers/zookeepercluster_controller.go:773-782 | a delete is issued for every listed claim; those refused stay |
| Reconciler.ZookeeperClusterReconciler.ReconcileFinalizers | controllers/zookeepercluster_controller.go:701-725 | the stage has the specified effect on store and instance |
| Reconciler.ZookeeperClusterReconciler.ClearUpgradeStatus | controllers/zookeepercluster_controller.go:346-360 | the update stores the spec and not the status, and the status kept aside is put back |
| Reconciler.ZookeeperClusterReconciler.CheckSyncTimeout | controllers/zookeepercluster_controller.go:362-377 | exceeded exactly when an upgrade is on, reason and count are unchanged and ten minutes have passed since the stamp |
| Reconciler.ZookeeperClusterReconciler.UpgradeStatefulSet | controllers/zookeepercluster_controller.go:293-344 | the stage, which branches on a copy of the condition, reaches the specified verdict and stores it |
| Reconciler.ZookeeperClusterReconciler.UpdateStatefulSet | controllers/zookeepercluster_controller.go:278-291 | the StatefulSet found is written in step with the generated one; the replica counts are remembered only on success |
| Reconciler.ZookeeperClusterReconciler.ReconcileStatefulSet | controllers/zookeepercluster_controller.go:160-276 | in each of its branches the stage does what `PassWrites`, `StartingPass` and `ResizingPass` are about |
| Reconciler.ZookeeperClusterReconciler.ReconcileClusterStatus | controllers/zookeepercluster_controller.go:553-617 | the stage does to conditions, znode and stored status what `ReadinessIsRecorded` and `LostRecordWedges` are about |
| Reconciler.ZookeeperClusterReconciler.Reconcile | controllers/zookeepercluster_controller.go:65-119 | the whole pass leaves the store, and ends, exactly as `Pass` says |
| UpgradeInvariants.JudgeIsSound | controllers/zookeepercluster_controller.go:293-344 | every verdict on a consistent status is consistent and may follow it; the branch for an unknown version is never reached |
| UpgradeInvariants.ClearKeeps | controllers/zookeepercluster_controller.go:346-360 | clearing an upgrade leaves the stored status as it was and the one in memory without an upgrade |
| UpgradeInvariants.PassKeeps | controllers/zookeepercluster_controller.go:65-119 | one pass, whatever version it reads and whatever fails, keeps the whole stored history consistent |
| Runs.EveryStoredVersionIsConsistent | controllers/zookeepercluster_controller.go:293-360 | in every run from an empty status every stored version has unique conditions, is upgrading exactly when it has a target, is then not ready, has a different non-empty version and a stamp, has failed only while upgrading, is ready only with a version, and never has an upgrade of unknown state |
| Runs.CurrentVersionChanges | controllers/zookeepercluster_controller.go:306-326 | a version never disappears and changes only where an upgrade ends, to its target |
| Runs.CurrentVersionStays | controllers/zookeepercluster_controller.go:613-616 | once there is a version there is one ever after |
| Runs.VersionAfterUpgrade | controllers/zookeepercluster_controller.go:306-326 | after an upgrade the version is the image tag of the spec in which it began, whatever the tag was edited to meanwhile |
| Runs.OutdatedFullPass | controllers/zookeepercluster_controller.go:103-117 | a pass working on an outdated object changes no stored version of it |
| Runs.FailedPassFreezesStatefulSet | controllers/zookeepercluster_controller.go:162-192 | a pass that reads a version in which the upgrade failed alters nothing of the StatefulSet |
| Freeze.FailedWorldFreezes | controllers/zookeepercluster_controller.go:162-248 | while the stored upgrade is failed and the label names a version no older than any that is not failed, no pass alters the StatefulSet, whatever version it reads |
| Freeze.RunFreezes | controllers/zookeepercluster_controller.go:240-341 | the label condition is kept by every run in which nobody deletes the StatefulSet of a failed upgrade: the pass that stores a failure has just labelled the StatefulSet with the version it read |
| Freeze.FailedUpgradeFreezes | controllers/zookeepercluster_controller.go:162-248 | in every such run from the creation, whenever the stored upgrade is failed no pass of any kind alters the StatefulSet |
| Freeze.OnlyOutdatedPassesCreate | controllers/zookeepercluster_controller.go:162-248 | a StatefulSet deleted while the upgrade is failed is created again only by a pass over an outdated version that is not failed |
| Runs.FailedStateExit | controllers/zookeepercluster_controller.go:162-192 | a stored failed state is left only if the StatefulSet was repaired, by one write carrying the whole recovery; otherwise the stored status is what it was, so the next pass starts from the same state |
| Deadline.RecoversExactly | controllers/zookeepercluster_controller.go:162-192 | a complete pass over current data recovers a failed upgrade exactly when it could read the StatefulSet and found it repaired |
| Deadline.TimedOutExactly | controllers/zookeepercluster_controller.go:362-377 | on any status: an upgrade is on, its condition gives this reason and this count, and its stamp is more than ten minutes old |
| Readiness.ReadinessIsRecorded | controllers/zookeepercluster_controller.go:553-617 | a complete pass over current data that leaves no upgrade records the cluster as ready exactly when the count it goes by is the replicas asked for; it then has the version an upgrade ended with, the one there was or else the tag asked for, the size znode is recorded exactly from then on, and a znode it created holds the replicas |
| Readiness.ReadyMeansAllReported | controllers/zookeepercluster_controller.go:608-615 | with the StatefulSet there and no failed upgrade, ready means that it reports the replicas asked for, and a first version is the tag asked for |
| Readiness.RecoveryGoesByStoredCount | controllers/zookeepercluster_controller.go:162-192 | the pass that recovers a failed upgrade goes by the count stored before |
| Readiness.FirstSizeAgrees | controllers/zookeepercluster_controller.go:588-607 | the pass that creates the size znode and records it leaves the znode and the StatefulSet at the replicas asked for |
| Lifecycle.BirthIsReached | controllers/zookeepercluster_controller.go:65-119 | from the creation of any defaulted spec whose volumes are retained, two passes on which nothing fails with every replica reported ready between them end with the cluster ready, its version the tag asked for and its size published |
| Lifecycle.UpgradeIsReached | controllers/zookeepercluster_controller.go:293-344 | in any such cluster an edit of the tag gives the pods the new image, the next report of two revisions starts the upgrade towards that tag, and the report of one revision with every replica ready ends it with that version |
| Lifecycle.LifeIsReached | controllers/zookeepercluster_controller.go:65-119 | one such life, with its spec and reports |
| Deadline.CompletePass | controllers/zookeepercluster_controller.go:314-343 | a complete pass over current data ends a pending upgrade, records progress, lets it fail or lets it wait, decided by what the StatefulSet reports and the time |
| Deadline.StartingPass | controllers/zookeepercluster_controller.go:304-312 | a complete pass over current data starts an upgrade exactly when Upgrading is False, the cluster is ready, the revisions differ and the tag is not the current version; its target is the tag asked for, and it begins with an empty progress message stamped with the second of the pass |
| Timeout.EveryPassIsExplained | controllers/zookeepercluster_controller.go:293-344 | any pass, over any version and cut off by any error: a failure it stores means that the upgrade was pending, the revisions differed, the count was the one recorded and the deadline was past; a pending upgrade it stores has the message and stamp it had, or the second of this pass for a count not recorded before or for its start |
| Timeout.FailureIsSound | controllers/zookeepercluster_controller.go:327-341 | in every run, whatever fails in its passes, a stored failure goes back to an earlier pass that stored the stamp and saw the same count; every version since is pending with that message and stamp, and more than 599 seconds lie between the two passes |
| Deadline.TimeoutExactly | controllers/zookeepercluster_controller.go:327-341 | completeness, for complete passes over current data: the next pass declares failure exactly when the revisions still differ, the count is unchanged and the time is past the stamp of the first pass that saw this count (the pass just before it in the upgrade saw another) plus ten minutes; then more than 599 seconds have passed with every pass seeing that count |
| Deadline.UpgradeIsResolved | controllers/zookeepercluster_controller.go:314-343 | with complete passes at most P apart and a count that never falls and stays in 0..r, some pass made no later than P + (r+1)*(600s+P) after the start leaves the upgrade completed or failed, provided passes go on that long |
| OwnerLabel.CompareExactly | controllers/zookeepercluster_controller.go:131-158 | for every label the comparison is that of the numbers, and a label that is missing or no number is older than any version |
| OwnerLabel.LabelAfterWrite | controllers/zookeepercluster_controller.go:240-248 | whatever label was found, after a write it reads as the later of that and the version read, and the other labels are kept |
| OwnerLabel.PassLabels | controllers/zookeepercluster_controller.go:240-273 | one pass keeps the label naming a stored version whose spec generates the StatefulSet's replicas, template and strategy, and never moves it back |
| OwnerLabel.StalePassIsInert | controllers/zookeepercluster_controller.go:240-248 | a pass that reads a version older than the label leaves the StatefulSet as it was |
| OwnerLabel.LabelNamesItsVersion | controllers/zookeepercluster_controller.go:228-273 | the same over whole runs, as long as versions fit an integer; without deletion of the StatefulSet the label never goes back |
| Requeue.RequeuedExactly | controllers/zookeepercluster_controller.go:65-102 | a pass is requeued exactly when it read the current version of an object that is there and needs an update, and stored it; it finds no object exactly when there is none, and then changes nothing |
| Requeue.DefaultsAreStored | controllers/zookeepercluster_controller.go:85-102 | a requeued pass has stored the spec with every missing field filled in, every set one as it was and a restart that was asked for noted, and has changed nothing else |
| Requeue.OneUpdateIsEnough | controllers/zookeepercluster_controller.go:85-102 | after a requeue the stored spec needs no further update exactly when no timeout wraps, and then the next pass over it is not requeued |
| Requeue.WrappedTimeoutNeverCompletes | controllers/zookeepercluster_controller.go:85-102 | with a wrapped timeout no pass over the current version completes, and the version it leaves is of the same kind |
| Requeue.TriggerIsConsumedOnce | controllers/zookeepercluster_controller.go:86-102 | a stored restart trigger is consumed by exactly the pass that reads it and whose update takes effect, which notes the time |
| Requeue.CalmPassCompletes | controllers/zookeepercluster_controller.go:85-118 | a pass over the current version of a live object with defaults in place, on which nothing fails, is complete exactly when a changed size has a znode to be published in and a size znode still to be created has nothing in its way |
| Requeue.CompletePassDone | controllers/zookeepercluster_controller.go:65-291 | in a complete pass the configuration, account, StatefulSet, services and disruption budget calls it had to make all ended well |
| MetaRoot.LostRecordWedges | controllers/zookeepercluster_controller.go:588-616 | when all replicas are ready for the first time and the creation begins, the node is left without a record exactly when some node of the path exists already, the creation of one fails, or the record is refused or in conflict with a newer version |
| Wedge.RunWedges | controllers/zookeepercluster_controller.go:588-616 | from the creation of the object, for every defaulted spec whose volumes are retained: a pass on which nothing fails, every replica ready, and a pass whose last write is refused end there |
| Wedge.WedgeIsReached | controllers/zookeepercluster_controller.go:588-616 | such a run, given in full |
| MetaRoot.WedgeIsPermanent | controllers/zookeepercluster_controller.go:588-616 | from then on, in every run in which nobody deletes the node, no stored version is ready, has a version or is upgrading |
| Scaling.PublishedBeforeResize | controllers/zookeepercluster_controller.go:249-274 | a pass that resizes the StatefulSet found the size znode and has written exactly the new size to it, unless that one write was refused |
| Scaling.ResizedPodsLeaveExactly | docker/bin/zookeeperTeardown.sh:38-47 | a stop that reads the size znode as the resizing pass left it removes the pod's server exactly when its id is beyond the new size |
| Scaling.SizesComeApart | controllers/zookeepercluster_controller.go:249-274 | after one pass the published size and the StatefulSet's differ, having agreed before, exactly when the pass got to a resize and exactly one of the two writes was refused |
| Scaling.ResizingPass | controllers/zookeepercluster_controller.go:249-274 | after a pass that gets to a resize each of the two sizes is the new one unless its own write was refused, whatever fails later in the pass |
| Scaling.StrandedSizeRemoves | docker/bin/zookeeperTeardown.sh:38-47 | after a pass that published a smaller size and whose update of the StatefulSet was refused, a pod within the StatefulSet's size but beyond the published one removes its server when it stops |
| ScaleDown.SizeStays | controllers/zookeepercluster_controller.go:240-274 | while every version from the one the label names on asks for the size the StatefulSet has, no pass of any view resizes it or touches a znode there is |
| ScaleDown.ResizeSettles | controllers/zookeepercluster_controller.go:240-274 | a pass over the current version that changes the StatefulSet brings this about |
| ScaleDown.JointScales | docker/bin/zookeeperTeardown.sh:38-47 | in one run of operator and pods, every stop reading the znode as it then is, the members that leave are exactly those a stop removed |
| ScaleDown.ScaleDownEndToEnd | docker/bin/zookeeperTeardown.sh:38-47 | from the pass that resizes to b on, whatever passes, edits keeping the size, reports, starts, probes and stops follow, the members 1..a become exactly 1..b if and only if every server beyond b was stopped, read the size and was removed |
| Scaling.LiveClaimsSurvive | controllers/zookeepercluster_controller.go:701-758 | a pass over a version of a live object deletes a claim exactly when it collects, the ordinal is out of range of the version it read and the delete is not refused; a claim in range of the stored spec is lost only to an outdated version asking for fewer replicas |
| Scaling.FinalizerGoesLast | controllers/zookeepercluster_controller.go:701-725 | a pass that takes the finalizer away read the current version of an object being deleted, and each claim left is one whose delete was refused |
| Finalizers.FinalizerIsStored | controllers/zookeepercluster_controller.go:701-713 | a complete pass over current data of a live object leaves its finalizers as they were, and adds the operator's exactly when volumes are reclaimed, finalizers are not disabled and it was missing |
| Finalizers.DeletionCompletes | controllers/zookeepercluster_controller.go:713-722 | a pass over an object marked for deletion that lists the claims and whose update is not refused leaves exactly the claims whose delete was refused and every other finalizer, and the object is gone exactly when there is none |
| Finalizers.RunGone | controllers/zookeepercluster_controller.go:701-725 | over whole runs the object is gone exactly when it is marked for deletion and has no finalizer |
| ZuTool.GetFindsExactly | docker/zu/src/main/java/io/pravega/zookeeper/Main.kt:83-105 | get answers with the details of exactly the asked id up to their first equals sign, and finds no id that is not a member |
| ZuTool.WritesTheMembers | docker/zu/src/main/java/io/pravega/zookeeper/Main.kt:119-137 | the file written by a reconfiguration holds the member lines and nothing else |
| ZuTool.SyncReadsBack | docker/zu/src/main/java/io/pravega/zookeeper/Main.kt:40-60 | a number published after a name and an equals sign is printed by sync as that number |
| ZuTool.GetRoleExactly | docker/zu/src/main/java/io/pravega/zookeeper/Main.kt:107-117 | get-role is right exactly when the server is an observer or its address does not mention one |
| PodScripts.Pod.Start | docker/bin/zookeeperStart.sh:38-175 | the script with its flags makes exactly the specified edits, up to the one after which it is killed; not killed, it launches the server exactly as `LaunchesExactly` says |
| PodScripts.Pod.Ready | docker/bin/zookeeperReady.sh:23-91 | the nested tests of the script, in its order, give the result and the effect that `ProbeSucceedsExactly` and `ReadyExactly` are about |
| PodScripts.ProbeSucceedsExactly | docker/bin/zookeeperReady.sh:23-91 | a probe succeeds exactly when the server answers and, if the ensemble is visible, the host name has an ordinal, the id and the static configuration are on disk and a line about this server in the linked file names a role; otherwise, and when the ensemble is not visible, it edits no member, and it never edits another server's |
| PodScripts.Pod.Teardown | docker/bin/zookeeperTeardown.sh:38-47 | the ensemble after a stop is the specified one |
| Volumes.MembersAfterStart | docker/bin/zookeeperStart.sh:118-152 | a start adds this server as an observer exactly when it saw an ensemble, the volume was not complete and the registration took effect; nobody else is touched |
| Volumes.FinishedStart | docker/bin/zookeeperStart.sh:52-163 | what a start that is not killed leaves, exactly: a complete volume keeps id and dynamic configuration; any other gets the id and the registration's answer or the first server's own line; the static configuration is copied unless the registration failed |
| Volumes.HeadExactly | docker/bin/zookeeperStart.sh:162 | what is kept of a new zoo.cfg is all but its last line, less the empty lines at the end of that |
| Volumes.LaunchesExactly | docker/bin/zookeeperStart.sh:140-174 | it launches the server exactly when a registration it needs is acknowledged and there is a dynamic configuration: from before, from the registration or the first server's own |
| Volumes.DynamicAfterStart | docker/bin/zookeeperStart.sh:130-152 | only the first server writes a bootstrap participant line, and no start rewrites a complete volume's configuration |
| Volumes.StartIsIdempotent | docker/bin/zookeeperStart.sh:54-65 | once a start reached the launch, no later start on that volume, killed or not, rewrites the id or the bootstrap configuration or registers |
| Volumes.ProvisionedMeansRegistered | docker/bin/zookeeperStart.sh:111-152 | a fresh volume that looks complete belongs to a registered server, however many starts were killed or failed, unless it is the first server's |
| Volumes.StaticFollowsConfig | docker/bin/zookeeperStart.sh:154-163 | over any interleaving of starts with new config maps and server edits the file is the newest configuration less its last line, then the preserved dynamicConfigFile line |
| Volumes.OneLink | docker/bin/zookeeperReady.sh:54-55 | such a file has exactly one dynamicConfigFile line, the last, and the probe extracts its value |
| Volumes.LinkLostExactly | docker/bin/zookeeperStart.sh:157-163 | a start loses that line exactly when it is killed during the copy |
| Volumes.LostLinkStaysLost | docker/bin/zookeeperStart.sh:160-163 | a lost line never comes back by restarting, and the pod is not ready while the ensemble is visible |
| Membership.GrepFindsExactly | docker/bin/zookeeperReady.sh:56-61 | the pattern matches the line of exactly that id, although its dot matches anything |
| Membership.ReadyExactly | docker/bin/zookeeperReady.sh:47-86 | an unlisted server is not ready; a listed one is, and is promoted unless it reads participant, so a repeat does nothing; an address mentioning a participant is misread |
| Membership.Promoted | docker/bin/zookeeperReady.sh:73-81 | a promotion touches no other id, makes this one a participant exactly when the add took effect, and loses it exactly when only the removal did |
| Membership.TeardownExactly | docker/bin/zookeeperTeardown.sh:38-47 | a stop removes this server exactly when its id is on disk, the size was read and the id is beyond it |
| Membership.OrphansAreTheRemoved | docker/bin/zookeeperTeardown.sh:38-47 | for all cluster names and counts, a claim is an orphan exactly when stopping its pod with that size published removes its server |
| Membership.RunConserves | docker/bin/zookeeperTeardown.sh:43-47 | over any run at constant size, whatever fails, a member within the size stays one unless a promotion of it was interrupted |
| Membership.NextMembers | docker/bin/zookeeperReady.sh:69-81 | who is a member after one start, probe or stop, exactly, with interrupted promotions and promotions of a server that is no member included |
| Membership.ScalesExactly | docker/bin/zookeeperTeardown.sh:38-47 | while pods of complete volumes stop, start and are probed in any order, the members that leave are exactly those a stop removed; roles only rise; promotions are not interrupted and are of members |
| Membership.ScaleDownExactly | docker/bin/zookeeperTeardown.sh:38-47 | over such a run the members 1..a become exactly 1..b if and only if every server beyond b was stopped with an effective removal |
| Membership.RejoinsExactly | docker/bin/zookeeperStart.sh:118-128 | a server that is no member becomes one by starting exactly when its volume is not complete |
| ZooConfig.MakeZkConfigString | pkg/zk/generators.go:276-308 | whatever order the map is visited in, the text is the additional settings followed by the operator's; for plain settings each of the operator's 25 keys reads back as the value of its own field or its fixed text, every other key as the user's, and there is no other key |
| ZooConfig.TextMeansItsMaps | pkg/zk/generators.go:276-308 | for every such order each of the operator's 25 keys has the value of its own field or its fixed text, and every other key its additional value or none |
| ZooConfig.TextIsGeneratedExactly | pkg/zk/generators.go:276-308 | the text ends with its only dynamicConfigFile line exactly when no additional line mentions that key |
| Instances.WrappedTick | api/v1beta1/zookeepercluster_types.go:717-724 | with a tick of 2^62 and no maximum session timeout the defaulted spec has a zero timeout, which is missing again |
| Instances.EphemeralInAnyCase | api/v1beta1/zookeepercluster_types.go:277 | the storage type is read in any case of its letters |
| Instances.PromotionInterrupted | docker/bin/zookeeperReady.sh:73-81 | one probe whose removal takes effect and whose add does not: the server is gone and the probe succeeds |
| Instances.MisreadAddress | docker/bin/zookeeperReady.sh:69-81 | an observer of the address participant-1 counts as ready and is not promoted |
| Instances.MisreportedAddress | docker/zu/src/main/java/io/pravega/zookeeper/Main.kt:107-117 | a participant of the address observer-0 is reported as an observer |
| Instances.CopyCutShort | docker/bin/zookeeperStart.sh:157-163 | a restart killed after its first edit leaves an empty static configuration |
| Instances.RestartStaysOut | docker/bin/zookeeperStart.sh:118-128 | a removed second server that starts on its complete volume is no member afterwards |
| Instances.OrphanOverlooked | controllers/zookeepercluster_controller.go:738-744 | the only claim is out of range of one replica and is kept |

## Left out

- Leader election, controller wiring, informer caches other than their staleness, owner references, the YAML exporter, metrics and logging: plumbing, or in code that is not part of this model.
- The contents of services, the config map, the disruption budget and the service account in the store: syncing them is one call that may fail; external DNS annotations, service ports and types are not modelled.
- Member lists, service end points and the version text of the status: written by a pass and never read by one.
- Pod affinity, scheduling, security context, resources, volumes, containers and probes other than their presence: copied through.
- The clock is read once in a pass: a pass is taken to happen at one instant.
- The restart annotation holds the second of the restart, not its RFC 850 text.
- FailedUpgradeFreezes: speaks of runs in which nobody deletes the StatefulSet while the upgrade is failed; after such a deletion a pass over an outdated version that is not failed may create it again, as OnlyOutdatedPassesCreate says.
- ScaleDownEndToEnd: takes the pods' volumes as complete, a resize by a pass over the current version, and a size that is not changed again before the stops.
- A pass reads the current StatefulSet and claims; only the cluster object may be read from an older version.
- Deleting the cluster object: it is gone once it is marked and has no finalizer, and no new object of the same name is created.
- StatefulSet controller: revisions, counts and claims are supplied by the environment in any way.
- The ZooKeeper server, its protocol and its checks on a reconfiguration: a reconfiguration edits the map of roles at once, or fails. The server is taken to leave `zoo.cfg.dynamic` in place and to edit only the last line of its static configuration.
- The output-file argument of `zu remove`, which is the server id.
- Draining of connections, the Envoy and DNS waits, privilege dropping and killing the server: their outcome is a parameter or has no effect on what is modelled.
- A file write that is cut off leaves an empty file, not part of the text. A command that fails after `set +e` for lack of space is not modelled.
- Backslashes in `zoo.cfg`, which `echo -e` interprets on a restart, and host names whose ordinal has leading zeros, which the shell reads as octal.
- A size znode edited by hand to something other than a number: the shell would evaluate it as a variable; the model takes it as unread.
- Whitespace other than blanks, tabs and line ends around the text `zu sync` trims, and line ends other than the newline in the text its filters match.
- Java's properties syntax (comments, continuation lines, escapes): `zoo.cfg` is read as plain key=value lines.
