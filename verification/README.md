# vcluster-manager: what its operator promises

vcluster-manager runs virtual clusters on a host cluster. Its operator is written as
level-triggered reconcile loops: each pass decides from the status stored on an object plus
what it can read back from the cluster, and may be killed anywhere. Two of its protocols
destroy data: restoring a vcluster in place, and deleting one. This project models the
operator's loops and the small algorithms they rest on, and proves what holds over every
call, every pass and every run.

## How it is built

| files | what they model |
|---|---|
| `Turns` | a call of the operator, what the outside does before it, and how it ends |
| `RestoreWorld`, `RestoreSequence`, `RestoreController` | the in-place restore: the site it acts on, the destructive sequence, the reconciler of the marker |
| `RestoreAside`, `RestoreOutcome`, `RestoreSafety`, `RestoreExclusion`, `RestoreHistory`, `RestoreLimits` | what is proved of the restore: what is destroyed, what is told, what excludes what |
| `RestoreServed`, `RestoreResume` | what a request gets when its calls are served, and how Flux comes back |
| `RestoreSteps`, `RestoreOnce`, `RestoreProvenance` | the same reconciler cut into steps, any number of instances interleaved: that they answer no request twice, and that all they destroy, make and tell comes from a request and what was read for it |
| `DeletionWorld`, `Deletion` | the deletion finalizer and the cluster it acts on |
| `DeletionSafety`, `DeletionBackups`, `DeletionProgress`, `DeletionWaits`, `DeletionTells` | what is proved of deletions |
| `VClusters`, `Conditions`, `LivePath`, `LiveRuns`, `LiveTells`, `Aggregation`, `Budget` | the live path of a VCluster: sleep, admission, provisioning, observation, Ready and phase |
| `BackupSelection` | which backup covers a deletion |
| `Text`, `LineEdit`, `Kustomization`, `RbacPolicy`, `Ttl` | the GitOps text editing, and two printer and parser pairs |

The outside of the operator is a value (`DeletionWorld.Cluster`, `RestoreWorld.Site`). Before
every call the outside may do any number of things (`Event`), and a call is served, refused,
served with its answer lost, or never made because the operator was killed there (`Fate`). A
`Pass` names these turns, and the copy of the object the pass works from, which may be stale;
a status write lands only on the version its copy was read from. Each step of a reconcile is
a function on such values; the classes hold the operator's own imperative form, each method
proved to do exactly what its function says; and the theorems are lemmas about those
functions, over all passes and all runs (`Run`).

Effects that matter to a promise are recorded in a `log`, so that "only if", "before" and "at
most once" are statements about that log.

## What the code does not promise

These would be expected to hold and do not; each is a lemma, with the exact condition.

- A deferred restore request is never honoured while it is pending (`DeferredRequestStarves`):
  the busy guard returns before the poll that would notice the end of the restore it waits for.
- A failed stage may leave the HelmRelease suspended (`LeftSuspendedExactly`), and a retry may
  put Flux back with the volume gone (`RetryResumesWithoutVolume`). A stage told to have failed
  before the point of no return may have deleted the volume (`FailedStageDeletes`).
- "Volume gone" is one-sided once the external etcd is deleted (`VolumeGoneIsOneSided`), and a
  second topology read that fails leaves a control-plane StatefulSet alive
  (`ControlPlaneLeftAlive`).
- A restore whose name was never stored does not keep a second one from starting
  (`GuardReadsOnlyTheRecord`), and a reservation may be stored although nothing is called for it
  (`ReservationStoredUncalled`).
- Rancher may be given up without one attempt (`FirstPassMayGiveUp`), and giving up is not
  remembered from one pass to the next (`GivingUpIsForgotten`).
- The namespace is read twice in a deletion pass: one that reappears in between is deleted with
  no backup (`ReappearingNamespaceIsDeletedBare`), and in no other way (`BareDeletionExactly`).
- An adopted backup that began before the deletion stalls it for two hours
  (`AdoptedBackupStalls`), and one that Velero rejects is taken again
  (`RejectedBackupIsTakenAgain`; when a backup is taken at all: `StepTakesBackupExactly`).
- The comment in `internal/controller/vcluster_controller.go:304-310` says that the recovery
  window of a sleeping vcluster does not slide when a status write is lost. The code computes it
  anew on every attempt until one is stored (`WindowSurvivesLostWrite`).
- A VCluster whose spec is refused is said to be failed by `docs/crd-vcluster.md:195-196`, and the
  step that refuses it sets that phase; aggregating then writes over it, so that it is stored as
  provisioning or degraded (`RefusedSpecIsStoredFailedExactly`).
- Two vclusters checked against the same reading can exceed the ceiling together
  (`ConcurrentChecksCanExceed`, and exactly when: `ConcurrentChecksFitExactly`); adding to an
  unterminated kustomization is not undone by removing (`RemoveUndoesAdd`); a large day count
  wraps around (`DaysCanWrap`, exactly when: `NormalIsIdempotent`).

## Model

| member | source | states |
|---|---|---|
| RestoreOnce.AtMostOnce | internal/controller/veleroops_controller.go:98-226 | over every interleaving of any number of instances with stale reads, failed or unacknowledged status writes and crashes, no restore request is called for twice and no backup request triggers two backups, as long as no requester brings an old request back |
| RestoreOnce.RunAnswersOnce | internal/controller/veleroops_controller.go:98-226 | the same for every run of the passes the other theorems are about |
| RestoreOnce.AdvanceKeeps | internal/controller/veleroops_controller.go:62-94 | any step of any instance keeps what makes it so: what an instance would store comes from the version it read, and a reserved request is neither answered yet nor reserved by another |
| RestoreOnce.StoreKeeps | internal/controller/veleroops_controller.go:82-87 | an acknowledged reservation found its request unanswered and reserved by nobody |
| RestoreSteps.PassIsSteps | internal/controller/veleroops_controller.go:62-94 | the pass of one instance, alone, is its steps one after the other, so that the interleavings are those of the reconciler itself |
| RestoreSteps.AdvanceKeepsRest | internal/controller/veleroops_controller.go:62-94 | every step leaves the rest of the pass what it was, and brings its end nearer |
| RestoreOnce.CallFollowsReservation | internal/controller/veleroops_controller.go:209-226 | the sequence is only ever called after the reservation of that very request was stored and acknowledged, on a new, unobstructed, in-place request |
| RestoreProvenance.DoneAndToldForARequest | internal/controller/veleroops_controller.go:151-382 | over every such interleaving: each volume deleted and each restore made comes after the call for a request that some version of the marker carries, and after the very backup that version names was read Completed, and the restore is made from that backup; and no stored status says completed, resumed, put back or backed up but that the log shows the reading and the patches it says |
| RestoreProvenance.RunIsForARequest | internal/controller/veleroops_controller.go:151-382 | the same for every run of passes |
| RestoreResume.InterruptionIsRepaired | internal/controller/veleroops_controller.go:239-285 | after an interruption, from what the cluster shows: an active restore is adopted and a lost volume told, neither touching Flux; a bound volume has both Flux objects patched back, and is told aborted exactly when both patches are known to be made |
| RestoreResume.InterruptedComesBack | internal/controller/veleroops_controller.go:269-284 | with its calls served, one pass over an interrupted sequence that left the volume bound leaves neither Flux object suspended |
| RestoreResume.EndedRestoreResumes | internal/service/velero.go:922-959 | an in-place restore polled as ended and not remembered has both Flux objects patched back; no resume is left pending, and the restore is remembered, exactly when both patches are known to be made |
| RestoreResume.EndedComesBack | internal/service/velero.go:936-945 | with its calls served, one pass that finds the followed restore ended leaves neither Flux object suspended |
| RestoreResume.RunningRestoreIsLeftAlone | internal/controller/veleroops_controller.go:330-340 | a restore still at work is told, Flux is left as it is, and another look is asked for |
| RestoreResume.UnfinishedIsLookedAtAgain | internal/controller/veleroops_controller.go:151-167 | a restore part that leaves anything to do, or a request waiting, errs, asks for another look, or changes what is handled |
| RestoreServed.RefusedExactly | internal/service/velero.go:298-315 | a request is not attempted exactly when its backup's name is not made of the letters, digits, dots and dashes allowed, or its target is another vcluster; then nothing is done |
| RestoreServed.ServedSequenceSucceedsExactly | internal/service/velero.go:328-402 | with every call served, the restore is made exactly when the request is proper, its backup is Completed when read, and the new name is not taken |
| RestoreServed.QuiescedIsDown | internal/kubernetes/velero.go:351-394 | with Flux suspended and nothing being restored, quiescing with the topology read leaves no control plane and no etcd running |
| RestoreServed.BusyIsDeferred | internal/controller/veleroops_controller.go:173-181 | a request that comes while a restore runs is not consumed, calls nothing, is told so, and is looked at again |
| RestoreServed.ForeignIsRefused | internal/controller/veleroops_controller.go:198-207 | a request for another vcluster is consumed, calls nothing, and is told so |
| RestoreServed.ServedRequestIsHonoured | internal/controller/veleroops_controller.go:210-235 | an acknowledged request whose calls are served does every step of the trail in order, makes the restore from the backup it names, and records it under its name |
| RestoreServed.WorkIsTold | internal/controller/veleroops_controller.go:330-340 | how a restore at work shows in the status |
| RestoreServed.PendingIsTold | internal/controller/veleroops_controller.go:342-361 | how a restore that ended, Flux not back, shows: pending for two hours from when it was first seen, then given up |
| RestoreServed.EndIsTold | internal/controller/veleroops_controller.go:363-381 | how a restore that ended, Flux back, shows: completed or failed, the volume destroyed or not |
| RestoreServed.BackupRequestIsTaken | internal/controller/veleroops_controller.go:98-125 | an acknowledged backup request is asked for once, under the name then recorded, and a failure to ask is told |
| RestoreServed.BackupIsToldByPhase | internal/controller/veleroops_controller.go:127-147 | a backup awaited is told by the phase it is read in, and looked at again exactly while it has not ended |
| RestoreSafety.VolumeSafety | internal/controller/veleroops_controller.go:239-285 | over every run for one request with one controller: if Flux was put back after the data volume was deleted, the restore made for the request has ended; at most one restore is made |
| RestoreSafety.PassIsSafe | internal/controller/veleroops_controller.go:62-94 | one pass keeps the whole invariant, killed or refused anywhere, from any copy no older than the request |
| RestoreSafety.CreateSequenceIsSafe | internal/service/velero.go:298-402 | inside the sequence Flux is put back only while nothing was deleted, and the volume is deleted only with the HelmRelease suspended |
| RestoreSafety.InspectionTells | internal/service/velero.go:721-750 | after an interruption, a volume read bound with no active restore means putting Flux back is safe, and an active restore is the request's own |
| RestoreSafety.PollIsSafe | internal/service/velero.go:922-959 | polling puts Flux back only after a restore that ended, the request's own once the volume was deleted |
| RestoreOutcome.OutcomeIsTold | internal/service/velero.go:328-384 | from an intact, deployed start, whatever calls are refused, lost or cut off: which steps were done, in which order and to which volume, for every outcome; success and "volume gone" come with exactly the full trail |
| RestoreOutcome.ToldIsDoneExactly | internal/service/velero.go:328-384 | the volume is deleted exactly on success and on "volume gone", unless the sequence comes to delete it and that answer is lost, and then never |
| RestoreOutcome.FailedStageDeletes | internal/service/velero.go:355-364 | a failed stage deleted the volume after all exactly when the answer to its deletion was lost, and Flux is put back over it |
| RestoreOutcome.DestructionIsRecorded | internal/controller/veleroops_controller.go:290-312 | the status tells the volume destroyed exactly when the sequence deleted it and knows of no restore, and asks for a new request |
| RestoreOutcome.QuiesceTrail | internal/kubernetes/velero.go:351-394 | quiescing leaves the volume bound and deletes exactly the workloads of the topology it reports |
| RestoreOutcome.VolumeTrail | internal/service/velero.go:354-384 | the last two stages: which outcome goes with a deleted volume and with a created restore |
| RestoreOutcome.AbortTrail | internal/service/velero.go:413-417 | aborting deletes nothing and leaves the volume bound |
| RestoreExclusion.OneRestoreAtATime | internal/controller/veleroops_controller.go:169-181 | with one controller and no status write lost after a creation, at most one restore is active, and it is the recorded one, recorded as not ended |
| RestoreExclusion.StartTracks | internal/controller/veleroops_controller.go:169-235 | a request starts only when nothing runs, and leaves the new restore recorded in memory |
| RestoreExclusion.FollowTracks | internal/controller/veleroops_controller.go:318-382 | a polled terminal phase is recorded only for a restore that is no longer active |
| RestoreExclusion.RecoverTracks | internal/controller/veleroops_controller.go:239-285 | recovering never writes a record that loses an active restore |
| RestoreExclusion.SequenceTold | internal/service/velero.go:369-402 | the sequence adds one restore exactly when it reports its name, under a name not taken |
| RestoreHistory.FirstTerminalIsFixed | internal/controller/veleroops_controller.go:342-345 | over every run, the time a restore was first seen ended never moves while its request is the handled one |
| RestoreHistory.ResumeStopsAtFirstOverdue | internal/controller/veleroops_controller.go:342-361 | over every run, once the first time is stored, a pending resume is given up at the first successful poll more than two hours after it and at no earlier one, while the request is the handled one |
| RestoreHistory.PendingPoll | internal/controller/veleroops_controller.go:318-361 | one poll: it gives up exactly when the stored time is that old, otherwise the wait goes on from where it began and another look is asked for |
| RestoreHistory.GivenUpIsFinal | internal/controller/veleroops_controller.go:318-357 | a resume given up stays so over every run without a new request: the record never changes, no restore is made, and the restore part of every pass on the current version does nothing |
| RestoreHistory.MisplacedMarkerIsInert | internal/controller/veleroops_controller.go:67-76 | on a marker outside its vcluster's namespace, over every run and whatever is asked: the operator makes no call and consumes no request |
| RestoreHistory.MisplacedIsTold | internal/controller/veleroops_controller.go:67-76 | and every pass over it that ends well leaves it told so |
| RestoreHistory.MarkerAtHomeIsReconciled | internal/controller/veleroops_controller.go:62-94 | a marker in its vcluster's namespace, under a valid name, is reconciled: its runs are those of the other theorems |
| RestoreHistory.OperatorIsNoTenant | internal/service/vcluster.go:40-65 | no marker commands anything in the operator's own namespace, whatever its name, over every run |
| RestoreHistory.DeferredRequestStarves | internal/controller/veleroops_controller.go:155-181 | while a request is pending behind a restore recorded as running, the record never changes and no restore is made, in any run |
| RestoreLimits.LeftSuspendedExactly | internal/kubernetes/velero.go:563-587 | a failed stage leaves the HelmRelease suspended exactly when it was so or its suspension took effect, and either suspending failed or putting it back took no effect |
| RestoreLimits.RetryResumesWithoutVolume | internal/service/velero.go:346-365 | with the volume already gone, Flux is put back over it exactly when some call of quiescing, or the deletion of the volume that is not there, fails before any is cut off, and the patch takes effect |
| RestoreLimits.PutBackExactly | internal/service/velero.go:346-365 | the same whatever the state of the volume, which plays no part |
| RestoreLimits.RetryWitnesses | internal/service/velero.go:350-364 | two such inputs: a control plane that cannot be deleted, and a refused volume deletion |
| RestoreLimits.VolumeGoneIsOneSided | internal/kubernetes/velero.go:754-768 | a volume reported bound is bound; one reported gone may be intact, exactly when the etcd of an external etcd is already deleted |
| RestoreLimits.ControlPlaneLeftAlive | internal/kubernetes/velero.go:188-221 | quiescing leaves a control-plane StatefulSet alive exactly when etcd is external and the second topology read was not served |
| RestoreLimits.GuardReadsOnlyTheRecord | internal/controller/veleroops_controller.go:173-181 | once its reservation is acknowledged, a request is called for exactly when the recorded name and phase are not those of a running restore, whatever really runs |
| RestoreLimits.ReservationStoredUncalled | internal/controller/veleroops_controller.go:151-224 | a request whose reservation is not acknowledged is not called, and counts as handled exactly when the reservation's write, a backup request's or the pass's last one lands |
| RestoreLimits.ReservationStoredUncalledAlone | internal/controller/veleroops_controller.go:222-224 | with nobody else writing: exactly when the reservation's answer was lost, or it was refused and the last write takes effect |
| RestoreSequence.Service.CreateVeleroRestore | internal/service/velero.go:298-402 | the sequence with its checks, stages, aborts and outcomes, as the outcome table describes it |
| RestoreSequence.Service.QuiesceVClusterForInPlaceRestore | internal/kubernetes/velero.go:351-394 | detects the topology, reads selectors first, deletes control plane and external etcd, stops at the first failure |
| RestoreSequence.Service.AbortInPlace | internal/service/velero.go:413-417 | puts Flux back with two patches, best effort |
| RestoreController.VeleroOpsReconciler.ReconcileMarker | internal/controller/veleroops_controller.go:62-94 | the placement guard, restore before backup, one final status write, and the soonest delay |
| RestoreController.VeleroOpsReconciler.ReconcileRestoreRequest | internal/controller/veleroops_controller.go:151-167 | start, follow, recover or nothing, by annotation and status |
| RestoreController.VeleroOpsReconciler.StartRestoreRequest | internal/controller/veleroops_controller.go:169-235 | busy guard, target guard, reservation stored before the call, outcome recorded (what that comes to: `RestoreServed.BusyIsDeferred`, `ForeignIsRefused`, `ServedRequestIsHonoured`; whose backup is used: `RestoreProvenance`) |
| RestoreController.VeleroOpsReconciler.RecoverInterrupted | internal/controller/veleroops_controller.go:239-285 | adopt an active restore, leave a lost volume suspended, or put Flux back (what that comes to: `RestoreResume.InterruptionIsRepaired`) |
| RestoreController.VeleroOpsReconciler.Follow | internal/controller/veleroops_controller.go:318-334 | polls until the restore ended and Flux is back (what that comes to: `RestoreResume.EndedRestoreResumes`, `RunningRestoreIsLeftAlone`) |
| RestoreController.VeleroOpsReconciler.TakeView | internal/controller/veleroops_controller.go:330-381 | what a polled view makes of the status and of the next delay |
| RestoreController.VeleroOpsReconciler.UpdateStatus | internal/controller/veleroops_controller.go:82-87 | a status write lands on the version it was read from only |
| Turns.Soonest | internal/controller/veleroops_controller.go:393-404 | no delay only when neither part wants one, else the delay of one of them, no later than either |
| DeletionSafety.DeletionIsJustified | internal/controller/vcluster_finalizer.go:143-202 | in every run: a namespace is deleted only after, in that pass, the object's protection was read lifted, the namespace's own was read unset or was lifted, the teardown was done, and a covering backup, an absence, or an annotation that does not say no was seen; no incarnation is deleted twice; the finalizer goes only after the absence, or ten minutes of termination, was seen and the conclusion stored |
| DeletionSafety.NoDestructionWithoutNet | internal/controller/vcluster_finalizer.go:341-438 | with annotations that say no, or none, and outside re-creation or lost backups: every deletion had its covering backup, and a namespace condemned by the operator still has one |
| DeletionSafety.OverrideMeans | internal/controller/vcluster_finalizer.go:321-339 | an annotation lifts the demand for a backup exactly when it is not, up to space around it and letter case, one of "", "false", "no", "non", "0", "off" |
| DeletionSafety.OverrideDecides | internal/controller/vcluster_finalizer.go:353-374 | with a namespace seen, or not readable: such an annotation lets the step go on only when the listed backups cover the deletion, and any other lets it go on, and is told |
| DeletionSafety.MisplacedIsOnlyReleased | internal/controller/vcluster_controller.go:153-167 | over every run, an object outside its place has nothing unpaired, saved or destroyed: it is only released |
| DeletionSafety.PassKeeps | internal/controller/vcluster_finalizer.go:143-175 | one pass keeps the invariant, killed anywhere and from any copy |
| DeletionSafety.BackupKeeps | internal/controller/vcluster_finalizer.go:341-438 | the backup step goes on only with a covering backup, an override or nothing to save |
| DeletionSafety.RemovalKeeps | internal/controller/vcluster_finalizer.go:528-596 | the last step is over only once the namespace was seen gone or overdue, and deletes only a namespace never deleted before |
| DeletionBackups.AtMostOneBackup | internal/controller/vcluster_finalizer.go:376-437 | over any number of passes, crashes and lost writes the finalizer creates at most one backup, if Velero keeps its backups and dates those that end |
| DeletionBackups.FindableIsFound | internal/service/vcluster_deletion.go:253-301 | a backup not started before the deletion, dated once over, is always found again |
| DeletionBackups.TakesBackupExactly | internal/controller/vcluster_finalizer.go:391-437 | a backup is taken exactly when none in the list counts for the deletion, the status does not say one was started, and the call takes effect |
| DeletionBackups.StepTakesBackupExactly | internal/controller/vcluster_finalizer.go:341-437 | so for the whole step, from what it read on its way |
| DeletionBackups.RejectedBackupIsTakenAgain | internal/controller/vcluster_finalizer.go:426-437 | backups Velero rejected never count, so another one is taken exactly when the status does not say one was started and the call takes effect |
| DeletionProgress.DeletionEnds | internal/controller/vcluster_finalizer.go:143-202 | every endless schedule of cooperative passes releases the object after finitely many, whether or not Rancher ever forgets the cluster, and each pass until then brings the next one about |
| DeletionProgress.PassProgress | internal/controller/vcluster_finalizer.go:143-175 | each cooperative pass releases the object, or decreases a seven-part lexicographic measure over backups, namespace, Rancher and waits and asks for another look or changes the stored status |
| DeletionProgress.JudgedProgress | internal/controller/vcluster_finalizer.go:391-437 | the backup step goes on, or brings the backups nearer to one that covers the deletion |
| DeletionProgress.RemovalStepProgress | internal/controller/vcluster_finalizer.go:528-596 | the removal ends, condemns the namespace, or waits within its ten minutes |
| DeletionWaits.StopsAtFirstOverdue | internal/controller/vcluster_finalizer.go:255-277 | the wait for Rancher stops at the first unresolved pass more than ten minutes after it began, and only there |
| DeletionWaits.AnchorNeverMoves | internal/controller/vcluster_finalizer.go:660-666 | while Rancher is waited for and the status gets stored, the time the wait began never moves |
| DeletionWaits.UnresolvedPass | internal/controller/vcluster_finalizer.go:255-277 | an unresolved pass gives up exactly when the stored wait is older than ten minutes, and then without asking again |
| DeletionWaits.RancherGoesOnExactly | internal/controller/vcluster_finalizer.go:235-311 | the Rancher step goes on exactly when there is no Rancher to leave, it was waited for more than ten minutes, or it forgot the cluster and no cleanup job younger than that runs |
| DeletionWaits.AttachedIsWaitedFor | internal/controller/vcluster_finalizer.go:188-202 | a pass that finds Rancher attached, or such a job, stops there: it may ask to unpair, and does nothing else |
| DeletionWaits.FirstPassMayGiveUp | internal/controller/vcluster_finalizer.go:256-268 | the first pass gives up with no attempt to unpair, exactly when an observation left the condition True that long ago |
| DeletionWaits.GivingUpIsForgotten | internal/controller/vcluster_finalizer.go:264-268 | after a stored give-up, the next unresolved pass unpairs again and starts another wait |
| DeletionWaits.AdoptedBackupStalls | internal/controller/vcluster_finalizer.go:416-424 | with no backup left to find but one said to be in progress, the step neither goes on nor takes one, until two hours later |
| DeletionWaits.AdoptedThenIgnored | internal/service/vcluster_deletion.go:259-278 | a backup begun before the deletion is adopted while it runs and ignored once it ends |
| DeletionWaits.BareDeletionExactly | internal/controller/vcluster_finalizer.go:188-202 | a pass with no override deletes a namespace without having found the deletion covered exactly when its first read saw none and its last step, which reads again, deletes one |
| DeletionWaits.ReappearingNamespaceIsDeletedBare | internal/controller/vcluster_finalizer.go:353-358 | a namespace absent at the first read and back at the second is deleted with no backup and no override |
| DeletionTells.BackupsDecide | internal/controller/vcluster_finalizer.go:398-418 | where the listed backups take the step: a running one is waited for two hours, one in time covers the deletion, a failed one in time stops it; each is told |
| DeletionTells.NoBackupIsAskedFor | internal/controller/vcluster_finalizer.go:429-437 | with nothing listed that counts and none said to be started, one is asked for, and what becomes of asking is told |
| DeletionTells.LastLookDecides | internal/controller/vcluster_finalizer.go:563-596 | the deletion is over exactly when the namespace is gone, or terminating for more than ten minutes, and is told which |
| DeletionTells.ObstacleStops | internal/controller/vcluster_finalizer.go:480-524 | a protection that cannot be read or lifted, or a refused teardown, stops the last step before anything is torn down, and is told for what it is |
| DeletionTells.SeenAliveIsDeleted | internal/controller/vcluster_finalizer.go:528-554 | past that, a namespace is deleted exactly when just seen alive, still there, and the deletion takes effect; a refusal is told |
| DeletionTells.StageIsTold | internal/controller/vcluster_finalizer.go:177-202 | the stage told is that of the step the sequence stopped at, and the object is still told as being deleted |
| Deletion.VClusterReconciler.ReconcileDeletion | internal/controller/vcluster_finalizer.go:143-175 | the status is stored before the finalizer goes, and the finalizer goes only when the sequence is over |
| Deletion.VClusterReconciler.RunDeletionSequence | internal/controller/vcluster_finalizer.go:188-202 | the four steps in order, stopping at the first that is not done |
| DeletionSafety.ProtectedIsLeftAlone | internal/controller/vcluster_finalizer.go:143-231 | a pass over a protected object makes no call but to store its status, says why, and asks for no other look |
| Deletion.VClusterReconciler.ReconcileRancherTeardown | internal/controller/vcluster_finalizer.go:235-311 | every branch of the unpairing, its waits and what it writes |
| Deletion.VClusterReconciler.ReconcileDeletionBackup | internal/controller/vcluster_finalizer.go:341-389 | nothing to save, an override, or an inspected backup (which annotation is an override: `DeletionSafety.OverrideMeans`) |
| Deletion.VClusterReconciler.ActOnBackup | internal/controller/vcluster_finalizer.go:391-437 | completed, failed, running, launched or to be taken |
| Deletion.VClusterReconciler.ReconcileFinalTeardownAndNamespaceRemoval | internal/controller/vcluster_finalizer.go:480-517 | protection read, then lifted, before anything is torn down |
| Deletion.VClusterReconciler.TearDownAndRemove | internal/controller/vcluster_finalizer.go:518-561 | the namespace is deleted only when just seen alive, then looked at again |
| Deletion.VClusterReconciler.Conclude | internal/controller/vcluster_finalizer.go:563-596 | gone, unknown, overdue or terminating |
| BackupSelection.PickDeletionBackup | internal/service/vcluster_deletion.go:253-301 | the loop over three accumulators computes the selection |
| BackupSelection.PickIsTheRule | internal/service/vcluster_deletion.go:214-233 | for every list: the latest running backup, else the latest completed at or after the deletion, else the latest failed, the first one listed among equals, else none |
| BackupSelection.CompletedMeansCovered | internal/service/vcluster_deletion.go:286-300 | the verdict "completed" means a Completed backup dated at or after the deletion and none still running |
| BackupSelection.VerdictIsOfABackup | internal/service/vcluster_deletion.go:253-301 | a verdict is of one of the backups, under its name, in its phase and dated as it is, completed or failed as that phase says; there is none exactly when every backup is over and out of time |
| BackupSelection.OrderDoesNotMatter | internal/service/vcluster_deletion.go:253-301 | category and chosen time do not depend on the order of the list |
| Conditions.OrderDoesNotMatter | internal/controller/vcluster_controller.go:362-370 | in a list with one condition per type, what is found does not depend on its order |
| Aggregation.AggregateVClusterStatus | internal/controller/vcluster_status.go:363-406 | Ready and the phase are written as the aggregation says, nothing else |
| Aggregation.FirstFalseBlocking | internal/controller/vcluster_status.go:411-418 | the first blocking condition that is False, in the order their messages win |
| Aggregation.AggregateIsConjunction | internal/controller/vcluster_status.go:363-447 | Ready is the three-valued conjunction of the blocking conditions, an absent ResourcesProvisioned counting as Unknown; the phase is Ready exactly with it; nothing else changes |
| Aggregation.ReadyNamesItsCause | internal/controller/vcluster_status.go:363-406 | the reason of Ready names a blocking condition that has that very status |
| Aggregation.StoredOrderDoesNotMatter | internal/controller/vcluster_status.go:363-406 | neither Ready nor the phase depends on the order conditions are stored in |
| Aggregation.ObserveInterval | internal/controller/vcluster_status.go:453-467 | the slow rate exactly when the phase is Ready and nothing is moving |
| LiveRuns.EveryStoredStatusIsSound | internal/controller/vcluster_controller.go:146-285 | over every run: a chart once recorded stays recorded, such a vcluster is never stored as Failed, Provisioning or new, a sleeping one has its window and is not ready, and Ready and the phase agree |
| LiveRuns.PassIsSound | internal/controller/vcluster_controller.go:211-285 | one pass keeps that, through refusals, errors, sleep and wake-up |
| LiveRuns.RefusalShowsInReady | internal/controller/vcluster_controller.go:245-265 | a refusal leaves Ready False, unless it is the budget's and the vcluster already runs |
| LiveRuns.RunningIsObservedThoughRefused | internal/controller/vcluster_controller.go:226-244 | a running vcluster refused by the budget is observed like any other and its Ready does not turn for it |
| LiveRuns.WindowSurvivesLostWrite | internal/controller/vcluster_controller.go:297-324 | the recovery window survives a lost write exactly when one was already stored or no time passed |
| LiveRuns.WindowStaysWhileAsleep | internal/controller/vcluster_controller.go:292-335 | once stored, the window stays for as long as the vcluster sleeps |
| LiveTells.SleepsExactly | internal/controller/vcluster_controller.go:211-335 | after a pass a vcluster sleeps exactly when it is asked to and could be put to sleep, or slept and is asked to, or could not be woken up |
| LiveTells.SleepTells | internal/controller/vcluster_controller.go:292-335 | falling asleep opens a window of seven days unless one is open, waking up closes it, and a cluster that does not follow is an error, told, that changes neither |
| LiveTells.ProvisionsExactly | internal/controller/vcluster_provision.go:94-137 | provisioning goes on, and is told applied, exactly when the type is implemented, the name valid, the objects rendered, and every one of them applied; which of these failed is told |
| LiveTells.RefusedSpecIsStoredFailedExactly | internal/controller/vcluster_provision.go:94-114 | a refused spec is told in its condition, but is stored as failed exactly when an operator without a budget finds a refusal of the budget standing on a vcluster that never ran |
| LiveTells.BudgetRefusalIsStored | internal/controller/vcluster_controller.go:218-260 | a vcluster the budget refuses before it ever ran is stored failed, told why, and looked at again in five minutes, nothing else being told of it |
| LiveTells.FailsExactly | internal/controller/vcluster_controller.go:211-285 | a pass errs exactly when sleep or wake-up fails, or, awake, when the check cannot be made, an object is not rendered or applied, or an integration fails |
| LiveTells.IntegrationsTell | internal/controller/vcluster_integrations.go:55-72 | each integration tells its own condition whatever becomes of the others; they fail when one does; the next look is the soonest any of them wants |
| LiveTells.ObservedTakesWhatIsRead | internal/controller/vcluster_status.go:77-142 | after an observation each value is the one read, or else the last one; Ready comes True only on Flux objects really read ready |
| LiveTells.AggregatedPhase | internal/controller/vcluster_status.go:420-447 | the phase: ready with Ready, degraded once it ran, before that failed when the budget refused it, else provisioning |
| LiveTells.EveryPassIsStored | internal/controller/vcluster_controller.go:153-206 | over every run, a pass whose last write lands stores just this: of a misplaced object that it is misplaced, of one whose finalizer is not yet stored nothing, and of any other the outcome of the pass, failures included |
| VClusters.ValidNameExactly | internal/service/vcluster.go:59-65 | a name is valid exactly when it is a small letter followed by small letters, numerals and dashes, and not the operator's own |
| LivePath.VClusterReconciler.Reconcile | internal/controller/vcluster_controller.go:146-206 | the finalizer first, then the steps, and the status stored on every path, failures included |
| LivePath.VClusterReconciler.ReconcileAll | internal/controller/vcluster_controller.go:211-285 | the order of the steps and where each outcome stops |
| LivePath.ReconcileSuspend | internal/controller/vcluster_controller.go:292-335 | sleep, wake-up and what each writes |
| LivePath.ReconcileProvisioning | internal/controller/vcluster_provision.go:94-137 | refusals, failures at the first object not applied, and the phase |
| LivePath.ReconcileIntegrations | internal/controller/vcluster_integrations.go:55-72 | three independent steps, errors joined, the shortest delay |
| LivePath.ReconcileObservedState | internal/controller/vcluster_status.go:64-69 | what was read, aggregated |
| LivePath.ApplyObservation | internal/controller/vcluster_status.go:77-142 | what was not read keeps its last value |
| LivePath.ToldMeans | internal/controller/vcluster_status.go:167-312 | an observation reaches three conditions and no other, and when each of them turns True |
| LivePath.RefinesOnlyTrue | internal/controller/vcluster_status.go:263-281 | only a True is refined, and it stays True exactly when ArgoCD's own object is ready |
| Budget.SumVClusterQuotaHardLimits | internal/kubernetes/budget.go:28-77 | the sum over the other vclusters in every dimension, and no result exactly when a counted quota is unreadable |
| Budget.CheckResourceBudget | internal/controller/vcluster_budget.go:76-152 | the verdict and what it writes in the status (what is charged: `Budget.ChargedIsWritten`; when it admits: `Budget.AdmittedExactly`) |
| Budget.WithinBudgetMeans | internal/controller/vcluster_budget.go:191-212 | a charged request passes exactly when every dimension capped and asked for is readable and has room |
| Budget.ChargedIsWritten | internal/controller/vcluster_budget.go:154-187 | a request is charged exactly what provisioning writes for it, dimension by dimension: the defaults without a quotas block or for an empty field, nothing when quotas are off |
| Budget.AdmittedExactly | internal/controller/vcluster_budget.go:76-152 | a request is admitted exactly when provisioning writes nothing for it, or a ceiling is set and every capped dimension it writes in is readable and has room |
| Budget.CeilingHolds | internal/controller/vcluster_budget.go:76-152 | over every run of admissions, each writing what provisioning writes in place of the vcluster's old quota, every capped dimension stays within the ceiling |
| Budget.OwnQuotaIsNeutral | internal/kubernetes/budget.go:24-41 | a vcluster's own quotas never change its verdict |
| Budget.ConcurrentChecksFitExactly | internal/controller/vcluster_budget.go:76-152 | two vclusters admitted on one reading: each alone keeps the ceiling, both together exactly when what the others hold leaves room for both charges |
| Budget.ConcurrentChecksCanExceed | internal/controller/vcluster_controller.go:369-374 | two requests both admitted on one reading of an empty cell, which together exceed it |
| Kustomization.UpdateKustomization | internal/gitops/generator.go:348-381 | adds or removes one listed line |
| Kustomization.AddEntry | internal/gitops/generator.go:354-372 | unchanged when listed, else after the last entry, else at the end |
| Kustomization.RemoveEntry | internal/gitops/generator.go:373-380 | drops the lines that list the vcluster |
| Kustomization.AddedAfterLastEntry | internal/gitops/generator.go:358-369 | the new line goes right after the last one that mentions a vcluster, nothing else moving |
| Kustomization.AddedAtTheEnd | internal/gitops/generator.go:371 | where no line mentions one, it goes at the end, with an end of line |
| Kustomization.ListedExactly | internal/gitops/generator.go:349-356 | a line lists a vcluster exactly when it is its entry up to the space around it, never one whose name merely begins like it |
| Kustomization.RemoveUndoesAdd | internal/gitops/generator.go:348-381 | removing what was added gives the content back exactly when it is empty, newline-terminated or already has an entry |
| Kustomization.AddListsOnce | internal/gitops/generator.go:348-381 | after adding, the vcluster is listed exactly once, unless its line was glued to an unterminated one |
| Kustomization.AddIsIdempotent | internal/gitops/generator.go:354-372 | adding twice is adding once, exactly when the first addition listed the vcluster |
| Kustomization.RemoveDropsOnlyTheEntry | internal/gitops/generator.go:373-380 | after removing, the vcluster is not listed and every other line keeps its order |
| Kustomization.AddKeepsOtherLines | internal/gitops/generator.go:354-372 | adding keeps every other line, in order |
| RbacPolicy.BuildPolicyLines | internal/gitops/generator.go:218-245 | prints one grant for each trimmed, valid group |
| RbacPolicy.ParseRBACGroups | internal/gitops/parser.go:256-267 | reads the groups granted by the policy lines |
| RbacPolicy.GrantedExactly | internal/gitops/generator.go:155-245 | what is granted is exactly the listed groups, without the space around them, that are non-empty and made of the allowed characters alone |
| RbacPolicy.PrintedOneMore | internal/gitops/generator.go:244 | one group more prints one line more, at the end, that gives it the admin role |
| RbacPolicy.PolicyRoundTrip | internal/gitops/generator.go:155-245 | reading the printed policy gives the trimmed, valid groups, in order, for every list |
| RbacPolicy.StoredPolicyRoundTrip | internal/gitops/parser.go:241-270 | so does reading it with the indentation removed |
| RbacPolicy.GrantedIsStable | internal/gitops/generator.go:155-163 | a list of valid groups is granted as it is |
| Ttl.DurationRoundTrip | internal/handlers/handlers.go:555-576 | printing a whole-minute duration and reading it back preserves it exactly when it is positive |
| Ttl.ShownInLargestUnit | internal/handlers/handlers.go:555-576 | whole minutes are shown in days when they are whole days, else in hours when whole hours, else in minutes |
| Ttl.NormalIsIdempotent | internal/gitops/objects.go:309-328 | printing after reading is idempotent exactly on texts whose duration fits 64-bit nanoseconds |
| Ttl.ShortMeans | internal/gitops/objects.go:309-328 | reading a short text yields the duration it names exactly when 64 bits hold it |
| Ttl.DaysCanWrap | internal/gitops/objects.go:320-321 | a large number of days wraps around to eight hours |

## Left out

- Conditions carry type, status, reason and transition time; their messages are not modelled,
  nor are events, metrics and audit lines.
- Quantities are integers in one unit with a partial parse function; the order Go iterates a map
  in is not modelled, the three dimensions being independent.
- TTL durations with a fractional part, and the rounding of a duration that is not a whole
  number of minutes, are not modelled; lower-casing is ASCII.
- Restore and backup names are given; their truncation to 63 characters, which could make two
  collide, is not modelled.
- The placement of the VCluster is a flag of the object being deleted, and a name and a flag on
  the live path; that of the marker is its name and namespace.
- LivePath.ReconcileIntegrations: the Vault, Keycloak and pairing steps are each given a finding, because
  they only talk to those systems; how the findings are joined is modelled.
- Between two of its own accesses to the marker, an instance of the interleavings of
  `RestoreSteps` does its calls in one step: the others' effects on Flux, workloads and volumes
  fall before or after it.
- Waiting for pods to terminate has no effect on the outcome and is not modelled.
- The background watcher of the web application (`resumeAfterInPlaceRestore`) is not modelled:
  the operator never starts it, so the remembered outcome of a resume is always a success.
- The web application's direct deletion path, HTTP handlers, Git commits, and the clients of
  GitLab, Keycloak, Vault, Rancher and S3 appear only through the answers they give.
- Observed values that decide nothing (pod count, usage, last backup) are not in the status.
- The theorems over runs hold in the worlds their `requires` describe. Volume safety: no other
  restore request in the run, no copy of the marker older than the request, no stray volume, and a
  volume deletion that fails has no effect. One restore at a time: a creation that fails has no
  effect. At most one backup: one operator at a time. Termination: calls are served, and meanwhile
  nobody else takes backups or edits the object. The ceiling: each admitted quota is written before
  the next check.
