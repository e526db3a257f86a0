# Verification model of the backup operator

The operator reconciles `Backup` and `Restore` resources against Velero. All passes share one lease, one
maintenance flag and a set of workloads, and every pass can end after any API call: through an error, a
conflict, a lost answer or a crash. This project models that system and proves what holds in all its runs.

## How the model is built

* **One transition system.** `Cluster` is the state that the workers share, and what one API call does to it.
  `Leases`, `BackupWorkflow`, `RestoreWorkflow` and `SyncWorkflows` say for each point of a pass which call comes
  next and what the pass does with the answer. `System` lets any number of workers, crashes and outside events
  interleave, one call at a time. Each call may succeed, be refused, or take effect and still report an error.
  A run (`System.IsRun`) is any sequence of such steps from an initial state.
* **The controllers as methods.** `LeaseManager`, `BackupController`, `RestoreController` and `Followers` are
  written the way the source is written: stages that make calls and return early, stage lists, a loop that
  runs them. A `Session` lets everybody else act between any two calls, takes only the step that the transition
  system prescribes for the worker, and never loses the pass. A stage that says Next has led the transition system
  to the start of the next stage of the list, and one that does not has led it to the end of the pass; skipping a
  call would leave it behind. `Reconcile` returns with one whole pass made (`Sessions.Session.IsDone`). So every
  execution is a part of a run (`Sessions.HistoryIsRun`), and the theorems about runs hold for it. A process that
  dies is a prefix of such an execution, followed by a crash of the transition system.
* **The invariant.** `Invariant` says what holds of the stored resources and the lease, and of what each worker
  knows between two calls. `Rely`, `Stability`, `BackupProof`, `RestoreProof` and `Preservation` prove that every
  step keeps it: a call is only made when its guard holds, guarded calls do not disturb what other workers know,
  and each pass learns from each answer what its next call needs. `History` adds what the calls made so far in a
  pass say about the next one.
* **The theorems.** `Safety`, `LeaseReads`, `Outcomes`, `Removal`, `Holders` and `Progress` are statements about every
  state or step of every run, in which every read of the lease may be outdated. `Termination`, `Success` and
  `DeletionPasses` say what undisturbed passes achieve. `Witnesses` has concrete runs for what can go wrong.
* **Parts with their own state.** `Scale` with `Decimal` and `ScaleHistory` (replica counts in labels), `Retention`
  with `RetentionLaws` and `RetentionHistory` (what the garbage collection removes), `StatusWriter` (the status
  write with retry on conflict).

## What turned out not to hold as promised

* A retention calendar that the configuration check accepts may give one backup to two intervals, because the day
  offsets wrap around in a 64-bit duration (`RetentionLaws.FarCalendarDoublesBackups`). The exact condition for the
  partition is `RetentionLaws.PartitionIffApart`.
* A backup that was kept as the oldest of its interval can be removed by the next run, although its age is still in
  the interval, if the first run read the clock on both sides of midnight (`RetentionHistory.MidnightHappens`, on the
  shipped calendar). The exact condition on the readings is `RetentionHistory.OldestStaysIff`.
* Removing the saved replica counts while a workload may still be scaled down loses them
  (`ScaleHistory.EarlyRemovalLosesTheCount`, exact conditions `ScaleHistory.RoundTripIff` and
  `ScaleHistory.EarlyFinalizeIff`). The restore workflow never does that (`Safety.RemovalFollowsScaleUp`). A missing
  replica count comes back as 0 (`ScaleHistory.CycleIff`).
* A scale-down succeeds although workloads go on running if they still carry a saved count, as after a restore that
  was deleted between its scale-up and the removal (`ScaleHistory.LeftoverKeepsRunning`, exact condition in
  `Scale.Manager.ScaleDown`).
* `Succeeded=True` of a restore has a second writer, the migration of an older operator's scalar status
  (`Safety.SuccessMeansRecovered`), and a restore that only carries that scalar is no longer terminal once the
  deleting status was written (`LeaseLaws.DeletingStatusKeepsTheEndIff`).
* An outdated read of the lease is harmless in `Acquire` and where a version is deleted
  (`Safety.ActiveHolderKeepsLease`, `LeaseLaws.OutdatedDeletionIsHarmless`), but not in `Holds` and not at the start of
  `Release`. After an outdated `Holds` a backup switches maintenance mode off while somebody else holds the lease
  (`Witnesses.OutdatedHoldsSwitchesOff`, exact condition `Holders.SwitchWithoutLeaseIff`). After an outdated `Release` a
  backup ends, or goes, while the lease names it (`Witnesses.OutdatedReleaseEndsWithLease`,
  `Witnesses.OutdatedReleaseLeavesLease`, exact condition `LeaseReads.StillNamedIff`).
* The check for other running provider backups is skipped by a pass that saw its own provider backup before, or whose
  run had started; it may then create one without looking while another one is running
  (`Witnesses.CreationWithoutLook`, exact condition in `Safety.CreationFollowsCheck`).
* A status write that finds nothing to change in the version it was given succeeds without looking at newer versions
  (`StatusWriter.SucceedOnOutdated`, exact condition in `StatusWriter.PersistConditions`).
* The developer documentation lists the restore stages without the source-backup and the initialization stage; the
  model follows the code.

## Model

| member | source | states |
|---|---|---|
| Safety.ActiveHolderKeepsLease | internal/leases/manager.go:71-119 | In every run, no step overwrites or deletes the lease of an existing, non-terminal holder, except the holder's own release once its work is no longer open |
| Safety.LeaseLastsUntilDone | internal/controller/backup/backupLease.go:128-137 | Between any two states of a run: an operation that once held the lease and is still to be done holds it now, so there is never a second active owner |
| Safety.ReleaseDeletesOwn | internal/leases/manager.go:135-155 | A deletion call of the lease changes nothing, or it removes exactly the version that was read, which is the caller's own, and the caller's operation is terminal, deleting or past the create stages |
| Holders.NamedHolderExists | internal/controller/restore/restoreReconciler.go:114-142 | In every state the lease names an existing object with that UID that still carries the finalizer, or a release of that very object missed its own lease in an outdated read before |
| Safety.OnlyTheHolderActs | internal/controller/backup/reconciler.go:822-864 | Maintenance switching, scale and cleanup work and the creation of Velero backups and restores are called only by a worker whose object exists and is not synced, and, except for a backup that switches maintenance off in its closing stage, only while the lease names that object; lease reads may be outdated |
| Holders.SwitchWithoutLeaseIff | internal/controller/backup/reconciler.go:822-864 | A backup that switches maintenance off in its closing stage holds the lease exactly if the version that its pass read in Holds was the stored one at that read; the only other case is a backup that had ended with its lease missed |
| Holders.OneActsAtATime | internal/controller/backup/controller.go:109-155 | Of two workers about to make such a call in the same state one is a closing stage that read an outdated version in Holds, or whose backup had ended with its lease missed |
| Safety.CreationFollowsCheck | internal/controller/backup/reconciler.go:547-639 | Whoever creates a Velero backup saw maintenance mode on in the same pass; the pass made the check for other running ones exactly if the run had not started and the pass had not seen its own provider backup, and the check found none, with none created by the operator since |
| Safety.CanceledNeverCompletes | internal/controller/backup/reconciler.go:866-887 | In every state a canceled local backup has no decided provider result, is not successful, and its scalar is not Completed |
| Safety.SyncedStaysApart | internal/controller/backup/reconciler.go:938-1013 | In every state a synced backup is not named by the lease, never requires finalization, and has both success conditions decided or neither |
| Safety.SyncedNeverTakes | internal/controller/backup/controller.go:126-138 | The worker of a synced backup never asks to take the lease, nor for anything that needs it |
| Holders.EndedBackupHasNoLease | internal/controller/backup/backupLease.go:64-84 | Once a backup has a terminal result, no later state has a lease that names it, unless one of its releases missed its own lease in an outdated read |
| LeaseReads.StillNamedIff | internal/leases/manager.go:135-155 | Behind Release the lease still names the object only if that pass missed it in an outdated read, and exactly then as long as the operation has not ended |
| LeaseReads.ClosingDependsOnRead | internal/leases/manager.go:121-133 | Whoever goes on in the closing stage read a version that names it earlier in that pass; the lease names it now only if that version was stored then |
| Witnesses.OutdatedHoldsSwitchesOff | internal/controller/backup/reconciler.go:822-864 | A reachable state in which a backup is about to switch maintenance off while the lease names another backup, whose run is open and switched it on |
| Witnesses.OutdatedReleaseLeavesLease | internal/controller/backup/backupLease.go:64-84 | A reachable state in which the lease names a backup that does not exist any more |
| Witnesses.OutdatedReleaseEndsWithLease | internal/controller/backup/backupLease.go:64-84 | A reachable state in which the lease names a backup that has its terminal result |
| Witnesses.CreationWithoutLook | internal/controller/backup/reconciler.go:547-639 | A reachable state in which a backup that never started is about to create its provider backup while another one is running, in a pass that did not look |
| Safety.NoPreparationAfterChild | internal/controller/restore/restoreReconciler.go:238-253 | After a state in which a Velero restore owned by a restore exists, no later scale-down or cleanup call is made for that restore, even if the child vanished |
| Safety.SuccessMeansRecovered | internal/controller/restore/reconcile_ensureRestoreCompleted.go:21-47 | The step that makes a restore successful ends a pass that scaled up, saw all workloads ready, removed the saved counts and switched maintenance off, in this order, with ProviderSucceeded=True stored and the lease held; or it is the legacy migration of Completed |
| Safety.PreparedMeansDone | internal/controller/restore/restoreReconciler.go:350-388 | The step that makes Prepared true ends a pass in which scale-down and then cleanup succeeded, with the lease held |
| Safety.RemovalFollowsScaleUp | internal/controller/restore/reconcile_ensureScaleUpFinalized.go:19-65 | Saved counts are removed only in a pass that scaled up and then observed readiness |
| Safety.RegressionWaits | internal/controller/restore/reconcile_ensureWorkloadsReady.go:17-94 | An observation of unready workloads, at any recovery reason, ends the pass with WaitingForWorkloads stored already or is followed by the write that stores it |
| Safety.ProviderSuccessIsObserved | internal/controller/restore/restoreReconciler.go:463-525 | ProviderSucceeded of a restore becomes true only in a pass whose last observation was a succeeded child, with Prepared=True stored and the lease held |
| Safety.ChildFollowsPreparation | internal/controller/restore/restoreReconciler.go:425-458 | A child is created only right after the same pass saw none, for the restore's own UID and name, prepared and holding the lease |
| Outcomes.ProviderResultIsObserved | internal/controller/backup/reconciler.go:718-820 | ProviderSucceeded of any backup is decided only in a pass whose last observation of Velero's backup was that result |
| Outcomes.EndFollowsResult | internal/controller/backup/reconciler.go:867-909 | A local run ends with the provider's result if there is one and as canceled otherwise, and the lease still names it at that step exactly if the pass missed its own lease; a synced one ends with the result stored beside it |
| Outcomes.CancellationMeansExpired | internal/controller/backup/reconciler.go:1015-1114 | Canceled becomes true only in a pass that saw the window closed and, for a started run, then the provider backup missing, untouched or running |
| Progress.NothingGoesBack | internal/controller/backup/controller.go:54-65 | Between any two states of a run with the same UID, the required operation only moves create, finalize, ignore, delete; post-processing, a decided Succeeded and Prepared=True stay |
| Progress.StepOnObject | internal/controller/backup/conditionsUpdater.go:38-71 | A step creates a resource, leaves its status alone, or stores what the resource's own worker asked to write |
| Progress.RunCounts | internal/provider/velero/restore.go:119-149 | Counters, past lease versions, created provider backups and parents of children only grow |
| Removal.FinalizerGoesLast | internal/controller/backup/reconciler.go:236-250 | A finalizer is lost only by the resource's own worker, on a deleting resource, in a pass that saw the lease given up and, for a backup, after that the provider backup gone; the lease names the resource then only if the pass missed it, and exactly then if the operation has not ended |
| Removal.CanceledSurvives | internal/controller/backup/velero_backup_reconciler.go:55-78 | As long as a running pass of its mirror or of the collection began after the cancellation, no step but a user's deletion deletes a canceled backup: neither the orphan check nor the mirror nor the collection |
| Removal.OnlyEndedBackupsAreDeleted | internal/controller/backup/reconciler.go:223-234 | The controller requests a Velero deletion only right after the same pass saw the provider backup in a phase that is not running, and no request |
| Removal.RunningBackupHasNoRequest | internal/controller/backup/reconciler.go:252-274 | A pass that saw a running provider backup reports the wait only after it saw no delete request or dropped it |
| DeletionPasses.DeletionPassDeletes | internal/controller/backup/reconciler.go:210-356 | One undisturbed pass over a deleting backup: exactly which delete requests exist afterwards, for each phase and request, and that the resource goes exactly if the provider backup is gone |
| DeletionPasses.ProcessedRequestIsRenewed | internal/controller/backup/reconciler.go:287-292 | A request processed in vain is absent after one undisturbed pass and there again, unprocessed, after the next |
| Termination.RestoreEnds | internal/controller/restore/restoreReconciler.go:133-154 | From every reachable state, an open restore that finds the lease free or its own ends within twelve undisturbed passes, whether its child succeeds or fails |
| Termination.PassAdvances | internal/controller/restore/stageOutcome.go:89-102 | Every undisturbed pass of an open restore ends it or strictly decreases what is left over conditions, reasons, metadata, lease and child |
| Success.RestoreSucceeds | internal/controller/restore/reconcile_ensureRestoreCompleted.go:21-47 | If Velero lets the child succeed and there is no foreign namesake, that restore has Succeeded=True within these twelve passes |
| LeaseLaws.AcquireOutcomes | internal/leases/manager.go:71-119 | Undisturbed, Acquire is held, waiting, invalid or acquired exactly by whose lease it is and whether that holder is active, and only the last changes anything |
| LeaseLaws.OutdatedDeletionIsHarmless | internal/leases/manager.go:146-154 | Deleting with any past version that is not the stored one changes nothing and does not report success; this is about the deletion call only |
| LeaseLaws.MigrationKeepsTheScalar | internal/controller/restore/conditions.go:146-165 | The condition derived from a scalar maps back to that scalar and is judged the same |
| LeaseLaws.DeletingStatusKeepsTheEndIff | internal/controller/restore/conditions.go:180-208 | A terminal restore stays terminal under the deleting status exactly if it carries the Succeeded condition |
| History.FollowsAtPositions | internal/controller/restore/stageOutcome.go:89-102 | "In this order within a pass" means increasing positions in the pass's calls, both directions |
| System.PlayIsRun | internal/controller/backup/controller.go:83-107 | Every choice of actions is a run from every initial state, so that the statements about runs are not empty |
| Preservation.InvHolds | internal/controller/backup/controller.go:83-107 | The invariant holds in every state of every run |
| Rely.LeaseCallKeeps | internal/leases/manager.go:157-182 | A guarded creation, takeover or deletion of the lease keeps the shared state in order although its decision was made on an older state |
| Rely.ServeIsQuiet | internal/leases/manager.go:184-226 | No guarded call of another worker changes what a pass relies on: its object's status, a lease that names it, the provider backups created |
| Rely.EffectKeepsStale | internal/leases/manager.go:208-226 | A holder that was found gone, replaced or terminal does not become active again while its lease version is stored |
| BackupProof.BackupServed | internal/controller/backup/reconciler.go:149-356 | After every call of a backup pass, answered in any way, the pass knows what its next call needs |
| RestoreProof.RestoreServed | internal/controller/restore/restoreReconciler.go:238-463 | After every call of a restore pass, answered in any way, the pass knows what its next call needs |
| Sessions.HistoryIsRun | internal/controller/backup/controller.go:83-107 | What a session recorded is a run of the transition system |
| Sessions.Session.Request | internal/controller/backup/controller.go:83-107 | A call lets everybody else act first, then is one step of the worker, and the worker's state afterwards is its reaction to the answer; since the pass began the worker took no other step, and an idle worker calls only to begin it |
| Sessions.FirstCall | internal/controller/backup/controller.go:83-107 | A pass that has made a call began, idle, with the read of its own resource |
| LeaseManager.Manager.Acquire | internal/leases/manager.go:71-119 | For every answer the calls of the lease machine; the outcome it returns is the one with which the calling pass goes on |
| LeaseManager.Manager.Inspect | internal/leases/manager.go:184-226 | Tells a failed look-up, an active holder and a stale lease apart as the lease machine does |
| LeaseManager.Manager.Holds | internal/leases/manager.go:121-133 | Returns exactly what decides where the closing stage goes on |
| LeaseManager.Manager.Release | internal/leases/manager.go:135-155 | For every answer the calls of the release machine, up to the deletion of the very version read |
| BackupController.StagesFollow | internal/controller/backup/controller.go:109-155 | For every operation and position of its list, the successor that the stage contracts name is the next stage of the list |
| BackupController.FirstStage | internal/controller/backup/controller.go:54-65 | A pass starts with the first stage of the list of the required operation |
| BackupController.Reconciler.Ensure | internal/controller/backup/controller.go:109-155 | From where the k-th stage of the list starts, the transition system is led to where the next one starts if the stage says Next, and to its end otherwise |
| BackupController.Reconciler.Reconcile | internal/controller/backup/controller.go:83-107 | One whole pass and nothing else: the first step is the read of the backup, and it returns where the transition system ends the pass |
| BackupController.Reconciler.EnsureVeleroStatusSynced | internal/controller/backup/reconciler.go:938-1013 | Reads the Velero backup and writes all three conditions in one patch, as the transition system does; never Next for a synced backup |
| BackupController.Reconciler.EnsureConditionsInitialized | internal/controller/backup/reconciler.go:915-936 | From the seed patch, or without a call if nothing is missing, to the setup stage exactly when it says Next |
| BackupController.Reconciler.EnsureBackupSetup | internal/controller/backup/reconciler.go:452-496 | From the blueprint look-up over the metadata update to the window stage exactly when it says Next |
| BackupController.Reconciler.EnsureBackupIsCanceledAfterTimeWindowExpired | internal/controller/backup/reconciler.go:515-545 | Every branch of the window check is the transition system's: open, expired before the start, expired after it |
| BackupController.Reconciler.HandleTimeWindowExpiredBackupStarted | internal/controller/backup/reconciler.go:1037-1136 | The four cases of an expired started run (missing, untouched, running, terminated) patch what the transition system patches |
| BackupController.Reconciler.EnsureBackupIsPrepared | internal/controller/backup/reconciler.go:547-620 | An own provider backup skips the check; otherwise the pass reaches the lease stage exactly when it says Next |
| BackupController.Reconciler.CheckReady | internal/controller/backup/reconciler.go:558-580 | Leaves the pass at the patch of Prepared with exactly the readiness it returns, or at its end |
| BackupController.Reconciler.EnsureActiveBackupLease | internal/controller/backup/backupLease.go:19-52 | Says Next exactly for a held lease; every other outcome ends the pass |
| BackupController.Reconciler.EnsureMaintenanceActivated | internal/controller/backup/reconciler.go:641-676 | Says Next without a write if the mode is on; otherwise switch, patch, end of the pass |
| BackupController.Reconciler.EnsureProviderBackupCreated | internal/controller/backup/reconciler.go:678-716 | Says Next for an existing provider backup; otherwise creation, patch with the start, end of the pass |
| BackupController.Reconciler.EnsureProviderBackupCompleted | internal/controller/backup/reconciler.go:718-822 | Running, failed, completed and unlisted phases take the transition system's branches; Next only after the patch of a result |
| BackupController.Reconciler.EnsureMaintenanceDeactivated | internal/controller/backup/reconciler.go:822-864 | Asks for the lease before it looks at the mode, in every operation that closes a run; where it says Next the release stage starts |
| BackupController.Reconciler.EnsureBackupLeaseReleased | internal/controller/backup/backupLease.go:64-84 | Says Next exactly when the release did not fail; the pass is then where the operation goes on |
| BackupController.Reconciler.EnsureBackupRunCompleted | internal/controller/backup/reconciler.go:867-909 | Patches the outcome of the run and ends the pass; never Next |
| BackupController.Reconciler.EnsureOrphanedBackupDeleted | internal/controller/backup/reconciler.go:365-403 | Says Next without a call for a run that never started or was canceled, and after a look for an existing provider backup |
| BackupController.Reconciler.EnsureCanceledProviderBackupDeleted | internal/controller/backup/reconciler.go:405-450 | Without a call for other backups; otherwise the transition system's requests and patches, and the end of the pass |
| BackupController.Reconciler.EnsureProviderBackupDeleted | internal/controller/backup/reconciler.go:210-250 | A provider backup is deleted first; the finalizer update is made only after the read that found none |
| BackupController.Reconciler.DeleteRequestIfExists | internal/provider/velero/backup.go:83-101 | Returns true exactly where the pass goes on to report: no request, or one that was dropped or gone |
| BackupController.Reconciler.CreateRequestIfNotExists | internal/provider/velero/backup.go:59-81 | Returns whether the request that exists afterwards is processed, or None where the pass ends |
| RestoreController.StagesFollow | internal/controller/restore/restoreReconciler.go:114-157 | For every operation and position of its list, the successor that the stage contracts name is the next stage of the list |
| RestoreController.FirstStage | internal/controller/restore/restoreReconciler.go:160-172 | A pass starts with the first stage of the list of the required operation |
| RestoreController.Reconciler.RunStage | internal/controller/restore/stageOutcome.go:89-102 | From where the k-th stage of the list starts, the transition system is led to where the next one starts if the stage says Next, and to its end otherwise |
| RestoreController.Reconciler.Reconcile | internal/controller/restore/restoreReconciler.go:95-158 | One whole pass and nothing else: the first step is the read of the restore, and it returns where the transition system ends the pass |
| RestoreController.Reconciler.RunStages | internal/controller/restore/stageOutcome.go:89-102 | From the first stage of the list on, each stage starts where the one before left the pass, up to the end of the pass |
| RestoreController.Reconciler.EnsureLegacyConditionsMigrated | internal/controller/restore/restoreReconciler.go:195-212 | Migrates only what is missing and stands for something, and goes on with the stored object |
| RestoreController.Reconciler.EnsureMetadata | internal/controller/restore/reconcile_ensureMetadata.go:20-39 | Says Next without a write if finalizer and labels are there, and ends the pass after a write |
| RestoreController.Reconciler.EnsureProviderChildState | internal/controller/restore/restoreReconciler.go:233-279 | Says Next for no child and for a usable one; a conflicting one leads to the terminal write |
| RestoreController.Reconciler.EnsureActiveRestoreLease | internal/controller/restore/reconcile_ensureActiveRestoreLease.go:25-75 | Says Next only for a held lease that needs no report; waiting and invalid leases lead to their writes |
| RestoreController.Reconciler.EnsureProviderReady | internal/controller/restore/restoreReconciler.go:281-338 | Skipped for a prepared restore; an unready provider leads to its write and the end of the pass |
| RestoreController.Reconciler.EnsureSourceBackupUsable | internal/controller/restore/reconcile_ensureSourceBackupUsable.go:16-65 | Skipped for a prepared restore; an unusable source leads to the terminal write |
| RestoreController.Reconciler.HasOwnedChild | internal/controller/restore/restoreReconciler.go:390-404 | Leaves the pass behind the stage for an owned child, at the stage's question for none or a foreign one, and at its end for a failed read |
| RestoreController.Reconciler.EnsureMaintenanceModeActivated | internal/controller/restore/reconcile_ensureMaintenanceModeActivated.go:15-53 | Always Next, whatever the read and the switch answer |
| RestoreController.Reconciler.EnsurePreparation | internal/controller/restore/restoreReconciler.go:350-388 | Scale-down, then cleanup, then the write of Prepared; a failure of either leads to the write of its failure |
| RestoreController.Reconciler.EnsureProviderRestore | internal/controller/restore/restoreReconciler.go:422-458 | Says Next without a creation if a child exists or the provider succeeded before; otherwise the pass ends |
| RestoreController.Reconciler.EnsureRestore | internal/provider/velero/restore.go:119-149 | Reads again, then creates; a conflicting namesake leads to the terminal write, a usable one to nothing |
| RestoreController.Reconciler.EnsureProviderCompletion | internal/controller/restore/restoreReconciler.go:460-525 | Says Next only for a success that was stored before; a failed child leads to maintenance off and the terminal write |
| RestoreController.Reconciler.EnsureScaleUpInitiated | internal/controller/restore/reconcile_ensureScaleUpInitiated.go:21-71 | Scales up before it looks at the reason; Next only from the reasons at or after the initiation |
| RestoreController.Reconciler.EnsureWorkloadsReady | internal/controller/restore/reconcile_ensureWorkloadsReady.go:17-94 | Observes before it looks at the reason; Next only for ready workloads that were reported ready before |
| RestoreController.Reconciler.EnsureScaleUpFinalized | internal/controller/restore/reconcile_ensureScaleUpFinalized.go:19-65 | Removes the labels before it looks at the reason; Next only from the reasons at or after the finalization |
| RestoreController.Reconciler.EnsureMaintenanceModeDeactivated | internal/controller/restore/reconcile_ensureMaintenanceModeDeactivated.go:14-57 | Switches off before it looks at the reason; Next only if the deactivation was reported before |
| RestoreController.Reconciler.EnsureRestoreCompleted | internal/controller/restore/reconcile_ensureRestoreCompleted.go:18-48 | Ends the pass in every case; the terminal write is made only at the last recovery reason |
| RestoreController.Reconciler.EnsureProviderRestoreDeleted | internal/controller/restore/restoreReconciler.go:588-655 | Says Next for no child and for a foreign one; an owned or legacy child is deleted by its UID and awaited |
| RestoreController.Reconciler.EnsureDeletingStatus | internal/controller/restore/restoreReconciler.go:565-587 | Says Next once the scalar is there; otherwise its write ends the pass |
| RestoreController.Reconciler.EnsureRestoreLeaseReleased | internal/controller/restore/reconcile_ensureRestoreLeaseReleased.go:12-28 | Says Next exactly when the release did not fail |
| RestoreController.Reconciler.EnsureDeletionFinalized | internal/controller/restore/restoreReconciler.go:657-704 | Makes the finalizer update as the last call of the pass |
| Followers.VeleroBackupController.Reconcile | internal/controller/backup/velero_backup_controller.go:28-57 | One whole pass of the mirror and nothing else: at least the read of Velero's backup, and it returns where the transition system ends the pass |
| Followers.VeleroBackupController.DeleteBackupIfExists | internal/controller/backup/velero_backup_reconciler.go:55-78 | Read, delete request, then the deletion unless the copy is canceled: the transition system's calls in this order |
| Followers.FilterCompleted | internal/garbagecollection/manager.go:72-80 | Exactly the completed backups, each as often as listed |
| Followers.GarbageCollector.CollectGarbage | internal/garbagecollection/manager.go:34-70 | One whole collection and nothing else: it returns where the transition system ends it, which is after the last victim although deletions fail |
| StatusWriter.PersistConditions | internal/controller/restore/conditionUpdater.go:55-80 | After a success the requested conditions are stored exactly if the write had something to add to the version it was given, or they were stored already; a written version is the one before it with exactly the requested conditions, and the transitions and the scalar are those of this attempt; it gives up for conflicts only after four other writes in between |
| StatusWriter.SucceedOnOutdated | internal/controller/restore/conditionUpdater.go:82-106 | A concrete server and an outdated restore: the write succeeds and the requested condition is not in the stored version |
| StatusWriter.TryPersistConditions | internal/controller/restore/conditionUpdater.go:82-106 | No write exactly if nothing changes; a conflict means that the version was outdated |
| StatusWriter.ApplyConditions | internal/controller/restore/conditionUpdater.go:145-173 | The loop computes the merge, the scalar and the transitions |
| StatusWriter.MergeKeepsOthers | internal/controller/restore/conditionUpdater.go:149-160 | Requested conditions are stored as requested, conditions of other types stay as they were |
| StatusWriter.TransitionsAreChanges | internal/controller/restore/conditionUpdater.go:162-168 | A transition is reported exactly for a condition that existed and gets another status |
| StatusWriter.WriteIsOneStep | internal/controller/restore/conditionUpdater.go:43-53 | The successful attempt is the single status step of the transition system |
| StatusWriter.DetermineBackupConditionTransitions | internal/controller/backup/conditionsUpdater.go:71-95 | The transitions of a backup patch are exactly the conditions in both lists with different statuses |
| Decimal.ParseAfterFormat | internal/controller/restore/scale.go:421-437 | A formatted count parses back exactly if it is a 32-bit number |
| Scale.Manager.ScaleDown | internal/controller/restore/scale.go:33-60 | Every workload is as before or handled; after a success a scoped workload without an owner is at zero exactly if it carried no saved count, or was at zero already |
| Scale.ZeroIff | internal/controller/restore/scale.go:439-467 | A scaled-down workload is at zero exactly if no saved count was there, or it was at zero |
| Scale.Manager.ScaleUp | internal/controller/restore/scale.go:62-92 | Every workload is as before or at its saved count; success means all of them, and every saved count was readable |
| Scale.Manager.FinalizeScaleUp | internal/controller/restore/scale.go:192-225 | Every workload is as before or without the label; success means all of them |
| Scale.Manager.ForEachWorkload | internal/controller/restore/scale.go:171-190 | A listing and a loop that stops at the first error: the handled workloads are done, the others untouched |
| Scale.Manager.AreWorkloadsReady | internal/controller/restore/scale.go:251-281 | Without an error, ready means exactly that every scoped workload reached its target, and Deployments their rollout |
| Scale.Manager.WorkloadsReady | internal/controller/restore/scale.go:369-391 | The same for one kind; every target could be determined |
| ScaleHistory.RoundTrip | internal/controller/restore/scale.go:439-488 | Attempts to scale down, scale up and finalize in any order and number, each failing anywhere or not: if no removal may find a workload lowered and the last attempt is a successful removal, all replicas and labels are the original ones |
| ScaleHistory.RoundTripIff | internal/controller/restore/scale.go:439-488 | For new workloads of which one has a nonzero count, and any attempts ending in a successful removal: every history leads back exactly if no removal may find a workload lowered |
| ScaleHistory.RaisedIsSafe | internal/controller/restore/scale.go:192-225 | A successful scale-up between every attempt to scale down and every later removal is enough for that |
| ScaleHistory.LeftoverKeepsRunning | internal/controller/restore/scale.go:439-467 | In every history of a scale-down, a scale-up and a second scale-down the workloads run at their original counts in the end |
| ScaleHistory.OwnedStaysUntouched | internal/controller/restore/scale.go:112-124 | A ReplicaSet with an owner and without a saved count is never changed by any sequence of attempts |
| ScaleHistory.CycleIff | internal/controller/restore/scale.go:475-481 | One workload's way down and up leads back exactly if its replica count is set; a missing one becomes 0 |
| ScaleHistory.EarlyFinalizeIff | internal/controller/restore/scale.go:242-249 | Scale-downs until one succeeds, then scale-ups and removals ending in a successful one: every history leads back exactly if a scale-up succeeded before the first removal |
| ScaleHistory.EarlyRemovalLosesTheCount | internal/controller/restore/scale.go:192-225 | There is a history in which an early finalization loses the count of three |
| ScaleHistory.ReadyMeansRestored | internal/controller/restore/scale.go:369-407 | On the way up, ready workloads have their original counts |
| Retention.FilterForRemoval | internal/retention/intervalBasedStrategy.go:25-39 | The result is the specified one for some order of the walk through the map, with a clock reading per backup |
| Retention.MapBackupToIntervals | internal/retention/intervalBasedStrategy.go:41-60 | Every interval that contains the backup gets it, and only a backup in none is removed |
| Retention.FilterByRetentionMode | internal/retention/intervalBasedStrategy.go:62-80 | The result is that of a walk that handles each interval of the map exactly once, in some order |
| Retention.RetainOldest | internal/retention/intervalBasedStrategy.go:82-102 | Keeps the first backup with the earliest start and removes all others in order |
| Retention.ValidateConfig | internal/retention/intervalCalender.go:36-47 | Accepts exactly the contiguous calendars and names the first interval that does not continue the last one |
| Retention.NewTimeInterval | internal/retention/timeInterval.go:31-50 | The mode is always a valid one, and a valid one is kept |
| Retention.ContainsIsAge | internal/retention/timeInterval.go:52-78 | With offsets that fit, membership is exactly start <= day(now) - day(timestamp) <= end |
| Retention.BorderIsExactIff | internal/retention/timeInterval.go:56-60 | A border is that many days before today at every moment exactly if the offset fits in a 64-bit duration |
| Retention.ApartIffDisjoint | internal/retention/timeInterval.go:70-77 | Two intervals never share a timestamp exactly if their computed offsets are a day apart |
| Retention.WellFormedIsApart | internal/retention/intervalCalender.go:36-47 | Accepted calendars with start <= end and fitting offsets have disjoint intervals |
| RetentionLaws.AcceptedCalendarsPartition | internal/retention/intervalBasedStrategy.go:25-39 | For these calendars, removed plus retained is the input as multisets, for any map order and any clock readings |
| RetentionLaws.PartitionIffApart | internal/retention/intervalBasedStrategy.go:41-60 | For calendars with valid modes: every result splits its input exactly if the intervals are pairwise apart |
| RetentionLaws.FarCalendarDoublesBackups | internal/retention/timeInterval.go:56-60 | A concrete accepted calendar and backup for which the split fails |
| RetentionHistory.SecondRunRemovesNothing | internal/retention/intervalBasedStrategy.go:62-102 | A run on what was retained, on the same day, removes nothing and retains all |
| RetentionHistory.AtMostOneOldest | internal/retention/intervalBasedStrategy.go:82-102 | Of each interval of mode OLDEST exactly one backup is retained, if it had any |
| RetentionHistory.OldestStays | internal/retention/intervalBasedStrategy.go:62-102 | Over any history of runs with a clock that does not go back between runs and only newer backups added, a backup kept as oldest stays until it is too old, if the readings of the run that kept it avoid a midnight; later runs may read the clock whenever they like |
| RetentionHistory.OldestStaysIff | internal/retention/intervalBasedStrategy.go:41-102 | For an accepted calendar, an interval of mode OLDEST and rising readings: what a run with these readings keeps as oldest stays in every history exactly if the interval starts today, or every reading is on the last day or further before it than the interval reaches |
| RetentionHistory.FourBeyondTheWeek | internal/retention/keepLast7DaysOldestOf1Month1Quarter1HalfYear1YearStrategy.go:5-18 | The concrete calendar retains at most four backups besides those of the last seven days |
| RetentionHistory.MidnightHappens | internal/retention/intervalBasedStrategy.go:41-43 | Two runs on the accepted concrete calendar: the first retains the later of two backups as oldest of the thirty days, the second, on what was retained, removes it although its age is still in the thirty days |

## Left out

- Messages, events, logs and metrics: they do not influence the control flow. A condition keeps its type, status and reason; a status write that only changes a message is no write here.
- Times: conditions carry none. Whether the time window is open, the provider is ready or a source backup is usable is answered arbitrarily by the world.
- Finalizers of others: an object whose operator finalizer is gone vanishes at once when it is deleted.
- Reuse of a name while a pass over the old object of that name is still running.
- Foreign writers of statuses, finalizers, the lease and owner-referenced children: only the operator writes these. A malformed lease or one of a foreign kind may be there from the start, and an administrator may remove it.
- Outdated reads of resources: only the lease is read from a cache here.
- BackupController.Reconciler.Ensure: whether a stage that does not say Next says Retry or Abort decides only when the next pass begins, which is left to the world here; the same holds for `RestoreController.Reconciler.RunStage`.
- The scalar of a deleting restore: a status write stores the deleting scalar even if the worker's outdated copy would not have changed anything.
- Termination.RestoreEnds: stated for undisturbed passes, with the lease free or the restore's own; with other workers in between a restore may wait for the lease forever, and a stale holder's lease would have to be taken over first.
- Removal.CanceledSurvives: the mirror and the collection read before they delete, so a cancellation between their read and their deletion is not protected; the premise, about these two only, excludes exactly that.
- Scale.Manager.ScaleUp: nobody else changes the workloads meanwhile, so a refused update leaves the workload as it was listed.
- RestoreController.Reconciler.EnsurePreparation: scale-down, cleanup, scale-up and finalization are single pieces of work here that may take any number of calls and may fail or be lost; `Scale` models the scale operations themselves, the cleanup is not modelled.
- BackupController.Reconciler.EnsureProviderBackupDeleted: its branch for a backup that is not being deleted is unreachable from the stage lists.
- RestoreController.Reconciler.EnsureConditionsInitialized: one status write is one step in the runs; the retry loop behind it is modelled in `StatusWriter`.
- StatusWriter.PersistConditions: the lists of conditions of one write name each type once, as all callers do; observed generations and transition times are omitted.
- Followers.GarbageCollector.CollectGarbage: in the runs the victims are an arbitrary selection of completed backups; what the interval strategy selects is modelled in `Retention`.
- RetentionHistory.FourBeyondTheWeek: counts against the backups whose own clock reading puts them into the first interval.
- The schedule controller, the strategies keepAll, keepLastSevenDays and removeAllButKeepLatest, configuration, cron parsing and start-up: single filters and plumbing.
- The deletion of a running restore and a late child conflict leave maintenance mode on, as in the code.
