/** The backup controller: the stage lists, the stages, and the loop that runs them. */
module BackupController {
  import opened Conditions
  import opened Cluster
  import opened Leases
  import opened System
  import opened Sessions
  import opened BackupWorkflow
  import L = LeaseManager
  import R = RestoreWorkflow

  datatype StageAction = Next | Retry | Abort

  datatype Stage =
    | VeleroStatusSynced | ConditionsInitialized | BackupSetup | BackupIsCanceledAfterTimeWindowExpired | BackupIsPrepared
    | ActiveBackupLease | MaintenanceActivated | ProviderBackupCreated | ProviderBackupCompleted
    | MaintenanceDeactivated | BackupLeaseReleased | BackupRunCompleted
    | OrphanedBackupDeleted | CanceledProviderBackupDeleted | ProviderBackupDeleted

  const CLEANUP_STAGES: seq<Stage> := [MaintenanceDeactivated, BackupLeaseReleased]

  const FINALIZE_STAGES: seq<Stage> := CLEANUP_STAGES + [BackupRunCompleted]

  function StagesFor(op: Operation): seq<Stage> {
    match op
    case OperationDelete => CLEANUP_STAGES + [ProviderBackupDeleted]
    case OperationIgnore => [OrphanedBackupDeleted, Stage.CanceledProviderBackupDeleted]
    case OperationFinalize => FINALIZE_STAGES
    case OperationCreate =>
      [Stage.VeleroStatusSynced, ConditionsInitialized, BackupSetup, BackupIsCanceledAfterTimeWindowExpired, BackupIsPrepared,
       ActiveBackupLease, MaintenanceActivated, ProviderBackupCreated, ProviderBackupCompleted] + FINALIZE_STAGES
  }

  /** Where the pass is when a stage starts: at the stage's first call, or further if the stage needs none. */
  function Entry(op: Operation, stage: Stage, copy: Object): BackupNext {
    match stage
    case VeleroStatusSynced => if copy.synced then Go(SyncGet, copy) else EnterSeed(copy)
    case ConditionsInitialized => EnterSeed(copy)
    case BackupSetup => Go(SetupList, copy)
    case BackupIsCanceledAfterTimeWindowExpired => Go(WindowAsk, copy)
    case BackupIsPrepared => Go(PrepareGet, copy)
    case ActiveBackupLease => Go(Acquire(Observe), copy)
    case MaintenanceActivated => Go(MaintenanceGet, copy)
    case ProviderBackupCreated => Go(OwnGet, copy)
    case ProviderBackupCompleted => Go(WatchGet, copy)
    case MaintenanceDeactivated => Close(op, copy)
    case BackupLeaseReleased => EnterRelease(op, copy)
    case BackupRunCompleted => AfterRelease(op, copy)
    case OrphanedBackupDeleted => EnterOrphan(copy)
    case CanceledProviderBackupDeleted => EnterCanceled(copy)
    case ProviderBackupDeleted => Go(DeleteGet, copy)
  }

  /** Where the pass is after its first k stages. */
  function AfterStages(op: Operation, k: nat, copy: Object): BackupNext
    requires k <= |StagesFor(op)|
  {
    if k == |StagesFor(op)| then Stop else Entry(op, StagesFor(op)[k], copy)
  }

  /** Where the pass is after this stage has said Next. */
  function After(op: Operation, stage: Stage, copy: Object): BackupNext {
    match stage
    case VeleroStatusSynced => Entry(op, ConditionsInitialized, copy)
    case ConditionsInitialized => Entry(op, BackupSetup, copy)
    case BackupSetup => Entry(op, BackupIsCanceledAfterTimeWindowExpired, copy)
    case BackupIsCanceledAfterTimeWindowExpired => Entry(op, BackupIsPrepared, copy)
    case BackupIsPrepared => Entry(op, ActiveBackupLease, copy)
    case ActiveBackupLease => Entry(op, MaintenanceActivated, copy)
    case MaintenanceActivated => Entry(op, ProviderBackupCreated, copy)
    case ProviderBackupCreated => Entry(op, ProviderBackupCompleted, copy)
    case ProviderBackupCompleted => Entry(op, MaintenanceDeactivated, copy)
    case MaintenanceDeactivated => Entry(op, BackupLeaseReleased, copy)
    case BackupLeaseReleased => AfterRelease(op, copy)
    case OrphanedBackupDeleted => Entry(op, Stage.CanceledProviderBackupDeleted, copy)
    case _ => Stop
  }

  /** The stages' own successors are those of the lists. */
  lemma StagesFollow(op: Operation, k: nat, copy: Object)
    requires k < |StagesFor(op)|
    ensures After(op, StagesFor(op)[k], copy) == AfterStages(op, k + 1, copy)
  {
  }

  lemma FirstStage(copy: Object)
    ensures Start(copy) == AfterStages(RequiredOperation(copy), 0, copy)
  {
  }

  class Reconciler {
    const session: Session
    const key: Key

    constructor (session: Session)
      requires session.worker.Reconciler?
      ensures this.session == session && this.key == session.worker.key
    {
      this.session, this.key := session, session.worker.key;
    }

    /** The pass is where this stage starts. */
    ghost predicate Ready(op: Operation, stage: Stage, backup: Object)
      reads session
    {
      session.Valid() && session.worker == System.Reconciler(key) && session.InBackup(Entry(op, stage, backup))
    }

    /** The pass is where the next stage starts, or at its end. */
    ghost predicate Outcome(op: Operation, stage: Stage, action: StageAction, backup: Object)
      reads session
    {
      session.Valid() && session.InBackup(if action == Next then After(op, stage, backup) else Stop)
    }

    // ---- the calls of each group of stages

    method SetupCall(ghost pc: BackupPc, copy: Object, q: Request) returns (r: Response)
      requires session.Valid() && session.worker == System.Reconciler(key) && session.InBackup(Go(pc, copy))
      requires (pc.SyncGet? || pc.SyncPatch? || pc.SeedPatch? || pc.SetupList? || pc.SetupUpdate?) && q == BackupRequest(pc, key, copy)
      modifies session
      ensures session.Valid() && session.InBackup(SetupStep(pc, copy, r)) && session.began == old(session.began)
    {
      r := session.BackupCall(pc, copy, q);
    }

    method WindowCall(ghost pc: BackupPc, copy: Object, q: Request) returns (r: Response)
      requires session.Valid() && session.worker == System.Reconciler(key) && session.InBackup(Go(pc, copy))
      requires (pc.WindowAsk? || pc.WindowGet? || pc.OpenPatch? || pc.CancelPatch?) && q == BackupRequest(pc, key, copy)
      modifies session
      ensures session.Valid() && session.InBackup(WindowStep(pc, copy, r)) && session.began == old(session.began)
    {
      r := session.BackupCall(pc, copy, q);
    }

    method PrepareCall(ghost pc: BackupPc, copy: Object, q: Request) returns (r: Response)
      requires session.Valid() && session.worker == System.Reconciler(key) && session.InBackup(Go(pc, copy))
      requires (pc.PrepareGet? || pc.PrepareAsk? || pc.PrepareList? || pc.PreparePatch?) && q == BackupRequest(pc, key, copy)
      modifies session
      ensures session.Valid() && session.InBackup(PrepareStep(pc, copy, r)) && session.began == old(session.began)
    {
      r := session.BackupCall(pc, copy, q);
    }

    method RunCall(ghost pc: BackupPc, copy: Object, q: Request) returns (r: Response)
      requires session.Valid() && session.worker == System.Reconciler(key) && session.InBackup(Go(pc, copy))
      requires (pc.MaintenanceGet? || pc.MaintenanceOn? || pc.MaintenancePatch? || pc.OwnGet? || pc.OwnCreate? || pc.OwnPatch? || pc.WatchGet? || pc.RunningPatch? || pc.ResultPatch?) && q == BackupRequest(pc, key, copy)
      modifies session
      ensures session.Valid() && session.InBackup(RunStep(pc, copy, r)) && session.began == old(session.began)
    {
      r := session.BackupCall(pc, copy, q);
    }

    method CloseCall(ghost pc: BackupPc, copy: Object, q: Request) returns (r: Response)
      requires session.Valid() && session.worker == System.Reconciler(key) && session.InBackup(Go(pc, copy))
      requires (pc.OffGet? || pc.OffSwitch?) && q == BackupRequest(pc, key, copy)
      modifies session
      ensures session.Valid() && session.InBackup(CloseStep(pc, key, copy, r)) && session.began == old(session.began)
    {
      r := session.BackupCall(pc, copy, q);
    }

    method DeleteCall(ghost pc: BackupPc, copy: Object, q: Request) returns (r: Response)
      requires session.Valid() && session.worker == System.Reconciler(key) && session.InBackup(Go(pc, copy))
      requires (pc.OrphanGet? || pc.CanceledGet? || pc.DeleteGet?) && q == BackupRequest(pc, key, copy)
      modifies session
      ensures session.Valid() && session.InBackup(DeleteStep(pc, copy, r)) && session.began == old(session.began)
    {
      r := session.BackupCall(pc, copy, q);
    }

    method RequestCall(ghost pc: BackupPc, copy: Object, q: Request) returns (r: Response)
      requires session.Valid() && session.worker == System.Reconciler(key) && session.InBackup(Go(pc, copy))
      requires (pc.RequestGet? || pc.RequestCreate? || pc.DropGet? || pc.DropDelete?) && q == BackupRequest(pc, key, copy)
      modifies session
      ensures session.Valid() && session.InBackup(RequestStep(pc, copy, r)) && session.began == old(session.began)
    {
      r := session.BackupCall(pc, copy, q);
    }

    method LastCall(ghost pc: BackupPc, copy: Object, q: Request) returns (r: Response)
      requires session.Valid() && session.worker == System.Reconciler(key) && session.InBackup(Go(pc, copy))
      requires (pc.DonePatch? || pc.OrphanDelete? || pc.CanceledPatch? || pc.FinalizerDrop? || pc.DeletingPatch?) && q == BackupRequest(pc, key, copy)
      modifies session
      ensures session.Valid() && session.InBackup(Stop) && session.began == old(session.began)
    {
      r := session.BackupCall(pc, copy, q);
    }

    // ---- the stages of a run

    method EnsureVeleroStatusSynced(backup: Object) returns (action: StageAction, updated: Object)
      requires Ready(OperationCreate, Stage.VeleroStatusSynced, backup)
      modifies session
      ensures Outcome(OperationCreate, Stage.VeleroStatusSynced, action, updated) && session.began == old(session.began)
      ensures backup.synced ==> action != Next
    {
      if !backup.synced { return Next, backup; }
      var found := SetupCall(SyncGet, backup, GetProviderBackup(key.name));
      if !found.FoundProviderBackup? { return Abort, backup; }
      var outcome := SyncOutcome(found.backup.phase);
      var conditions := backup.conditions[Prepared := Condition(True, Reason.VeleroStatusSynced)]
                        [ProviderSucceeded := outcome][Succeeded := outcome];
      var patched := SetupCall(SyncPatch(found.backup), backup, PatchStatus(key, conditions, found.backup.stamped));
      action := if patched.FoundObject? && outcome.status == Unknown then Retry else Abort;
      updated := backup;
    }

    method EnsureConditionsInitialized(backup: Object) returns (action: StageAction, updated: Object)
      requires Ready(OperationCreate, ConditionsInitialized, backup)
      modifies session
      ensures Outcome(OperationCreate, ConditionsInitialized, action, updated) && session.began == old(session.began)
    {
      var missing := Missing(backup.conditions, INITIAL_BACKUP_CONDITIONS);
      if missing == map[] { return Next, backup; }
      var patched := SetupCall(SeedPatch, backup, PatchStatus(key, backup.conditions + missing, false));
      if !patched.FoundObject? { return Abort, backup; }
      return Next, patched.obj;
    }

    method EnsureBackupSetup(backup: Object) returns (action: StageAction, updated: Object)
      requires Ready(OperationCreate, BackupSetup, backup)
      modifies session
      ensures Outcome(OperationCreate, BackupSetup, action, updated) && session.began == old(session.began)
    {
      var upToDate := SetupCall(SetupList, backup, Ask);
      if !upToDate.Answer? { return Abort, backup; }
      if upToDate.yes && backup.finalizer { return Next, backup; }
      var written := SetupCall(SetupUpdate, backup, UpdateMetadata(key, backup.uid, backup.version, true));
      if !written.FoundObject? { return Abort, backup; }
      return Next, written.obj;
    }

    method PatchCanceled(ghost pc: BackupPc, backup: Object, canceled: Status, why: Reason) returns (patched: Response)
      requires session.Valid() && session.worker == System.Reconciler(key) && session.InBackup(Go(pc, backup))
      requires if canceled == True then pc == CancelPatch(why) else canceled == False && pc == OpenPatch(why)
      modifies session
      ensures session.Valid() && session.InBackup(WindowStep(pc, backup, patched)) && session.began == old(session.began)
    {
      patched := WindowCall(pc, backup, Put(key, backup, Canceled, Condition(canceled, why)));
    }

    method EnsureBackupIsCanceledAfterTimeWindowExpired(backup: Object) returns (action: StageAction, updated: Object)
      requires Ready(OperationCreate, BackupIsCanceledAfterTimeWindowExpired, backup)
      modifies session
      ensures Outcome(OperationCreate, BackupIsCanceledAfterTimeWindowExpired, action, updated) && session.began == old(session.began)
    {
      var open := WindowCall(WindowAsk, backup, Ask);
      if !open.Answer? { return Abort, backup; }
      if open.yes {
        var kept := PatchCanceled(OpenPatch(TimeWindowNotExpired), backup, False, TimeWindowNotExpired);
        if !kept.FoundObject? { return Abort, backup; }
        return Next, kept.obj;
      }
      if !backup.started {
        var canceled := PatchCanceled(CancelPatch(TimeWindowExpiredBackupNotStarted), backup, True, TimeWindowExpiredBackupNotStarted);
        return if canceled.FoundObject? then Retry else Abort, backup;
      }
      action, updated := HandleTimeWindowExpiredBackupStarted(backup);
    }

    method HandleTimeWindowExpiredBackupStarted(backup: Object) returns (action: StageAction, updated: Object)
      requires session.Valid() && session.worker == System.Reconciler(key) && session.InBackup(Go(WindowGet, backup))
      modifies session
      ensures Outcome(OperationCreate, BackupIsCanceledAfterTimeWindowExpired, action, updated) && session.began == old(session.began)
    {
      var found := WindowCall(WindowGet, backup, GetProviderBackup(key.name));
      if !found.NotFound? && !found.FoundProviderBackup? { return Abort, backup; }
      if found.NotFound? || IsBlank(found.backup) {
        action := CancelExpired(backup, TimeWindowExpiredProviderBackupMissing);
        return action, backup;
      }
      if IsRunning(found.backup.phase) {
        action := CancelExpired(backup, TimeWindowExpiredBackupInProgress);
        return action, backup;
      }
      action, updated := KeepTerminated(backup);
    }

    method CancelExpired(backup: Object, why: Reason) returns (action: StageAction)
      requires session.Valid() && session.worker == System.Reconciler(key) && session.InBackup(Go(CancelPatch(why), backup))
      modifies session
      ensures session.Valid() && session.InBackup(Stop) && action != Next && session.began == old(session.began)
    {
      var canceled := PatchCanceled(CancelPatch(why), backup, True, why);
      return if canceled.FoundObject? then Retry else Abort;
    }

    method KeepTerminated(backup: Object) returns (action: StageAction, updated: Object)
      requires session.Valid() && session.worker == System.Reconciler(key) && session.InBackup(Go(OpenPatch(TimeWindowExpiredBackupTerminated), backup))
      modifies session
      ensures Outcome(OperationCreate, BackupIsCanceledAfterTimeWindowExpired, action, updated) && session.began == old(session.began)
    {
      var kept := PatchCanceled(OpenPatch(TimeWindowExpiredBackupTerminated), backup, False, TimeWindowExpiredBackupTerminated);
      if !kept.FoundObject? { return Abort, backup; }
      return Next, kept.obj;
    }

    method EnsureBackupIsPrepared(backup: Object) returns (action: StageAction, updated: Object)
      requires Ready(OperationCreate, BackupIsPrepared, backup)
      modifies session
      ensures Outcome(OperationCreate, BackupIsPrepared, action, updated) && session.began == old(session.began)
    {
      var own := PrepareCall(PrepareGet, backup, GetProviderBackup(key.name));
      if own.FoundProviderBackup? { return Next, backup; }
      if !own.NotFound? { return Abort, backup; }
      var ok, ready := CheckReady(backup);
      if !ok { return Abort, backup; }
      action, updated := ReportReadiness(backup, ready);
    }

    /** The provider is ready, and before the run's first provider backup no other one may be running. */
    method CheckReady(backup: Object) returns (ok: bool, ready: bool)
      requires session.Valid() && session.worker == System.Reconciler(key) && session.InBackup(Go(PrepareAsk, backup))
      modifies session
      ensures session.Valid() && session.InBackup(if ok then Go(PreparePatch(ready), backup) else Stop) && session.began == old(session.began)
    {
      var readiness := PrepareCall(PrepareAsk, backup, Ask);
      if !readiness.Answer? { return false, false; }
      if !readiness.yes || backup.started { return true, readiness.yes; }
      var running := PrepareCall(PrepareList, backup, ListProviderBackups(key.name));
      return running.Answer?, running.Answer? && !running.yes;
    }

    method ReportReadiness(backup: Object, ready: bool) returns (action: StageAction, updated: Object)
      requires session.Valid() && session.worker == System.Reconciler(key) && session.InBackup(Go(PreparePatch(ready), backup))
      modifies session
      ensures Outcome(OperationCreate, BackupIsPrepared, action, updated) && session.began == old(session.began)
    {
      var prepared := if ready then Condition(True, ProviderReady) else Condition(False, ProviderNotReady);
      var patched := PrepareCall(PreparePatch(ready), backup, Put(key, backup, Prepared, prepared));
      if !patched.FoundObject? { return Abort, backup; }
      return if ready then Next else Retry, patched.obj;
    }

    method EnsureActiveBackupLease(backup: Object) returns (action: StageAction, updated: Object)
      requires Ready(OperationCreate, ActiveBackupLease, backup)
      modifies session
      ensures Outcome(OperationCreate, ActiveBackupLease, action, updated) && session.began == old(session.began)
    {
      var manager := new L.Manager(session);
      var state := manager.Acquire(backup);
      match state
      case Held => return Next, backup;
      case Invalid => return Abort, backup;
      case LeaseFailed => return Abort, backup;
      case _ => return Retry, backup;
    }

    method EnsureMaintenanceActivated(backup: Object) returns (action: StageAction, updated: Object)
      requires Ready(OperationCreate, MaintenanceActivated, backup)
      modifies session
      ensures Outcome(OperationCreate, MaintenanceActivated, action, updated) && session.began == old(session.began)
    {
      var active := RunCall(MaintenanceGet, backup, GetMaintenance);
      if !active.Answer? { return Abort, backup; }
      if active.yes { return Next, backup; }
      action := ActivateMaintenance(backup);
      updated := backup;
    }

    method ActivateMaintenance(backup: Object) returns (action: StageAction)
      requires session.Valid() && session.worker == System.Reconciler(key) && session.InBackup(Go(MaintenanceOn, backup))
      modifies session
      ensures session.Valid() && session.InBackup(Stop) && action != Next && session.began == old(session.began)
    {
      var switched := RunCall(MaintenanceOn, backup, SwitchMaintenance(true));
      if !switched.Done? { return Abort; }
      var patched := RunCall(MaintenancePatch, backup, Put(key, backup, Succeeded, Condition(Unknown, MaintenanceModesIsNotActive)));
      return if patched.FoundObject? then Retry else Abort;
    }

    method EnsureProviderBackupCreated(backup: Object) returns (action: StageAction, updated: Object)
      requires Ready(OperationCreate, ProviderBackupCreated, backup)
      modifies session
      ensures Outcome(OperationCreate, ProviderBackupCreated, action, updated) && session.began == old(session.began)
    {
      var own := RunCall(OwnGet, backup, GetProviderBackup(key.name));
      if own.FoundProviderBackup? { return Next, backup; }
      if !own.NotFound? { return Abort, backup; }
      action := CreateOwn(backup);
      updated := backup;
    }

    method CreateOwn(backup: Object) returns (action: StageAction)
      requires session.Valid() && session.worker == System.Reconciler(key) && session.InBackup(Go(OwnCreate, backup))
      modifies session
      ensures session.Valid() && session.InBackup(Stop) && action != Next && session.began == old(session.began)
    {
      var created := RunCall(OwnCreate, backup, CreateProviderBackup(key.name));
      if !created.Done? { return Abort; }
      var conditions := backup.conditions[Succeeded := Condition(Unknown, ProviderBackupResourceDoesNotExist)];
      var patched := RunCall(OwnPatch, backup, PatchStatus(key, conditions, true));
      return if patched.FoundObject? then Retry else Abort;
    }

    method EnsureProviderBackupCompleted(backup: Object) returns (action: StageAction, updated: Object)
      requires Ready(OperationCreate, ProviderBackupCompleted, backup)
      modifies session
      ensures Outcome(OperationCreate, ProviderBackupCompleted, action, updated) && session.began == old(session.began)
    {
      var own := RunCall(WatchGet, backup, GetProviderBackup(key.name));
      if !own.FoundProviderBackup? { return Abort, backup; }
      if IsRunning(own.backup.phase) {
        var waiting := RunCall(RunningPatch, backup,
                                          Put(key, backup, ProviderSucceeded, Condition(Unknown, ProviderBackupInProgress)));
        return if waiting.FoundObject? then Retry else Abort, backup;
      }
      if HasFailed(own.backup.phase) {
        action, updated := PatchCompleted(backup, false);
      } else if own.backup.phase == BackupCompleted {
        action, updated := PatchCompleted(backup, true);
      } else {
        return Abort, backup;
      }
    }

    method PatchCompleted(backup: Object, succeeded: bool) returns (action: StageAction, updated: Object)
      requires session.Valid() && session.worker == System.Reconciler(key) && session.InBackup(Go(ResultPatch(succeeded), backup))
      modifies session
      ensures Outcome(OperationCreate, ProviderBackupCompleted, action, updated) && session.began == old(session.began)
    {
      var outcome := if succeeded then Condition(True, ProviderBackupSucceeded) else Condition(False, ProviderBackupFailed);
      var patched := RunCall(ResultPatch(succeeded), backup, Put(key, backup, ProviderSucceeded, outcome));
      if !patched.FoundObject? { return Abort, backup; }
      return Next, patched.obj;
    }

    // ---- the stages that close a run

    method EnsureMaintenanceDeactivated(op: Operation, backup: Object) returns (action: StageAction, updated: Object)
      requires Ready(op, MaintenanceDeactivated, backup)
      modifies session
      ensures Outcome(op, MaintenanceDeactivated, action, updated) && session.began == old(session.began)
    {
      if !IsPostProcessing(backup.conditions) && !backup.deleting { return Retry, backup; }
      var manager := new L.Manager(session);
      var ok, holds := manager.Holds(op, backup);
      if !ok { return Abort, backup; }
      if !holds { return Next, backup; }
      action := DeactivateMaintenance(op, backup);
      updated := backup;
    }

    method DeactivateMaintenance(op: Operation, backup: Object) returns (action: StageAction)
      requires session.Valid() && session.worker == System.Reconciler(key) && session.InBackup(Go(OffGet(op), backup))
      modifies session
      ensures Outcome(op, MaintenanceDeactivated, action, backup) && session.began == old(session.began)
    {
      var active := CloseCall(OffGet(op), backup, GetMaintenance);
      if !active.Answer? { return Abort; }
      if !active.yes { return Next; }
      action := SwitchOff(op, backup);
    }

    method SwitchOff(op: Operation, backup: Object) returns (action: StageAction)
      requires session.Valid() && session.worker == System.Reconciler(key) && session.InBackup(Go(OffSwitch(op), backup))
      modifies session
      ensures Outcome(op, MaintenanceDeactivated, action, backup) && session.began == old(session.began)
    {
      var switched := CloseCall(OffSwitch(op), backup, SwitchMaintenance(false));
      return if switched.Done? then Next else Abort;
    }

    method EnsureBackupLeaseReleased(op: Operation, backup: Object) returns (action: StageAction, updated: Object)
      requires Ready(op, BackupLeaseReleased, backup)
      modifies session
      ensures Outcome(op, BackupLeaseReleased, action, updated) && session.began == old(session.began)
    {
      if !IsPostProcessing(backup.conditions) && !backup.deleting { return Retry, backup; }
      var manager := new L.Manager(session);
      var state := manager.Release(op, R.OperationDelete, backup);
      return if state == ReleaseFailed then Abort else Next, backup;
    }

    method EnsureBackupRunCompleted(op: Operation, backup: Object) returns (action: StageAction, updated: Object)
      requires Ready(op, BackupRunCompleted, backup) && op != OperationDelete
      modifies session
      ensures Outcome(op, BackupRunCompleted, action, updated) && session.began == old(session.began)
    {
      if !IsPostProcessing(backup.conditions) { return Retry, backup; }
      var patched := LastCall(DonePatch, backup, Put(key, backup, Succeeded, RunOutcome(backup.conditions)));
      return if patched.FoundObject? && IsTrue(backup.conditions, Canceled) then Retry else Abort, backup;
    }

    // ---- the stages after the run

    method EnsureOrphanedBackupDeleted(backup: Object) returns (action: StageAction, updated: Object)
      requires Ready(OperationIgnore, OrphanedBackupDeleted, backup)
      modifies session
      ensures Outcome(OperationIgnore, OrphanedBackupDeleted, action, updated) && session.began == old(session.began)
    {
      if !backup.started { return Next, backup; }
      if IsTrue(backup.conditions, Canceled) { return Next, backup; }
      action := DeleteIfOrphaned(backup);
      updated := backup;
    }

    method DeleteIfOrphaned(backup: Object) returns (action: StageAction)
      requires session.Valid() && session.worker == System.Reconciler(key) && session.InBackup(Go(OrphanGet, backup))
      modifies session
      ensures Outcome(OperationIgnore, OrphanedBackupDeleted, action, backup) && session.began == old(session.began)
    {
      var own := DeleteCall(OrphanGet, backup, GetProviderBackup(key.name));
      if own.FoundProviderBackup? { return Next; }
      if !own.NotFound? { return Abort; }
      var deleted := LastCall(OrphanDelete, backup, DeleteObject(key));
      return if deleted.Done? || deleted.NotFound? then Retry else Abort;
    }

    method EnsureCanceledProviderBackupDeleted(backup: Object) returns (action: StageAction, updated: Object)
      requires Ready(OperationIgnore, Stage.CanceledProviderBackupDeleted, backup)
      modifies session
      ensures Outcome(OperationIgnore, Stage.CanceledProviderBackupDeleted, action, updated) && session.began == old(session.began)
    {
      if !IsTrue(backup.conditions, Canceled) || !backup.started { return Next, backup; }
      var own := DeleteCall(CanceledGet, backup, GetProviderBackup(key.name));
      if own.FoundProviderBackup? {
        action := DeleteProviderBackup(backup, own.backup, ProviderBackupOnly);
        return action, backup;
      }
      if !own.NotFound? { return Abort, backup; }
      var done := DeletingCondition(ProviderBackupOnly, Reason.CanceledProviderBackupDeleted);
      if Deleting in backup.conditions && backup.conditions[Deleting] == done { return Next, backup; }
      var patched := LastCall(CanceledPatch, backup, Put(key, backup, Deleting, done));
      return if patched.FoundObject? then Next else Abort, backup;
    }

    method EnsureProviderBackupDeleted(backup: Object) returns (action: StageAction, updated: Object)
      requires Ready(OperationDelete, ProviderBackupDeleted, backup)
      modifies session
      ensures Outcome(OperationDelete, ProviderBackupDeleted, action, updated) && session.began == old(session.began)
    {
      var own := DeleteCall(DeleteGet, backup, GetProviderBackup(key.name));
      if own.FoundProviderBackup? {
        action := DeleteProviderBackup(backup, own.backup, BackupAndProviderBackup);
        return action, backup;
      }
      if !own.NotFound? { return Abort, backup; }
      var dropped := LastCall(FinalizerDrop, backup, UpdateMetadata(key, backup.uid, backup.version, false));
      return Abort, backup;
    }

    method DeleteProviderBackup(backup: Object, own: ProviderBackup, scope: Scope) returns (action: StageAction)
      requires session.Valid() && session.worker == System.Reconciler(key) && session.InBackup(BackupWorkflow.DeleteProviderBackup(scope, own, backup))
      modifies session
      ensures session.Valid() && session.InBackup(Stop) && action != Next && session.began == old(session.began)
    {
      if IsRunning(own.phase) {
        action := DropRequest(backup, scope, WaitingForProviderBackupCompletion);
      } else {
        action := RequestDeletion(backup, scope);
      }
    }

    method DeleteRequestIfExists(backup: Object, scope: Scope, why: Reason) returns (gone: bool)
      requires session.Valid() && session.worker == System.Reconciler(key) && session.InBackup(Go(DropGet(scope, why), backup))
      modifies session
      ensures session.Valid() && session.InBackup(if gone then Go(DeletingPatch(scope, why), backup) else Stop) && session.began == old(session.began)
    {
      var request := RequestCall(DropGet(scope, why), backup, GetDeleteRequest(key.name));
      if request.NotFound? { return true; }
      if !request.Answer? { return false; }
      var dropped := RequestCall(DropDelete(scope, why), backup, DropDeleteRequest(key.name));
      return dropped.Done? || dropped.NotFound?;
    }

    /** Drops a request, and reports it. */
    method DropRequest(backup: Object, scope: Scope, why: Reason) returns (action: StageAction)
      requires session.Valid() && session.worker == System.Reconciler(key) && session.InBackup(Go(DropGet(scope, why), backup))
      modifies session
      ensures session.Valid() && session.InBackup(Stop) && action != Next && session.began == old(session.began)
    {
      var gone := DeleteRequestIfExists(backup, scope, why);
      if !gone { return Abort; }
      action := PatchDeleting(backup, scope, why);
    }

    /** The request, or a new one; None if that failed. */
    method CreateRequestIfNotExists(backup: Object, scope: Scope) returns (processed: Option<bool>)
      requires session.Valid() && session.worker == System.Reconciler(key) && session.InBackup(Go(RequestGet(scope), backup))
      modifies session
      ensures session.Valid() && session.began == old(session.began)
      ensures session.InBackup(if processed.None? then Stop
                               else if processed.value then Go(DropGet(scope, ProviderBackupDeletionRetried), backup)
                               else Go(DeletingPatch(scope, BackupDeleting), backup))
    {
      var request := RequestCall(RequestGet(scope), backup, GetDeleteRequest(key.name));
      if request.Answer? { return Some(request.yes); }
      if !request.NotFound? { return None; }
      var created := RequestCall(RequestCreate(scope), backup, CreateDeleteRequest(key.name));
      return if created.Done? then Some(false) else None;
    }

    /** A request that was processed in vain is dropped. */
    method RequestDeletion(backup: Object, scope: Scope) returns (action: StageAction)
      requires session.Valid() && session.worker == System.Reconciler(key) && session.InBackup(Go(RequestGet(scope), backup))
      modifies session
      ensures session.Valid() && session.InBackup(Stop) && action != Next && session.began == old(session.began)
    {
      var processed := CreateRequestIfNotExists(backup, scope);
      if processed.None? { return Abort; }
      if processed.value {
        action := DropRequest(backup, scope, ProviderBackupDeletionRetried);
      } else {
        action := PatchDeleting(backup, scope, BackupDeleting);
      }
    }

    method PatchDeleting(backup: Object, scope: Scope, why: Reason) returns (action: StageAction)
      requires session.Valid() && session.worker == System.Reconciler(key) && session.InBackup(Go(DeletingPatch(scope, why), backup))
      modifies session
      ensures session.Valid() && session.InBackup(Stop) && action != Next && session.began == old(session.began)
    {
      var patched := LastCall(DeletingPatch(scope, why), backup, Put(key, backup, Deleting, DeletingCondition(scope, why)));
      return if patched.FoundObject? then Retry else Abort;
    }

    // ---- the loop

    /** From where the k-th stage of the list starts to where the next one does, or to the end of the pass. */
    method Ensure(op: Operation, ghost k: nat, stage: Stage, backup: Object) returns (action: StageAction, updated: Object)
      requires session.Valid() && session.worker == System.Reconciler(key)
      requires k < |StagesFor(op)| && stage == StagesFor(op)[k] && session.InBackup(AfterStages(op, k, backup))
      modifies session
      ensures session.Valid() && session.InBackup(if action == Next then AfterStages(op, k + 1, updated) else Stop)
      ensures session.began == old(session.began)
    {
      action, updated := Dispatch(op, stage, backup);
      StagesFollow(op, k, updated);
    }

    method Dispatch(op: Operation, stage: Stage, backup: Object) returns (action: StageAction, updated: Object)
      requires Ready(op, stage, backup) && stage in StagesFor(op)
      modifies session
      ensures Outcome(op, stage, action, updated) && session.began == old(session.began)
    {
      match stage
      case VeleroStatusSynced => action, updated := EnsureVeleroStatusSynced(backup);
      case ConditionsInitialized => action, updated := EnsureConditionsInitialized(backup);
      case BackupSetup => action, updated := EnsureBackupSetup(backup);
      case BackupIsCanceledAfterTimeWindowExpired => action, updated := EnsureBackupIsCanceledAfterTimeWindowExpired(backup);
      case BackupIsPrepared => action, updated := EnsureBackupIsPrepared(backup);
      case ActiveBackupLease => action, updated := EnsureActiveBackupLease(backup);
      case MaintenanceActivated => action, updated := EnsureMaintenanceActivated(backup);
      case ProviderBackupCreated => action, updated := EnsureProviderBackupCreated(backup);
      case ProviderBackupCompleted => action, updated := EnsureProviderBackupCompleted(backup);
      case MaintenanceDeactivated => action, updated := EnsureMaintenanceDeactivated(op, backup);
      case BackupLeaseReleased => action, updated := EnsureBackupLeaseReleased(op, backup);
      case BackupRunCompleted => action, updated := EnsureBackupRunCompleted(op, backup);
      case OrphanedBackupDeleted => action, updated := EnsureOrphanedBackupDeleted(backup);
      case CanceledProviderBackupDeleted => action, updated := EnsureCanceledProviderBackupDeleted(backup);
      case ProviderBackupDeleted => action, updated := EnsureProviderBackupDeleted(backup);
    }

    /** One pass of the transition system and nothing else: whatever happens in between, the worker reads its backup first,
        and then makes every call up to where the transition system ends the pass. */
    method Reconcile()
      requires session.Valid() && session.IsIdle() && session.worker == System.Reconciler(key) && key.kind == Kind.Backup
      modifies session
      ensures session.IsDone(old(session.history))
    {
      session.Begin();
      var found := session.GetOwn();
      if !found.FoundObject? { return; }
      var backup := found.obj;
      var op := RequiredOperation(backup);
      FirstStage(backup);
      var stages := StagesFor(op);
      for k := 0 to |stages|
        invariant session.Valid() && session.InBackup(AfterStages(op, k, backup)) && session.began == old(session.history)
      {
        var action;
        action, backup := Ensure(op, k, stages[k], backup);
        if action != Next { return; }
      }
    }
  }
}
