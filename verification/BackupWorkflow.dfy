/** One pass of the backup controller, as the API call it is about to make and what it does with the
    answer. Stages follow the order of the controller's stage lists; a stage that needs no call is
    passed through. */
module BackupWorkflow {
  import opened Conditions
  import opened Cluster
  import opened Leases

  datatype Operation = OperationCreate | OperationFinalize | OperationIgnore | OperationDelete

  datatype Scope = BackupAndProviderBackup | ProviderBackupOnly

  datatype BackupPc =
      // ensureVeleroStatusSynced
    | SyncGet | SyncPatch(seen: ProviderBackup)
      // ensureConditionsInitialized, ensureBackupSetup
    | SeedPatch | SetupList | SetupUpdate
      // ensureBackupIsCanceledAfterTimeWindowExpired
    | WindowAsk | WindowGet | OpenPatch(open: Reason) | CancelPatch(canceled: Reason)
      // ensureBackupIsPrepared
    | PrepareGet | PrepareAsk | PrepareList | PreparePatch(ready: bool)
      // ensureActiveBackupLease
    | Acquire(acquire: AcquirePc)
      // ensureMaintenanceActivated
    | MaintenanceGet | MaintenanceOn | MaintenancePatch
      // ensureProviderBackupCreated, ensureProviderBackupCompleted
    | OwnGet | OwnCreate | OwnPatch | WatchGet | RunningPatch | ResultPatch(succeeded: bool)
      // ensureMaintenanceDeactivated, ensureBackupLeaseReleased, ensureBackupRunCompleted
    | HoldsGet(op: Operation) | OffGet(op: Operation) | OffSwitch(op: Operation)
    | Release(op: Operation, release: ReleasePc) | DonePatch
      // ensureOrphanedBackupDeleted, ensureCanceledProviderBackupDeleted
    | OrphanGet | OrphanDelete | CanceledGet | CanceledPatch
      // ensureProviderBackupDeleted
    | DeleteGet | FinalizerDrop
    | RequestGet(scope: Scope) | RequestCreate(scope: Scope)
    | DropGet(scope: Scope, why: Reason) | DropDelete(scope: Scope, why: Reason)
    | DeletingPatch(scope: Scope, why: Reason)

  datatype BackupNext = Stop | Go(pc: BackupPc, copy: Object)

  predicate IsPostProcessing(conditions: Conditions) {
    Decided(conditions, ProviderSucceeded) || IsTrue(conditions, Canceled)
  }

  function RequiredOperation(o: Object): Operation {
    if o.deleting then OperationDelete
    else if Decided(o.conditions, Succeeded) then OperationIgnore
    else if IsPostProcessing(o.conditions) then OperationFinalize
    else OperationCreate
  }

  /** veleroStatusSyncOutcome: the condition that is written as ProviderSucceeded and as Succeeded. */
  function SyncOutcome(phase: BackupPhase): Condition {
    if phase == BackupCompleted then Condition(True, VeleroStatusSynced)
    else if HasFailed(phase) then Condition(False, VeleroBackupFailed)
    else Condition(Unknown, VeleroBackupRunning)
  }

  function RunOutcome(conditions: Conditions): Condition {
    if Decided(conditions, ProviderSucceeded) then conditions[ProviderSucceeded]
    else Condition(False, BackupCanceled)
  }

  function DeletingCondition(scope: Scope, why: Reason): Condition {
    Condition(if scope == ProviderBackupOnly then False else True, why)
  }

  // ---- entering a stage

  function Start(copy: Object): BackupNext {
    match RequiredOperation(copy)
    case OperationDelete => Close(OperationDelete, copy)
    case OperationIgnore => EnterOrphan(copy)
    case OperationFinalize => Close(OperationFinalize, copy)
    case OperationCreate => if copy.synced then Go(SyncGet, copy) else EnterSeed(copy)
  }

  function EnterSeed(copy: Object): BackupNext {
    if Missing(copy.conditions, INITIAL_BACKUP_CONDITIONS) == map[] then Go(SetupList, copy) else Go(SeedPatch, copy)
  }

  function Close(op: Operation, copy: Object): BackupNext {
    if !IsPostProcessing(copy.conditions) && !copy.deleting then Stop else Go(HoldsGet(op), copy)
  }

  /** A lease that was only just acquired is observed again by the next pass. */
  function AfterAcquire(state: LeaseState, copy: Object): BackupNext {
    if state == Held then Go(MaintenanceGet, copy) else Stop
  }

  function EnterRelease(op: Operation, copy: Object): BackupNext {
    if !IsPostProcessing(copy.conditions) && !copy.deleting then Stop else Go(Release(op, ObserveOwn), copy)
  }

  function AfterRelease(op: Operation, copy: Object): BackupNext {
    if op == OperationDelete then Go(DeleteGet, copy)
    else if !IsPostProcessing(copy.conditions) then Stop
    else Go(DonePatch, copy)
  }

  function EnterOrphan(copy: Object): BackupNext {
    if !copy.started || IsTrue(copy.conditions, Canceled) then EnterCanceled(copy) else Go(OrphanGet, copy)
  }

  function EnterCanceled(copy: Object): BackupNext {
    if !IsTrue(copy.conditions, Canceled) || !copy.started then Stop else Go(CanceledGet, copy)
  }

  // ---- the call and the reaction to its answer

  function Put(key: Key, copy: Object, t: Type, c: Condition): Request {
    PatchStatus(key, copy.conditions[t := c], false)
  }

  function BackupRequest(pc: BackupPc, key: Key, copy: Object): Request {
    match pc
    case SyncGet => GetProviderBackup(key.name)
    case SyncPatch(seen) =>
      PatchStatus(key, copy.conditions[Prepared := Condition(True, VeleroStatusSynced)]
                       [ProviderSucceeded := SyncOutcome(seen.phase)][Succeeded := SyncOutcome(seen.phase)],
                  seen.stamped)
    case SeedPatch => PatchStatus(key, copy.conditions + Missing(copy.conditions, INITIAL_BACKUP_CONDITIONS), false)
    case SetupList => Ask
    case SetupUpdate => UpdateMetadata(key, copy.uid, copy.version, true)
    case WindowAsk => Ask
    case WindowGet => GetProviderBackup(key.name)
    case OpenPatch(why) => Put(key, copy, Canceled, Condition(False, why))
    case CancelPatch(why) => Put(key, copy, Canceled, Condition(True, why))
    case PrepareGet => GetProviderBackup(key.name)
    case PrepareAsk => Ask
    case PrepareList => ListProviderBackups(key.name)
    case PreparePatch(ready) =>
      Put(key, copy, Prepared, if ready then Condition(True, ProviderReady) else Condition(False, ProviderNotReady))
    case Acquire(acquire) => AcquireRequest(acquire, HolderOf(key, copy))
    case MaintenanceGet => GetMaintenance
    case MaintenanceOn => SwitchMaintenance(true)
    case MaintenancePatch => Put(key, copy, Succeeded, Condition(Unknown, MaintenanceModesIsNotActive))
    case OwnGet => GetProviderBackup(key.name)
    case OwnCreate => CreateProviderBackup(key.name)
    case OwnPatch =>
      PatchStatus(key, copy.conditions[Succeeded := Condition(Unknown, ProviderBackupResourceDoesNotExist)], true)
    case WatchGet => GetProviderBackup(key.name)
    case RunningPatch => Put(key, copy, ProviderSucceeded, Condition(Unknown, ProviderBackupInProgress))
    case ResultPatch(succeeded) =>
      Put(key, copy, ProviderSucceeded,
          if succeeded then Condition(True, ProviderBackupSucceeded) else Condition(False, ProviderBackupFailed))
    case HoldsGet(_) => GetLease
    case OffGet(_) => GetMaintenance
    case OffSwitch(_) => SwitchMaintenance(false)
    case Release(_, release) => ReleaseRequest(release)
    case DonePatch => Put(key, copy, Succeeded, RunOutcome(copy.conditions))
    case OrphanGet => GetProviderBackup(key.name)
    case OrphanDelete => DeleteObject(key)
    case CanceledGet => GetProviderBackup(key.name)
    case CanceledPatch => Put(key, copy, Deleting, DeletingCondition(ProviderBackupOnly, CanceledProviderBackupDeleted))
    case DeleteGet => GetProviderBackup(key.name)
    case FinalizerDrop => UpdateMetadata(key, copy.uid, copy.version, false)
    case RequestGet(_) => GetDeleteRequest(key.name)
    case RequestCreate(_) => CreateDeleteRequest(key.name)
    case DropGet(_, _) => GetDeleteRequest(key.name)
    case DropDelete(_, _) => DropDeleteRequest(key.name)
    case DeletingPatch(scope, why) => Put(key, copy, Deleting, DeletingCondition(scope, why))
  }

  /** After a status patch or an update the worker goes on with what the server stored. */
  function AfterPatch(r: Response, next: BackupPc): BackupNext {
    if r.FoundObject? then Go(next, r.obj) else Stop
  }

  function BackupStep(pc: BackupPc, key: Key, copy: Object, r: Response): BackupNext {
    if pc.SyncGet? || pc.SyncPatch? || pc.SeedPatch? || pc.SetupList? || pc.SetupUpdate? then SetupStep(pc, copy, r)
    else if pc.WindowAsk? || pc.WindowGet? || pc.OpenPatch? || pc.CancelPatch? then WindowStep(pc, copy, r)
    else if pc.PrepareGet? || pc.PrepareAsk? || pc.PrepareList? || pc.PreparePatch? then PrepareStep(pc, copy, r)
    else if pc.Acquire? then
      match AcquireStep(pc.acquire, HolderOf(key, copy), r)
      case Going(acquire) => Go(Acquire(acquire), copy)
      case Ended(state) => AfterAcquire(state, copy)
    else if pc.MaintenanceGet? || pc.MaintenanceOn? || pc.MaintenancePatch? || pc.OwnGet? || pc.OwnCreate? || pc.OwnPatch?
         || pc.WatchGet? || pc.RunningPatch? || pc.ResultPatch? then RunStep(pc, copy, r)
    else if pc.HoldsGet? || pc.OffGet? || pc.OffSwitch? then CloseStep(pc, key, copy, r)
    else if pc.Release? then
      match ReleaseStep(pc.release, HolderOf(key, copy), r)
      case Releasing(release) => Go(Release(pc.op, release), copy)
      case ReleaseEnded(state) => if state == ReleaseFailed then Stop else AfterRelease(pc.op, copy)
    else if pc.OrphanGet? || pc.CanceledGet? || pc.DeleteGet? then DeleteStep(pc, copy, r)
    else if pc.RequestGet? || pc.RequestCreate? || pc.DropGet? || pc.DropDelete? then RequestStep(pc, copy, r)
    else Stop
  }

  function SetupStep(pc: BackupPc, copy: Object, r: Response): BackupNext {
    match pc
    case SyncGet => if r.FoundProviderBackup? then Go(SyncPatch(r.backup), copy) else Stop
    case SyncPatch(_) => Stop                      // the outcome is Retry or Abort, never Next
    case SeedPatch => AfterPatch(r, SetupList)
    case SetupList =>
      // the answer says whether labels and annotations already match the blueprint
      if !r.Answer? then Stop
      else if r.yes && copy.finalizer then Go(WindowAsk, copy)
      else Go(SetupUpdate, copy)
    case SetupUpdate => AfterPatch(r, WindowAsk)
    case _ => Stop
  }

  function WindowStep(pc: BackupPc, copy: Object, r: Response): BackupNext {
    match pc
    case WindowAsk =>
      // the answer says whether the time window is still open
      if !r.Answer? then Stop
      else if r.yes then Go(OpenPatch(TimeWindowNotExpired), copy)
      else if !copy.started then Go(CancelPatch(TimeWindowExpiredBackupNotStarted), copy)
      else Go(WindowGet, copy)
    case WindowGet =>
      if r.NotFound? then Go(CancelPatch(TimeWindowExpiredProviderBackupMissing), copy)
      else if !r.FoundProviderBackup? then Stop
      else if IsBlank(r.backup) then Go(CancelPatch(TimeWindowExpiredProviderBackupMissing), copy)
      else if IsRunning(r.backup.phase) then Go(CancelPatch(TimeWindowExpiredBackupInProgress), copy)
      else Go(OpenPatch(TimeWindowExpiredBackupTerminated), copy)
    case OpenPatch(_) => AfterPatch(r, PrepareGet)
    case _ => Stop                                 // a canceled run is finalized by the next pass
  }

  function PrepareStep(pc: BackupPc, copy: Object, r: Response): BackupNext {
    match pc
    case PrepareGet =>
      if r.NotFound? then Go(PrepareAsk, copy)
      else if r.FoundProviderBackup? then Go(Acquire(Observe), copy)
      else Stop
    case PrepareAsk =>
      if !r.Answer? then Stop
      else if r.yes && !copy.started then Go(PrepareList, copy)
      else Go(PreparePatch(r.yes), copy)
    case PrepareList => if r.Answer? then Go(PreparePatch(!r.yes), copy) else Stop
    case PreparePatch(ready) => if ready then AfterPatch(r, Acquire(Observe)) else Stop
    case _ => Stop
  }

  function RunStep(pc: BackupPc, copy: Object, r: Response): BackupNext {
    match pc
    case MaintenanceGet =>
      if !r.Answer? then Stop else if r.yes then Go(OwnGet, copy) else Go(MaintenanceOn, copy)
    case MaintenanceOn => if r.Done? then Go(MaintenancePatch, copy) else Stop
    case OwnGet =>
      if r.NotFound? then Go(OwnCreate, copy)
      else if r.FoundProviderBackup? then Go(WatchGet, copy)
      else Stop
    case OwnCreate => if r.Done? then Go(OwnPatch, copy) else Stop
    case WatchGet =>
      if !r.FoundProviderBackup? then Stop
      else if IsRunning(r.backup.phase) then Go(RunningPatch, copy)
      else if HasFailed(r.backup.phase) then Go(ResultPatch(false), copy)
      else if r.backup.phase == BackupCompleted then Go(ResultPatch(true), copy)
      else Stop
    case ResultPatch(_) => if r.FoundObject? then Close(OperationCreate, r.obj) else Stop
    case _ => Stop
  }

  function CloseStep(pc: BackupPc, key: Key, copy: Object, r: Response): BackupNext {
    match pc
    case HoldsGet(op) =>
      if r.NotFound? then EnterRelease(op, copy)
      else if !r.FoundLease? then Stop
      else if IsHolder(r.lease, HolderOf(key, copy)) then Go(OffGet(op), copy)
      else EnterRelease(op, copy)
    case OffGet(op) =>
      if !r.Answer? then Stop else if r.yes then Go(OffSwitch(op), copy) else EnterRelease(op, copy)
    case OffSwitch(op) => if r.Done? then EnterRelease(op, copy) else Stop
    case _ => Stop
  }

  /** deleteProviderBackup: a running provider backup is waited for, any other is asked to go. */
  function DeleteProviderBackup(scope: Scope, seen: ProviderBackup, copy: Object): BackupNext {
    if IsRunning(seen.phase) then Go(DropGet(scope, WaitingForProviderBackupCompletion), copy)
    else Go(RequestGet(scope), copy)
  }

  function DeleteStep(pc: BackupPc, copy: Object, r: Response): BackupNext {
    match pc
    case OrphanGet =>
      if r.NotFound? then Go(OrphanDelete, copy)
      else if r.FoundProviderBackup? then EnterCanceled(copy)
      else Stop
    case CanceledGet =>
      if r.NotFound? then
        var done := DeletingCondition(ProviderBackupOnly, CanceledProviderBackupDeleted);
        if Deleting in copy.conditions && copy.conditions[Deleting] == done then Stop else Go(CanceledPatch, copy)
      else if r.FoundProviderBackup? then DeleteProviderBackup(ProviderBackupOnly, r.backup, copy)
      else Stop
    case DeleteGet =>
      if r.NotFound? then Go(FinalizerDrop, copy)
      else if r.FoundProviderBackup? then DeleteProviderBackup(BackupAndProviderBackup, r.backup, copy)
      else Stop
    case _ => Stop
  }

  function RequestStep(pc: BackupPc, copy: Object, r: Response): BackupNext {
    match pc
    case RequestGet(scope) =>
      if r.NotFound? then Go(RequestCreate(scope), copy)
      else if !r.Answer? then Stop
      else if r.yes then Go(DropGet(scope, ProviderBackupDeletionRetried), copy)
      else Go(DeletingPatch(scope, BackupDeleting), copy)
    case RequestCreate(scope) => if r.Done? then Go(DeletingPatch(scope, BackupDeleting), copy) else Stop
    case DropGet(scope, why) =>
      if r.NotFound? then Go(DeletingPatch(scope, why), copy)
      else if r.Answer? then Go(DropDelete(scope, why), copy)
      else Stop
    case DropDelete(scope, why) => if r.Done? || r.NotFound? then Go(DeletingPatch(scope, why), copy) else Stop
    case _ => Stop
  }
}
