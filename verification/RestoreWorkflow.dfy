/** One pass of the restore controller, as the API call it is about to make and what it does with the
    answer. Stages follow the order of Reconcile's stage lists; a stage that needs no call is passed
    through. A status write is one call here: StatusWriter shows that its retry loop behaves like one. */
module RestoreWorkflow {
  import opened Conditions
  import opened Cluster
  import opened Leases

  datatype Operation = OperationCreate | OperationIgnore | OperationDelete

  datatype RestorePc =
      // ensureLegacyConditionsMigrated, ensureConditionsInitialized, ensureMetadata
    | MigrateWrite(op: Operation) | SeedWrite | MetadataUpdate
      // ensureProviderChildState
    | BarrierGet | ConflictWrite
      // ensureActiveRestoreLease
    | Acquire(acquire: AcquirePc) | WaitingWrite | InvalidWrite | LeaseHeldWrite
      // ensureProviderReady, ensureSourceBackupUsable
    | ReadyChild | ReadyAsk | UnreadyWrite
    | SourceChild | SourceAsk | UnusableWrite
      // ensureMaintenanceModeActivated
    | MaintenanceGet | MaintenanceOn
      // ensurePreparation
    | PrepareChild | PrepareScaleDown | PrepareCleanup | PrepareFailedWrite | PreparedWrite
      // ensureProviderRestore
    | ChildGet | ChildGetAgain | ChildCreate
      // ensureProviderCompletion
    | WatchGet | FailureOff | FailureWrite | ObservedWrite(observed: Condition)
      // ensureScaleUpInitiated, ensureWorkloadsReady, ensureScaleUpFinalized
    | ScaleUpRun | ScaleUpFailedWrite | ScaleUpWrite
    | ReadyObserve | NotReadyWrite | ReadyWrite
    | FinalizeRun | FinalizeFailedWrite | FinalizeWrite
      // ensureMaintenanceModeDeactivated, ensureRestoreCompleted
    | MaintenanceOff | MaintenanceOffWrite | CompletedWrite
      // ensureProviderRestoreDeleted, ensureDeletingStatus, ensureRestoreLeaseReleased, ensureDeletionFinalized
    | DeleteGet | DeleteChild(child: nat) | DeletingWrite
    | Release(op: Operation, release: ReleasePc) | FinalizerDrop

  datatype RestoreNext = Stop | Go(pc: RestorePc, copy: Object)

  function RequiredOperation(o: Object): Operation {
    if o.deleting then OperationDelete
    else if IsTerminal(Restore, o) then OperationIgnore
    else OperationCreate
  }

  predicate IsOwned(copy: Object, child: ProviderRestore) { child.owner != 0 && child.owner == copy.uid }

  predicate Conflicts(copy: Object, child: ProviderRestore) { !IsOwned(copy, child) || child.source != copy.source }

  /** observeProviderRestoreState: what the condition says about the child's state. */
  function Observation(state: RestoreState): Condition {
    match state
    case RestorePending => Condition(Unknown, ProviderRestorePending)
    case RestoreRunning => Condition(Unknown, ProviderRestoreRunning)
    case RestoreSucceeded => Condition(True, ProviderRestoreCompleted)
    case RestoreFailed => Condition(False, ProviderRestoreFailed)
    case RestoreStateUnknown => Condition(Unknown, ProviderRestoreStateUnknown)
  }

  predicate HasDeactivatedMaintenance(conditions: Conditions) {
    WorkloadsRecovered in conditions
    && (conditions[WorkloadsRecovered].status == True || conditions[WorkloadsRecovered].reason == MaintenanceModeDeactivated)
  }

  const AFTER_READY: set<Reason> := {WorkloadsReady, ScaleUpFinalized, MaintenanceModeDeactivated}

  // ---- entering a stage

  function Start(copy: Object): RestoreNext {
    match RequiredOperation(copy)
    case OperationDelete => Go(DeleteGet, copy)
    case op =>
      if Succeeded !in copy.conditions && LegacySucceeded(copy.legacy).Some? then Go(MigrateWrite(op), copy)
      else AfterMigration(op, copy)
  }

  function AfterMigration(op: Operation, copy: Object): RestoreNext {
    if op == OperationIgnore then Go(Release(op, ObserveOwn), copy)
    else if Missing(copy.conditions, INITIAL_RESTORE_CONDITIONS) != map[] then Go(SeedWrite, copy)
    else if !copy.finalizer || !copy.labeled then Go(MetadataUpdate, copy)
    else Go(BarrierGet, copy)
  }

  function EnterLease(copy: Object): RestoreNext {
    if RequiredOperation(copy) != OperationCreate then EnterReady(copy) else Go(Acquire(Observe), copy)
  }

  function AfterAcquire(state: LeaseState, copy: Object): RestoreNext {
    match state
    case Held =>
      if Succeeded in copy.conditions && copy.conditions[Succeeded].reason in {WaitingForActiveRestore, InvalidRestoreLease}
      then Go(LeaseHeldWrite, copy) else EnterReady(copy)
    case Waiting => Go(WaitingWrite, copy)
    case Invalid => Go(InvalidWrite, copy)
    case _ => Stop
  }

  function EnterReady(copy: Object): RestoreNext {
    if IsTrue(copy.conditions, Prepared) then EnterSource(copy) else Go(ReadyChild, copy)
  }

  function EnterSource(copy: Object): RestoreNext {
    if IsTrue(copy.conditions, Prepared) then EnterMaintenance(copy) else Go(SourceChild, copy)
  }

  function EnterMaintenance(copy: Object): RestoreNext {
    if HasDeactivatedMaintenance(copy.conditions) then EnterPreparation(copy) else Go(MaintenanceGet, copy)
  }

  function EnterPreparation(copy: Object): RestoreNext {
    if IsTrue(copy.conditions, Prepared) then EnterChild(copy) else Go(PrepareChild, copy)
  }

  function EnterChild(copy: Object): RestoreNext {
    if IsTrue(copy.conditions, ProviderSucceeded) then EnterWatch(copy) else Go(ChildGet, copy)
  }

  function EnterWatch(copy: Object): RestoreNext {
    if IsTrue(copy.conditions, ProviderSucceeded) then Go(ScaleUpRun, copy) else Go(WatchGet, copy)
  }

  function EnterCompleted(copy: Object): RestoreNext {
    if IsTrue(copy.conditions, WorkloadsRecovered) && IsTrue(copy.conditions, Succeeded) then Stop
    else if !IsUnknownFor(copy.conditions, WorkloadsRecovered, {MaintenanceModeDeactivated}) then Stop
    else Go(CompletedWrite, copy)
  }

  function EnterDeleting(copy: Object): RestoreNext {
    if copy.legacy == LegacyDeleting then Go(Release(OperationDelete, ObserveOwn), copy) else Go(DeletingWrite, copy)
  }

  function AfterRelease(op: Operation, copy: Object): RestoreNext {
    if op != OperationDelete || !copy.finalizer then Stop else Go(FinalizerDrop, copy)
  }

  // ---- the call and the reaction to its answer

  function Recovery(key: Key, c: Condition): Request { WriteStatus(key, map[WorkloadsRecovered := c]) }

  function RestoreRequest(pc: RestorePc, key: Key, copy: Object): Request {
    match pc
    case MigrateWrite(_) =>
      var migrated := LegacySucceeded(copy.legacy);
      WriteStatus(key, if migrated.Some? then map[Succeeded := migrated.value] else map[])
    case SeedWrite => WriteStatus(key, Missing(copy.conditions, INITIAL_RESTORE_CONDITIONS))
    case MetadataUpdate => UpdateMetadata(key, copy.uid, copy.version, true)
    case BarrierGet => GetProviderRestore(key.name)
    case ConflictWrite =>
      WriteStatus(key, map[ProviderSucceeded := Condition(False, ProviderRestoreConflict),
                           Succeeded := Condition(False, ProviderRestoreConflict)])
    case Acquire(acquire) => AcquireRequest(acquire, HolderOf(key, copy))
    case WaitingWrite => WriteStatus(key, map[Succeeded := Condition(Unknown, WaitingForActiveRestore)])
    case InvalidWrite => WriteStatus(key, map[Succeeded := Condition(Unknown, InvalidRestoreLease)])
    case LeaseHeldWrite => WriteStatus(key, map[Succeeded := Condition(Unknown, RestoreLeaseAcquired)])
    case ReadyChild => GetProviderRestore(key.name)
    case ReadyAsk => Ask
    case UnreadyWrite => WriteStatus(key, map[Prepared := Condition(False, ProviderNotReady)])
    case SourceChild => GetProviderRestore(key.name)
    case SourceAsk => Ask
    case UnusableWrite =>
      WriteStatus(key, map[Prepared := Condition(False, SourceBackupNotUsable),
                           Succeeded := Condition(False, SourceBackupNotUsable)])
    case MaintenanceGet => GetMaintenance
    case MaintenanceOn => SwitchMaintenance(true)
    case PrepareChild => GetProviderRestore(key.name)
    case PrepareScaleDown => DoWork(ScaleDown)
    case PrepareCleanup => DoWork(Cleanup)
    case PrepareFailedWrite => WriteStatus(key, map[Prepared := Condition(False, PreparationFailed)])
    case PreparedWrite => WriteStatus(key, map[Prepared := Condition(True, PreparationCompleted)])
    case ChildGet => GetProviderRestore(key.name)
    case ChildGetAgain => GetProviderRestore(key.name)
    case ChildCreate => CreateProviderRestore(key.name, copy.uid, copy.source)
    case WatchGet => GetProviderRestore(key.name)
    case FailureOff => SwitchMaintenance(false)
    case FailureWrite =>
      WriteStatus(key, map[ProviderSucceeded := Condition(False, ProviderRestoreFailed),
                           WorkloadsRecovered := Condition(False, RecoveryNotAttemptedAfterProviderFailure),
                           Succeeded := Condition(False, ProviderRestoreFailed)])
    case ObservedWrite(observed) => WriteStatus(key, map[ProviderSucceeded := observed])
    case ScaleUpRun => DoWork(ScaleUp)
    case ScaleUpFailedWrite => Recovery(key, Condition(False, WorkloadRecoveryFailed))
    case ScaleUpWrite => Recovery(key, Condition(Unknown, ScaleUpInitiated))
    case ReadyObserve => Ask
    case NotReadyWrite => Recovery(key, Condition(Unknown, WaitingForWorkloads))
    case ReadyWrite => Recovery(key, Condition(Unknown, WorkloadsReady))
    case FinalizeRun => DoWork(FinalizeScaleUp)
    case FinalizeFailedWrite => Recovery(key, Condition(False, WorkloadRecoveryFailed))
    case FinalizeWrite => Recovery(key, Condition(Unknown, ScaleUpFinalized))
    case MaintenanceOff => SwitchMaintenance(false)
    case MaintenanceOffWrite => Recovery(key, Condition(Unknown, MaintenanceModeDeactivated))
    case CompletedWrite =>
      WriteStatus(key, map[WorkloadsRecovered := Condition(True, WorkloadRecoveryCompleted),
                           Succeeded := Condition(True, RestoreCompleted)])
    case DeleteGet => GetProviderRestore(key.name)
    case DeleteChild(child) => DeleteProviderRestore(key.name, child)
    case DeletingWrite => WriteStatus(key, map[])
    case Release(_, release) => ReleaseRequest(release)
    case FinalizerDrop => UpdateMetadata(key, copy.uid, copy.version, false)
  }

  function RestoreStep(pc: RestorePc, key: Key, copy: Object, r: Response): RestoreNext {
    if pc.MigrateWrite? || pc.BarrierGet? || pc.Acquire? then OpeningStep(pc, key, copy, r)
    else if pc.ReadyChild? || pc.ReadyAsk? || pc.SourceChild? || pc.SourceAsk? then GateStep(pc, copy, r)
    else if pc.MaintenanceGet? || pc.MaintenanceOn? || pc.PrepareChild? || pc.PrepareScaleDown? || pc.PrepareCleanup? then
      PreparationStep(pc, copy, r)
    else if pc.ChildGet? || pc.ChildGetAgain? || pc.WatchGet? || pc.FailureOff? then ProviderStep(pc, copy, r)
    else if pc.ScaleUpRun? || pc.ReadyObserve? || pc.FinalizeRun? || pc.MaintenanceOff? then RecoveryStep(pc, copy, r)
    else if pc.DeleteGet? || pc.Release? then DeletionStep(pc, key, copy, r)
    else Stop                                      // every write but the migration ends the pass
  }

  function OpeningStep(pc: RestorePc, key: Key, copy: Object, r: Response): RestoreNext {
    match pc
    case MigrateWrite(op) => if r.FoundObject? then AfterMigration(op, r.obj) else Stop
    case BarrierGet =>
      if r.NotFound? then EnterLease(copy)
      else if !r.FoundProviderRestore? then Stop
      else if Conflicts(copy, r.restore) then Go(ConflictWrite, copy)
      else EnterLease(copy)
    case Acquire(acquire) =>
      (match AcquireStep(acquire, HolderOf(key, copy), r)
       case Going(acquire') => Go(Acquire(acquire'), copy)
       case Ended(state) => AfterAcquire(state, copy))
    case _ => Stop
  }

  function GateStep(pc: RestorePc, copy: Object, r: Response): RestoreNext {
    match pc
    case ReadyChild =>
      if r.FoundProviderRestore? && IsOwned(copy, r.restore) then EnterSource(copy)
      else if r.NotFound? || r.FoundProviderRestore? then Go(ReadyAsk, copy)
      else Stop
    case ReadyAsk => if !r.Answer? then Stop else if r.yes then EnterSource(copy) else Go(UnreadyWrite, copy)
    case SourceChild =>
      if r.FoundProviderRestore? && IsOwned(copy, r.restore) then EnterMaintenance(copy)
      else if r.NotFound? || r.FoundProviderRestore? then Go(SourceAsk, copy)
      else Stop
    case SourceAsk => if !r.Answer? then Stop else if r.yes then EnterMaintenance(copy) else Go(UnusableWrite, copy)
    case _ => Stop
  }

  /** Maintenance mode is switched on with best effort: neither a failing read nor a failing switch stops the pass. */
  function PreparationStep(pc: RestorePc, copy: Object, r: Response): RestoreNext {
    match pc
    case MaintenanceGet => if r.Answer? && r.yes then EnterPreparation(copy) else Go(MaintenanceOn, copy)
    case MaintenanceOn => EnterPreparation(copy)
    case PrepareChild =>
      if r.FoundProviderRestore? && IsOwned(copy, r.restore) then EnterChild(copy)
      else if r.NotFound? || r.FoundProviderRestore? then Go(PrepareScaleDown, copy)
      else Stop
    case PrepareScaleDown =>
      if r.Done? then Go(PrepareCleanup, copy) else if r.More? then Go(pc, copy) else Go(PrepareFailedWrite, copy)
    case PrepareCleanup =>
      if r.Done? then Go(PreparedWrite, copy) else if r.More? then Go(pc, copy) else Go(PrepareFailedWrite, copy)
    case _ => Stop
  }

  function ProviderStep(pc: RestorePc, copy: Object, r: Response): RestoreNext {
    match pc
    case ChildGet =>
      if r.NotFound? then Go(ChildGetAgain, copy) else if r.FoundProviderRestore? then EnterWatch(copy) else Stop
    case ChildGetAgain =>
      if r.NotFound? then Go(ChildCreate, copy)
      else if r.FoundProviderRestore? && Conflicts(copy, r.restore) then Go(ConflictWrite, copy)
      else Stop
    case WatchGet =>
      if !r.FoundProviderRestore? then Stop
      else
        var observed := Observation(r.restore.state);
        if observed.status == False then Go(FailureOff, copy) else Go(ObservedWrite(observed), copy)
    case FailureOff => Go(FailureWrite, copy)      // best effort as well
    case _ => Stop
  }

  function RecoveryStep(pc: RestorePc, copy: Object, r: Response): RestoreNext {
    match pc
    case ScaleUpRun =>
      if r.More? then Go(pc, copy)
      else if !r.Done? then Go(ScaleUpFailedWrite, copy)
      else if IsUnknownFor(copy.conditions, WorkloadsRecovered, AFTER_READY + {ScaleUpInitiated, WaitingForWorkloads})
      then Go(ReadyObserve, copy)
      else Go(ScaleUpWrite, copy)
    case ReadyObserve =>
      if !r.Answer? then Stop
      else if !r.yes then
        if IsUnknownFor(copy.conditions, WorkloadsRecovered, {WaitingForWorkloads}) then Stop else Go(NotReadyWrite, copy)
      else if IsUnknownFor(copy.conditions, WorkloadsRecovered, AFTER_READY) then Go(FinalizeRun, copy)
      else Go(ReadyWrite, copy)
    case FinalizeRun =>
      if r.More? then Go(pc, copy)
      else if !r.Done? then Go(FinalizeFailedWrite, copy)
      else if IsUnknownFor(copy.conditions, WorkloadsRecovered, {ScaleUpFinalized, MaintenanceModeDeactivated})
      then Go(MaintenanceOff, copy)
      else Go(FinalizeWrite, copy)
    case MaintenanceOff =>
      if !r.Done? then Stop
      else if IsUnknownFor(copy.conditions, WorkloadsRecovered, {MaintenanceModeDeactivated}) then EnterCompleted(copy)
      else Go(MaintenanceOffWrite, copy)
    case _ => Stop
  }

  function DeletionStep(pc: RestorePc, key: Key, copy: Object, r: Response): RestoreNext {
    match pc
    case DeleteGet =>
      if r.NotFound? then EnterDeleting(copy)
      else if !r.FoundProviderRestore? then Stop
      else
        var succeeded := EffectiveSucceeded(copy.conditions, copy.legacy);
        var isLegacy := succeeded.Some? && succeeded.value.reason == MigratedFromLegacyStatus;
        if !IsOwned(copy, r.restore) && !isLegacy then EnterDeleting(copy)
        else if r.restore.deleting then Stop
        else Go(DeleteChild(r.restore.uid), copy)
    case Release(op, release) =>
      (match ReleaseStep(release, HolderOf(key, copy), r)
       case Releasing(release') => Go(Release(op, release'), copy)
       case ReleaseEnded(state) => if state == ReleaseFailed then Stop else AfterRelease(op, copy))
    case _ => Stop
  }
}
