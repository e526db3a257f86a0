/** The restore controller: the stage lists, the stages, and the loop that runs them. */
module RestoreController {
  import opened Conditions
  import opened Cluster
  import opened Leases
  import opened System
  import opened Sessions
  import opened RestoreWorkflow
  import L = LeaseManager
  import B = BackupWorkflow

  datatype StageOutcome = Next | Retry | Abort

  datatype Stage =
    | LegacyConditionsMigrated | ConditionsInitialized | Metadata | ProviderChildState | ActiveRestoreLease
    | ProviderReadiness | SourceBackupUsable | MaintenanceModeActivated | Preparation | ProviderRestoreStarted | ProviderCompletion
    | ScaleUp | Readiness | ScaleUpFinalization | MaintenanceModeOff | Completion
    | ProviderRestoreDeleted | DeletingStatus | RestoreLeaseReleased | DeletionFinalized

  function StagesFor(op: Operation): seq<Stage> {
    match op
    case OperationDelete => [ProviderRestoreDeleted, DeletingStatus, RestoreLeaseReleased, DeletionFinalized]
    case OperationIgnore => [LegacyConditionsMigrated, RestoreLeaseReleased]
    case OperationCreate =>
      [LegacyConditionsMigrated, ConditionsInitialized, Metadata, ProviderChildState, ActiveRestoreLease,
       ProviderReadiness, SourceBackupUsable, MaintenanceModeActivated, Preparation, ProviderRestoreStarted, ProviderCompletion,
       Stage.ScaleUp, Readiness, ScaleUpFinalization, MaintenanceModeOff, Completion]
  }

  function EnterMetadata(copy: Object): RestoreNext {
    if !copy.finalizer || !copy.labeled then Go(MetadataUpdate, copy) else Go(BarrierGet, copy)
  }

  /** Where the pass is when a stage starts: at the stage's first call, or further if the stage needs none. */
  function Entry(op: Operation, stage: Stage, copy: Object): RestoreNext {
    match stage
    case LegacyConditionsMigrated =>
      if Succeeded !in copy.conditions && LegacySucceeded(copy.legacy).Some? then Go(MigrateWrite(op), copy) else AfterMigration(op, copy)
    case ConditionsInitialized => AfterMigration(op, copy)
    case Metadata => EnterMetadata(copy)
    case ProviderChildState => Go(BarrierGet, copy)
    case ActiveRestoreLease => EnterLease(copy)
    case ProviderReadiness => EnterReady(copy)
    case SourceBackupUsable => EnterSource(copy)
    case MaintenanceModeActivated => EnterMaintenance(copy)
    case Preparation => EnterPreparation(copy)
    case ProviderRestoreStarted => EnterChild(copy)
    case ProviderCompletion => EnterWatch(copy)
    case ScaleUp => Go(ScaleUpRun, copy)
    case Readiness => Go(ReadyObserve, copy)
    case ScaleUpFinalization => Go(FinalizeRun, copy)
    case MaintenanceModeOff => Go(MaintenanceOff, copy)
    case Completion => EnterCompleted(copy)
    case ProviderRestoreDeleted => Go(DeleteGet, copy)
    case DeletingStatus => EnterDeleting(copy)
    case RestoreLeaseReleased => Go(Release(op, ObserveOwn), copy)
    case DeletionFinalized => AfterRelease(OperationDelete, copy)
  }

  /** Where the pass is after its first k stages. */
  function AfterStages(op: Operation, k: nat, copy: Object): RestoreNext
    requires k <= |StagesFor(op)|
  {
    if k == |StagesFor(op)| then Stop else Entry(op, StagesFor(op)[k], copy)
  }

  /** Where the pass is after this stage has said Next. */
  function After(op: Operation, stage: Stage, copy: Object): RestoreNext {
    match stage
    case LegacyConditionsMigrated => AfterMigration(op, copy)
    case ConditionsInitialized => Entry(op, Metadata, copy)
    case Metadata => Entry(op, ProviderChildState, copy)
    case ProviderChildState => Entry(op, ActiveRestoreLease, copy)
    case ActiveRestoreLease => Entry(op, ProviderReadiness, copy)
    case ProviderReadiness => Entry(op, SourceBackupUsable, copy)
    case SourceBackupUsable => Entry(op, MaintenanceModeActivated, copy)
    case MaintenanceModeActivated => Entry(op, Preparation, copy)
    case Preparation => Entry(op, ProviderRestoreStarted, copy)
    case ProviderRestoreStarted => Entry(op, ProviderCompletion, copy)
    case ProviderCompletion => Entry(op, Stage.ScaleUp, copy)
    case ScaleUp => Entry(op, Readiness, copy)
    case Readiness => Entry(op, ScaleUpFinalization, copy)
    case ScaleUpFinalization => Entry(op, MaintenanceModeOff, copy)
    case MaintenanceModeOff => Entry(op, Completion, copy)
    case ProviderRestoreDeleted => Entry(op, DeletingStatus, copy)
    case DeletingStatus => Entry(op, RestoreLeaseReleased, copy)
    case RestoreLeaseReleased => AfterRelease(op, copy)
    case _ => Stop
  }

  /** The stages' own successors are those of the lists. */
  lemma StagesFollow(op: Operation, k: nat, copy: Object)
    requires k < |StagesFor(op)|
    ensures After(op, StagesFor(op)[k], copy) == AfterStages(op, k + 1, copy)
  {
  }

  lemma FirstStage(copy: Object)
    ensures Start(copy) == AfterStages(RequiredOperation(copy), 0, copy)
  {
  }

  /** Where the pass is after it looked for an owned child. */
  function AfterChild(pc: RestorePc, copy: Object, owned: bool): RestoreNext {
    match pc
    case ReadyChild => if owned then EnterSource(copy) else Go(ReadyAsk, copy)
    case SourceChild => if owned then EnterMaintenance(copy) else Go(SourceAsk, copy)
    case PrepareChild => if owned then EnterChild(copy) else Go(PrepareScaleDown, copy)
    case _ => Stop
  }

  class Reconciler {
    const session: Session
    const key: Key

    constructor (session: Session)
      requires session.worker.Reconciler?
      ensures this.session == session && this.key == session.worker.key
    {
      this.session, this.key := session, session.worker.key;
    }

    /** The pass is here, at this restore. */
    ghost predicate Is(n: RestoreNext)
      reads session
    {
      session.Valid() && session.worker == System.Reconciler(key) && session.InRestore(n)
    }

    ghost predicate Ready(op: Operation, stage: Stage, restore: Object)
      reads session
    {
      Is(Entry(op, stage, restore))
    }

    /** The pass is where the next stage starts, or at its end. */
    ghost predicate Outcome(op: Operation, stage: Stage, outcome: StageOutcome, restore: Object)
      reads session
    {
      Is(if outcome == Next then After(op, stage, restore) else Stop)
    }

    // ---- the calls of each group of stages

    method OpeningCall(ghost pc: RestorePc, copy: Object, q: Request) returns (r: Response)
      requires Is(Go(pc, copy)) && (pc.MigrateWrite? || pc.BarrierGet?) && q == RestoreRequest(pc, key, copy)
      modifies session
      ensures Is(OpeningStep(pc, key, copy, r)) && session.began == old(session.began)
    {
      r := session.RestoreCall(pc, copy, q);
    }

    method GateCall(ghost pc: RestorePc, copy: Object, q: Request) returns (r: Response)
      requires Is(Go(pc, copy)) && (pc.ReadyChild? || pc.ReadyAsk? || pc.SourceChild? || pc.SourceAsk?) && q == RestoreRequest(pc, key, copy)
      modifies session
      ensures Is(GateStep(pc, copy, r)) && session.began == old(session.began)
    {
      r := session.RestoreCall(pc, copy, q);
    }

    method PreparationCall(ghost pc: RestorePc, copy: Object, q: Request) returns (r: Response)
      requires Is(Go(pc, copy)) && (pc.MaintenanceGet? || pc.MaintenanceOn? || pc.PrepareChild? || pc.PrepareScaleDown? || pc.PrepareCleanup?) && q == RestoreRequest(pc, key, copy)
      modifies session
      ensures Is(PreparationStep(pc, copy, r)) && session.began == old(session.began)
    {
      r := session.RestoreCall(pc, copy, q);
    }

    method ProviderCall(ghost pc: RestorePc, copy: Object, q: Request) returns (r: Response)
      requires Is(Go(pc, copy)) && (pc.ChildGet? || pc.ChildGetAgain? || pc.WatchGet? || pc.FailureOff?) && q == RestoreRequest(pc, key, copy)
      modifies session
      ensures Is(ProviderStep(pc, copy, r)) && session.began == old(session.began)
    {
      r := session.RestoreCall(pc, copy, q);
    }

    method RecoveryCall(ghost pc: RestorePc, copy: Object, q: Request) returns (r: Response)
      requires Is(Go(pc, copy)) && (pc.ScaleUpRun? || pc.ReadyObserve? || pc.FinalizeRun? || pc.MaintenanceOff?) && q == RestoreRequest(pc, key, copy)
      modifies session
      ensures Is(RecoveryStep(pc, copy, r)) && session.began == old(session.began)
    {
      r := session.RestoreCall(pc, copy, q);
    }

    method DeletionCall(ghost pc: RestorePc, copy: Object, q: Request) returns (r: Response)
      requires Is(Go(pc, copy)) && (pc.DeleteGet?) && q == RestoreRequest(pc, key, copy)
      modifies session
      ensures Is(DeletionStep(pc, key, copy, r)) && session.began == old(session.began)
    {
      r := session.RestoreCall(pc, copy, q);
    }

    /** A status write, a metadata update or the creation or deletion of the child ends the pass. */
    predicate IsLast(pc: RestorePc) {
      pc.SeedWrite? || pc.MetadataUpdate? || pc.ConflictWrite? || pc.WaitingWrite? || pc.InvalidWrite? || pc.LeaseHeldWrite?
      || pc.UnreadyWrite? || pc.UnusableWrite? || pc.PrepareFailedWrite? || pc.PreparedWrite? || pc.ChildCreate?
      || pc.FailureWrite? || pc.ObservedWrite? || pc.ScaleUpFailedWrite? || pc.ScaleUpWrite? || pc.NotReadyWrite? || pc.ReadyWrite?
      || pc.FinalizeFailedWrite? || pc.FinalizeWrite? || pc.MaintenanceOffWrite? || pc.CompletedWrite?
      || pc.DeleteChild? || pc.DeletingWrite? || pc.FinalizerDrop?
    }

    method LastCall(ghost pc: RestorePc, copy: Object, q: Request) returns (r: Response)
      requires Is(Go(pc, copy)) && IsLast(pc) && q == RestoreRequest(pc, key, copy)
      modifies session
      ensures Is(Stop) && session.began == old(session.began)
    {
      r := session.RestoreCall(pc, copy, q);
    }

    /** Writes conditions and ends the pass. */
    method SetConditions(ghost pc: RestorePc, restore: Object, changes: Conditions)
      requires Is(Go(pc, restore)) && IsLast(pc) && RestoreRequest(pc, key, restore) == WriteStatus(key, changes)
      modifies session
      ensures Is(Stop) && session.began == old(session.began)
    {
      var written := LastCall(pc, restore, WriteStatus(key, changes));
    }

    method FinishRecovery(ghost pc: RestorePc, restore: Object, work: Work) returns (r: Response)
      requires Is(Go(pc, restore)) && RestoreRequest(pc, key, restore) == DoWork(work) && (pc.ScaleUpRun? || pc.FinalizeRun?)
      modifies session
      ensures Is(RecoveryStep(pc, restore, r)) && !r.More? && session.began == old(session.began)
    {
      r := Finish(pc, restore, work);
    }

    /** Work on the workloads takes any number of calls until one of them finishes it or fails. */
    method Finish(ghost pc: RestorePc, restore: Object, work: Work) returns (r: Response)
      requires Is(Go(pc, restore)) && RestoreRequest(pc, key, restore) == DoWork(work)
      requires pc.PrepareScaleDown? || pc.PrepareCleanup? || pc.ScaleUpRun? || pc.FinalizeRun?
      modifies session
      ensures Is(RestoreStep(pc, key, restore, r)) && !r.More? && session.began == old(session.began)
    {
      var pieces: nat :| true;
      for n := 0 to pieces
        invariant Is(Go(pc, restore)) && session.began == old(session.began)
      {
        r := session.RestoreCall(pc, restore, DoWork(work));
        if !r.More? { return r; }
        MoreStays(pc, key, restore);
      }
      r := session.RestoreLastPiece(pc, restore, DoWork(work));
    }

    // ---- the stages before the lease

    method EnsureLegacyConditionsMigrated(op: Operation, restore: Object) returns (outcome: StageOutcome, updated: Object)
      requires Ready(op, LegacyConditionsMigrated, restore)
      modifies session
      ensures Outcome(op, LegacyConditionsMigrated, outcome, updated) && session.began == old(session.began)
    {
      if Succeeded in restore.conditions { return Next, restore; }
      var migrated := LegacySucceeded(restore.legacy);
      if migrated.None? { return Next, restore; }
      var written := OpeningCall(MigrateWrite(op), restore, WriteStatus(key, map[Succeeded := migrated.value]));
      if !written.FoundObject? { return Retry, restore; }
      return Next, written.obj;
    }

    method EnsureConditionsInitialized(restore: Object) returns (outcome: StageOutcome, updated: Object)
      requires Ready(OperationCreate, ConditionsInitialized, restore)
      modifies session
      ensures Outcome(OperationCreate, ConditionsInitialized, outcome, updated) && session.began == old(session.began)
    {
      updated := restore;
      var missing := Missing(restore.conditions, INITIAL_RESTORE_CONDITIONS);
      if missing == map[] { return Next, restore; }
      SetConditions(SeedWrite, restore, missing);
      outcome := Retry;
    }

    method EnsureMetadata(restore: Object) returns (outcome: StageOutcome, updated: Object)
      requires Ready(OperationCreate, Metadata, restore)
      modifies session
      ensures Outcome(OperationCreate, Metadata, outcome, updated) && session.began == old(session.began)
    {
      updated := restore;
      if restore.finalizer && restore.labeled { return Next, restore; }
      var written := LastCall(MetadataUpdate, restore, UpdateMetadata(key, restore.uid, restore.version, true));
      outcome := Retry;
    }

    method EnsureProviderChildState(restore: Object) returns (outcome: StageOutcome, updated: Object)
      requires Ready(OperationCreate, ProviderChildState, restore)
      modifies session
      ensures Outcome(OperationCreate, ProviderChildState, outcome, updated) && session.began == old(session.began)
    {
      updated := restore;
      var child := OpeningCall(BarrierGet, restore, GetProviderRestore(key.name));
      if child.NotFound? { return Next, restore; }
      if !child.FoundProviderRestore? { return Retry, restore; }
      if !Conflicts(restore, child.restore) { return Next, restore; }
      FailOnProviderChildConflict(restore);
      outcome := Abort;
    }

    method FailOnProviderChildConflict(restore: Object)
      requires Is(Go(ConflictWrite, restore))
      modifies session
      ensures Is(Stop) && session.began == old(session.began)
    {
      SetConditions(ConflictWrite, restore, map[ProviderSucceeded := Condition(False, ProviderRestoreConflict),
                                                Succeeded := Condition(False, ProviderRestoreConflict)]);
    }

    // ---- the lease

    method EnsureActiveRestoreLease(restore: Object) returns (outcome: StageOutcome, updated: Object)
      requires Ready(OperationCreate, ActiveRestoreLease, restore)
      modifies session
      ensures Outcome(OperationCreate, ActiveRestoreLease, outcome, updated) && session.began == old(session.began)
    {
      updated := restore;
      if RequiredOperation(restore) != OperationCreate { return Next, restore; }
      var manager := new L.Manager(session);
      var state := manager.Acquire(restore);
      match state
      case Held => outcome := ContinueWithAcquiredLease(restore);
      case Waiting =>
        SetConditions(WaitingWrite, restore, map[Succeeded := Condition(Unknown, WaitingForActiveRestore)]);
        outcome := Retry;
      case Invalid =>
        SetConditions(InvalidWrite, restore, map[Succeeded := Condition(Unknown, InvalidRestoreLease)]);
        outcome := Retry;
      case _ => outcome := Retry;
    }

    method ContinueWithAcquiredLease(restore: Object) returns (outcome: StageOutcome)
      requires Is(AfterAcquire(Held, restore))
      modifies session
      ensures Outcome(OperationCreate, ActiveRestoreLease, outcome, restore) && session.began == old(session.began)
    {
      if Succeeded !in restore.conditions || restore.conditions[Succeeded].reason !in {WaitingForActiveRestore, InvalidRestoreLease} {
        return Next;
      }
      SetConditions(LeaseHeldWrite, restore, map[Succeeded := Condition(Unknown, RestoreLeaseAcquired)]);
      outcome := Retry;
    }

    // ---- the gates and the preparation

    /** isAlreadyPrepared, after the condition was found not to be true: an owned child counts as well. */
    method HasOwnedChild(ghost pc: RestorePc, restore: Object) returns (ok: bool, owned: bool)
      requires Is(Go(pc, restore)) && (pc.ReadyChild? || pc.SourceChild? || pc.PrepareChild?)
      modifies session
      ensures Is(if ok then AfterChild(pc, restore, owned) else Stop) && session.began == old(session.began)
    {
      var child := session.RestoreCall(pc, restore, GetProviderRestore(key.name));
      if child.FoundProviderRestore? { return true, IsOwned(restore, child.restore); }
      return child.NotFound?, false;
    }

    method EnsureProviderReady(restore: Object) returns (outcome: StageOutcome, updated: Object)
      requires Ready(OperationCreate, ProviderReadiness, restore)
      modifies session
      ensures Outcome(OperationCreate, ProviderReadiness, outcome, updated) && session.began == old(session.began)
    {
      updated := restore;
      if IsTrue(restore.conditions, Prepared) { return Next, restore; }
      var ok, prepared := HasOwnedChild(ReadyChild, restore);
      if !ok { return Retry, restore; }
      if prepared { return Next, restore; }
      var readiness := GateCall(ReadyAsk, restore, Ask);
      if !readiness.Answer? { return Retry, restore; }
      if readiness.yes { return Next, restore; }
      SetConditions(UnreadyWrite, restore, map[Prepared := Condition(False, ProviderNotReady)]);
      outcome := Retry;
    }

    method EnsureSourceBackupUsable(restore: Object) returns (outcome: StageOutcome, updated: Object)
      requires Ready(OperationCreate, SourceBackupUsable, restore)
      modifies session
      ensures Outcome(OperationCreate, SourceBackupUsable, outcome, updated) && session.began == old(session.began)
    {
      updated := restore;
      if IsTrue(restore.conditions, Prepared) { return Next, restore; }
      var ok, prepared := HasOwnedChild(SourceChild, restore);
      if !ok { return Retry, restore; }
      if prepared { return Next, restore; }
      var usable := GateCall(SourceAsk, restore, Ask);
      if !usable.Answer? { return Retry, restore; }
      if usable.yes { return Next, restore; }
      SetConditions(UnusableWrite, restore, map[Prepared := Condition(False, SourceBackupNotUsable),
                                                Succeeded := Condition(False, SourceBackupNotUsable)]);
      outcome := Abort;
    }

    /** Best effort: the stage always goes on. */
    method EnsureMaintenanceModeActivated(restore: Object) returns (outcome: StageOutcome, updated: Object)
      requires Ready(OperationCreate, MaintenanceModeActivated, restore)
      modifies session
      ensures Outcome(OperationCreate, MaintenanceModeActivated, outcome, updated) && outcome == Next && session.began == old(session.began)
    {
      outcome, updated := Next, restore;
      if HasDeactivatedMaintenance(restore.conditions) { return; }
      var active := PreparationCall(MaintenanceGet, restore, GetMaintenance);
      if !(active.Answer? && active.yes) {
        var switched := PreparationCall(MaintenanceOn, restore, SwitchMaintenance(true));
      }
    }

    method EnsurePreparation(restore: Object) returns (outcome: StageOutcome, updated: Object)
      requires Ready(OperationCreate, Preparation, restore)
      modifies session
      ensures Outcome(OperationCreate, Preparation, outcome, updated) && session.began == old(session.began)
    {
      updated := restore;
      if IsTrue(restore.conditions, Prepared) { return Next, restore; }
      var ok, prepared := HasOwnedChild(PrepareChild, restore);
      if !ok { return Retry, restore; }
      if prepared { return Next, restore; }
      Prepare(restore);
      outcome := Retry;
    }

    method Prepare(restore: Object)
      requires Is(Go(PrepareScaleDown, restore))
      modifies session
      ensures Is(Stop) && session.began == old(session.began)
    {
      var done := Finish(PrepareScaleDown, restore, Work.ScaleDown);
      if !done.Done? {
        SetConditions(PrepareFailedWrite, restore, map[Prepared := Condition(False, PreparationFailed)]);
        return;
      }
      CleanUp(restore);
    }

    method CleanUp(restore: Object)
      requires Is(Go(PrepareCleanup, restore))
      modifies session
      ensures Is(Stop) && session.began == old(session.began)
    {
      var done := Finish(PrepareCleanup, restore, Cleanup);
      if done.Done? {
        SetConditions(PreparedWrite, restore, map[Prepared := Condition(True, PreparationCompleted)]);
      } else {
        SetConditions(PrepareFailedWrite, restore, map[Prepared := Condition(False, PreparationFailed)]);
      }
    }

    // ---- the provider's restore

    method EnsureProviderRestore(restore: Object) returns (outcome: StageOutcome, updated: Object)
      requires Ready(OperationCreate, ProviderRestoreStarted, restore)
      modifies session
      ensures Outcome(OperationCreate, ProviderRestoreStarted, outcome, updated) && session.began == old(session.began)
    {
      updated := restore;
      if IsTrue(restore.conditions, ProviderSucceeded) { return Next, restore; }
      var existing := ProviderCall(ChildGet, restore, GetProviderRestore(key.name));
      if existing.FoundProviderRestore? { return Next, restore; }
      if !existing.NotFound? { return Retry, restore; }
      EnsureRestore(restore);
      outcome := Retry;
    }

    /** Creates the child exactly once; a namesake that is not usable is a conflict and is left alone. */
    method EnsureRestore(restore: Object)
      requires Is(Go(ChildGetAgain, restore))
      modifies session
      ensures Is(Stop) && session.began == old(session.began)
    {
      var existing := ProviderCall(ChildGetAgain, restore, GetProviderRestore(key.name));
      if existing.FoundProviderRestore? {
        if Conflicts(restore, existing.restore) { FailOnProviderChildConflict(restore); }
        return;
      }
      if !existing.NotFound? { return; }
      var created := LastCall(ChildCreate, restore, CreateProviderRestore(key.name, restore.uid, restore.source));
    }

    method EnsureProviderCompletion(restore: Object) returns (outcome: StageOutcome, updated: Object)
      requires Ready(OperationCreate, ProviderCompletion, restore)
      modifies session
      ensures Outcome(OperationCreate, ProviderCompletion, outcome, updated) && session.began == old(session.began)
    {
      updated := restore;
      if IsTrue(restore.conditions, ProviderSucceeded) { return Next, restore; }
      var child := ProviderCall(WatchGet, restore, GetProviderRestore(key.name));
      if !child.FoundProviderRestore? { return Retry, restore; }
      var observed := Observation(child.restore.state);
      if observed.status == False {
        FailOnProviderRestore(restore);
        return Abort, restore;
      }
      SetConditions(ObservedWrite(observed), restore, map[ProviderSucceeded := observed]);
      outcome := Retry;
    }

    method FailOnProviderRestore(restore: Object)
      requires Is(Go(FailureOff, restore))
      modifies session
      ensures Is(Stop) && session.began == old(session.began)
    {
      var switched := ProviderCall(FailureOff, restore, SwitchMaintenance(false));
      SetConditions(FailureWrite, restore, map[ProviderSucceeded := Condition(False, ProviderRestoreFailed),
                                               WorkloadsRecovered := Condition(False, RecoveryNotAttemptedAfterProviderFailure),
                                               Succeeded := Condition(False, ProviderRestoreFailed)]);
    }

    // ---- the recovery

    /** Persists how far the recovery has come and ends the pass. */
    method ReportRecovery(ghost pc: RestorePc, restore: Object, condition: Condition)
      requires Is(Go(pc, restore)) && IsLast(pc) && RestoreRequest(pc, key, restore) == Recovery(key, condition)
      modifies session
      ensures Is(Stop) && session.began == old(session.began)
    {
      SetConditions(pc, restore, map[WorkloadsRecovered := condition]);
    }

    /** Scales up before it looks at the condition, so that a crash in between is made up for. */
    method EnsureScaleUpInitiated(restore: Object) returns (outcome: StageOutcome, updated: Object)
      requires Ready(OperationCreate, Stage.ScaleUp, restore)
      modifies session
      ensures Outcome(OperationCreate, Stage.ScaleUp, outcome, updated) && session.began == old(session.began)
    {
      outcome, updated := Retry, restore;
      var done := FinishRecovery(ScaleUpRun, restore, Work.ScaleUp);
      if done.Done? {
        outcome := HandleScaledUp(restore);
      } else {
        ReportRecovery(ScaleUpFailedWrite, restore, Condition(False, WorkloadRecoveryFailed));
      }
    }

    method HandleScaledUp(restore: Object) returns (outcome: StageOutcome)
      requires Is(RecoveryStep(ScaleUpRun, restore, Done))
      modifies session
      ensures Outcome(OperationCreate, Stage.ScaleUp, outcome, restore) && session.began == old(session.began)
    {
      if IsUnknownFor(restore.conditions, WorkloadsRecovered, AFTER_READY + {ScaleUpInitiated, WaitingForWorkloads}) { return Next; }
      ReportRecovery(ScaleUpWrite, restore, Condition(Unknown, ScaleUpInitiated));
      outcome := Retry;
    }

    method EnsureWorkloadsReady(restore: Object) returns (outcome: StageOutcome, updated: Object)
      requires Ready(OperationCreate, Readiness, restore)
      modifies session
      ensures Outcome(OperationCreate, Readiness, outcome, updated) && session.began == old(session.began)
    {
      outcome, updated := Retry, restore;
      var ready := RecoveryCall(ReadyObserve, restore, Ask);
      if !ready.Answer? { return; }
      if ready.yes {
        outcome := HandleWorkloadsReady(restore);
      } else {
        HandleWorkloadsNotReady(restore);
      }
    }

    method HandleWorkloadsNotReady(restore: Object)
      requires Is(RecoveryStep(ReadyObserve, restore, Answer(false)))
      modifies session
      ensures Is(Stop) && session.began == old(session.began)
    {
      if !IsUnknownFor(restore.conditions, WorkloadsRecovered, {WaitingForWorkloads}) {
        ReportRecovery(NotReadyWrite, restore, Condition(Unknown, WaitingForWorkloads));
      }
    }

    method HandleWorkloadsReady(restore: Object) returns (outcome: StageOutcome)
      requires Is(RecoveryStep(ReadyObserve, restore, Answer(true)))
      modifies session
      ensures Outcome(OperationCreate, Readiness, outcome, restore) && session.began == old(session.began)
    {
      if IsUnknownFor(restore.conditions, WorkloadsRecovered, AFTER_READY) { return Next; }
      ReportRecovery(ReadyWrite, restore, Condition(Unknown, WorkloadsReady));
      outcome := Retry;
    }

    method EnsureScaleUpFinalized(restore: Object) returns (outcome: StageOutcome, updated: Object)
      requires Ready(OperationCreate, ScaleUpFinalization, restore)
      modifies session
      ensures Outcome(OperationCreate, ScaleUpFinalization, outcome, updated) && session.began == old(session.began)
    {
      outcome, updated := Retry, restore;
      var done := FinishRecovery(FinalizeRun, restore, FinalizeScaleUp);
      if done.Done? {
        outcome := HandleFinalized(restore);
      } else {
        ReportRecovery(FinalizeFailedWrite, restore, Condition(False, WorkloadRecoveryFailed));
      }
    }

    method HandleFinalized(restore: Object) returns (outcome: StageOutcome)
      requires Is(RecoveryStep(FinalizeRun, restore, Done))
      modifies session
      ensures Outcome(OperationCreate, ScaleUpFinalization, outcome, restore) && session.began == old(session.began)
    {
      if IsUnknownFor(restore.conditions, WorkloadsRecovered, {ScaleUpFinalized, MaintenanceModeDeactivated}) { return Next; }
      ReportRecovery(FinalizeWrite, restore, Condition(Unknown, ScaleUpFinalized));
      outcome := Retry;
    }

    method EnsureMaintenanceModeDeactivated(restore: Object) returns (outcome: StageOutcome, updated: Object)
      requires Ready(OperationCreate, MaintenanceModeOff, restore)
      modifies session
      ensures Outcome(OperationCreate, MaintenanceModeOff, outcome, updated) && session.began == old(session.began)
    {
      outcome, updated := Retry, restore;
      var switched := RecoveryCall(MaintenanceOff, restore, SwitchMaintenance(false));
      if switched.Done? { outcome := HandleDeactivated(restore); }
    }

    method HandleDeactivated(restore: Object) returns (outcome: StageOutcome)
      requires Is(RecoveryStep(MaintenanceOff, restore, Done))
      modifies session
      ensures Outcome(OperationCreate, MaintenanceModeOff, outcome, restore) && session.began == old(session.began)
    {
      if IsUnknownFor(restore.conditions, WorkloadsRecovered, {MaintenanceModeDeactivated}) { return Next; }
      ReportRecovery(MaintenanceOffWrite, restore, Condition(Unknown, MaintenanceModeDeactivated));
      outcome := Retry;
    }

    method EnsureRestoreCompleted(restore: Object) returns (outcome: StageOutcome, updated: Object)
      requires Ready(OperationCreate, Completion, restore)
      modifies session
      ensures Outcome(OperationCreate, Completion, outcome, updated) && outcome != Next && session.began == old(session.began)
    {
      updated := restore;
      if IsTrue(restore.conditions, WorkloadsRecovered) && IsTrue(restore.conditions, Succeeded) { return Abort, restore; }
      if !IsUnknownFor(restore.conditions, WorkloadsRecovered, {MaintenanceModeDeactivated}) { return Retry, restore; }
      SetConditions(CompletedWrite, restore, map[WorkloadsRecovered := Condition(True, WorkloadRecoveryCompleted),
                                                 Succeeded := Condition(True, RestoreCompleted)]);
      outcome := Abort;
    }

    // ---- the deletion

    method EnsureProviderRestoreDeleted(restore: Object) returns (outcome: StageOutcome, updated: Object)
      requires Ready(OperationDelete, ProviderRestoreDeleted, restore)
      modifies session
      ensures Outcome(OperationDelete, ProviderRestoreDeleted, outcome, updated) && session.began == old(session.began)
    {
      updated := restore;
      var child := DeletionCall(DeleteGet, restore, GetProviderRestore(key.name));
      if child.NotFound? { return Next, restore; }
      if !child.FoundProviderRestore? { return Retry, restore; }
      outcome := DeleteOwnChild(restore, child.restore);
    }

    /** A foreign child is left alone, unless the restore is an older operator's. */
    method DeleteOwnChild(restore: Object, child: ProviderRestore) returns (outcome: StageOutcome)
      requires Is(DeletionStep(DeleteGet, key, restore, FoundProviderRestore(child)))
      modifies session
      ensures Outcome(OperationDelete, ProviderRestoreDeleted, outcome, restore) && session.began == old(session.began)
    {
      var succeeded := EffectiveSucceeded(restore.conditions, restore.legacy);
      var isLegacy := succeeded.Some? && succeeded.value.reason == MigratedFromLegacyStatus;
      ChildIsDeleted(key, restore, child, isLegacy);
      if !IsOwned(restore, child) && !isLegacy { return Next; }
      if child.deleting { return Retry; }
      var deleted := LastCall(DeleteChild(child.uid), restore, DeleteProviderRestore(key.name, child.uid));
      outcome := Retry;
    }

    method EnsureDeletingStatus(restore: Object) returns (outcome: StageOutcome, updated: Object)
      requires Ready(OperationDelete, DeletingStatus, restore)
      modifies session
      ensures Outcome(OperationDelete, DeletingStatus, outcome, updated) && session.began == old(session.began)
    {
      updated := restore;
      if restore.legacy == LegacyDeleting { return Next, restore; }
      SetConditions(DeletingWrite, restore, map[]);
      outcome := Retry;
    }

    method EnsureRestoreLeaseReleased(op: Operation, restore: Object) returns (outcome: StageOutcome, updated: Object)
      requires Ready(op, RestoreLeaseReleased, restore)
      modifies session
      ensures Outcome(op, RestoreLeaseReleased, outcome, updated) && session.began == old(session.began)
    {
      updated := restore;
      var manager := new L.Manager(session);
      var state := manager.Release(B.OperationDelete, op, restore);
      outcome := if state == ReleaseFailed then Retry else Next;
    }

    method EnsureDeletionFinalized(restore: Object) returns (outcome: StageOutcome, updated: Object)
      requires Ready(OperationDelete, DeletionFinalized, restore)
      modifies session
      ensures Outcome(OperationDelete, DeletionFinalized, outcome, updated) && session.began == old(session.began)
    {
      updated := restore;
      if !restore.finalizer { return Abort, restore; }
      var removed := LastCall(FinalizerDrop, restore, UpdateMetadata(key, restore.uid, restore.version, false));
      outcome := if removed.Done? || removed.FoundObject? then Abort else Retry;
    }

    // ---- the loop

    /** From where the k-th stage of the list starts to where the next one does, or to the end of the pass. */
    method RunStage(op: Operation, ghost k: nat, stage: Stage, restore: Object) returns (outcome: StageOutcome, updated: Object)
      requires k < |StagesFor(op)| && stage == StagesFor(op)[k] && Is(AfterStages(op, k, restore))
      modifies session
      ensures Is(if outcome == Next then AfterStages(op, k + 1, updated) else Stop) && session.began == old(session.began)
    {
      outcome, updated := Dispatch(op, stage, restore);
      StagesFollow(op, k, updated);
    }

    method Dispatch(op: Operation, stage: Stage, restore: Object) returns (outcome: StageOutcome, updated: Object)
      requires Ready(op, stage, restore) && stage in StagesFor(op)
      modifies session
      ensures Outcome(op, stage, outcome, updated) && session.began == old(session.began)
    {
      match stage
      case LegacyConditionsMigrated => outcome, updated := EnsureLegacyConditionsMigrated(op, restore);
      case ConditionsInitialized => outcome, updated := EnsureConditionsInitialized(restore);
      case Metadata => outcome, updated := EnsureMetadata(restore);
      case ProviderChildState => outcome, updated := EnsureProviderChildState(restore);
      case ActiveRestoreLease => outcome, updated := EnsureActiveRestoreLease(restore);
      case ProviderReadiness => outcome, updated := EnsureProviderReady(restore);
      case SourceBackupUsable => outcome, updated := EnsureSourceBackupUsable(restore);
      case MaintenanceModeActivated => outcome, updated := EnsureMaintenanceModeActivated(restore);
      case Preparation => outcome, updated := EnsurePreparation(restore);
      case ProviderRestoreStarted => outcome, updated := EnsureProviderRestore(restore);
      case ProviderCompletion => outcome, updated := EnsureProviderCompletion(restore);
      case ScaleUp => outcome, updated := EnsureScaleUpInitiated(restore);
      case Readiness => outcome, updated := EnsureWorkloadsReady(restore);
      case ScaleUpFinalization => outcome, updated := EnsureScaleUpFinalized(restore);
      case MaintenanceModeOff => outcome, updated := EnsureMaintenanceModeDeactivated(restore);
      case Completion => outcome, updated := EnsureRestoreCompleted(restore);
      case ProviderRestoreDeleted => outcome, updated := EnsureProviderRestoreDeleted(restore);
      case DeletingStatus => outcome, updated := EnsureDeletingStatus(restore);
      case RestoreLeaseReleased => outcome, updated := EnsureRestoreLeaseReleased(op, restore);
      case DeletionFinalized => outcome, updated := EnsureDeletionFinalized(restore);
    }

    /** Each stage sees the restore as the stages before left it; the first one that does not say Next ends the pass. */
    method RunStages(op: Operation, restore: Object)
      requires Is(AfterStages(op, 0, restore))
      modifies session
      ensures Is(Stop) && session.began == old(session.began)
    {
      var current, stages := restore, StagesFor(op);
      for k := 0 to |stages|
        invariant Is(AfterStages(op, k, current)) && session.began == old(session.began)
      {
        var outcome;
        outcome, current := RunStage(op, k, stages[k], current);
        if outcome != Next { return; }
      }
    }

    /** One pass of the transition system and nothing else: whatever happens in between, the worker reads its restore first,
        and then makes every call up to where the transition system ends the pass. */
    method Reconcile()
      requires session.Valid() && session.IsIdle() && session.worker == System.Reconciler(key) && key.kind == Kind.Restore
      modifies session
      ensures session.IsDone(old(session.history))
    {
      session.Begin();
      var found := session.GetOwn();
      if !found.FoundObject? { return; }
      FirstStage(found.obj);
      RunStages(RequiredOperation(found.obj), found.obj);
    }
  }

  lemma ChildIsDeleted(key: Key, restore: Object, child: ProviderRestore, isLegacy: bool)
    requires var succeeded := EffectiveSucceeded(restore.conditions, restore.legacy);
             isLegacy <==> succeeded.Some? && succeeded.value.reason == MigratedFromLegacyStatus
    ensures DeletionStep(DeleteGet, key, restore, FoundProviderRestore(child))
            == if !IsOwned(restore, child) && !isLegacy then EnterDeleting(restore)
               else if child.deleting then Stop else Go(DeleteChild(child.uid), restore)
  {
  }

  lemma MoreStays(pc: RestorePc, key: Key, copy: Object)
    requires pc.PrepareScaleDown? || pc.PrepareCleanup? || pc.ScaleUpRun? || pc.FinalizeRun?
    ensures RestoreStep(pc, key, copy, More) == Go(pc, copy)
  {
  }
}
