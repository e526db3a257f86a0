/** Status conditions of the Backup and Restore resources, and the deprecated scalar status that
    both controllers keep in step with them. A condition keeps its type, status and reason; messages,
    generations and transition times decide nothing and are not modelled. */
module Conditions {
  datatype Option<+T> = None | Some(value: T)

  datatype Status = True | False | Unknown

  datatype Type = Succeeded | Prepared | ProviderSucceeded | WorkloadsRecovered | Canceled | Deleting

  datatype Reason =
    | Pending
      // Succeeded of a restore
    | WaitingForActiveRestore | RestoreLeaseAcquired | InvalidRestoreLease
    | MigratedFromLegacyStatus | RestoreCompleted
      // Prepared
    | ProviderNotReady | SourceBackupNotUsable | PreparationFailed | PreparationCompleted | ProviderReady
      // ProviderSucceeded
    | ProviderRestorePending | ProviderRestoreRunning | ProviderRestoreCompleted
    | ProviderRestoreFailed | ProviderRestoreStateUnknown | ProviderRestoreConflict
      // WorkloadsRecovered
    | ScaleUpInitiated | WaitingForWorkloads | WorkloadsReady | ScaleUpFinalized
    | MaintenanceModeDeactivated | WorkloadRecoveryFailed | WorkloadRecoveryCompleted
    | RecoveryNotAttemptedAfterProviderFailure
      // Backup
    | VeleroStatusSynced | VeleroBackupFailed | VeleroBackupRunning
    | TimeWindowNotExpired | TimeWindowExpiredBackupNotStarted | TimeWindowExpiredProviderBackupMissing
    | TimeWindowExpiredBackupInProgress | TimeWindowExpiredBackupTerminated
    | MaintenanceModesIsNotActive | ProviderBackupResourceDoesNotExist
    | ProviderBackupInProgress | ProviderBackupFailed | ProviderBackupSucceeded | BackupCanceled
    | WaitingForProviderBackupCompletion | BackupDeleting | ProviderBackupDeletionRetried
    | CanceledProviderBackupDeleted

  datatype Condition = Condition(status: Status, reason: Reason)

  /** The conditions of one resource, at most one of each type. */
  type Conditions = map<Type, Condition>

  datatype Legacy = NoLegacy | InProgress | Completed | Failed | LegacyDeleting

  predicate IsTrue(conditions: Conditions, t: Type) {
    t in conditions && conditions[t].status == True
  }

  /** hasBackupSucceededOrFailed: the condition exists and is no longer Unknown. */
  predicate Decided(conditions: Conditions, t: Type) {
    t in conditions && conditions[t].status != Unknown
  }

  predicate IsUnknownFor(conditions: Conditions, t: Type, reasons: set<Reason>) {
    t in conditions && conditions[t].status == Unknown && conditions[t].reason in reasons
  }

  /** The desired conditions the resource does not carry yet. */
  function Missing(existing: Conditions, desired: Conditions): Conditions {
    map t | t in desired && t !in existing :: desired[t]
  }

  const PENDING := Condition(Unknown, Pending)

  const INITIAL_RESTORE_CONDITIONS: Conditions :=
    map[Succeeded := PENDING, Prepared := PENDING, ProviderSucceeded := PENDING, WorkloadsRecovered := PENDING]

  const INITIAL_BACKUP_CONDITIONS: Conditions :=
    map[Succeeded := PENDING, Prepared := PENDING, ProviderSucceeded := PENDING,
        Canceled := Condition(False, Pending), Deleting := Condition(False, Pending)]

  /** The deprecated scalar of a backup, derived from its conditions. */
  function LegacyBackupStatusFor(conditions: Conditions, current: Legacy): Legacy {
    if IsTrue(conditions, Deleting) then LegacyDeleting
    else if IsTrue(conditions, Canceled) then Failed
    else if Succeeded in conditions then
      match conditions[Succeeded].status
      case True => Completed
      case False => Failed
      case Unknown => InProgress
    else if conditions != map[] then InProgress
    else current
  }

  /** The deprecated scalar of a restore, derived from its deletion mark and its conditions. */
  function LegacyRestoreStatusFor(deleting: bool, conditions: Conditions, current: Legacy): Legacy {
    if deleting then LegacyDeleting
    else if Succeeded !in conditions then
      if conditions == map[] || current == Completed || current == Failed then current else InProgress
    else
      match conditions[Succeeded].status
      case True => Completed
      case False => Failed
      case Unknown => InProgress
  }

  /** The Succeeded condition that an older operator's scalar stands for, if it stands for one. */
  function LegacySucceeded(legacy: Legacy): Option<Condition> {
    match legacy
    case Completed => Some(Condition(True, MigratedFromLegacyStatus))
    case Failed => Some(Condition(False, MigratedFromLegacyStatus))
    case InProgress => Some(Condition(Unknown, MigratedFromLegacyStatus))
    case _ => None
  }

  /** The Succeeded condition a restore is judged by: a written one wins over the scalar. */
  function EffectiveSucceeded(conditions: Conditions, legacy: Legacy): Option<Condition> {
    if Succeeded in conditions then Some(conditions[Succeeded]) else LegacySucceeded(legacy)
  }
}
