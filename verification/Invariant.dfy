/** What holds in every reachable state: of the stored resources and the lease, and of what each worker
    knows between two of its calls. */
module Invariant {
  import opened Conditions
  import opened Cluster
  import opened Leases
  import opened System
  import B = BackupWorkflow
  import R = RestoreWorkflow

  // ---- the shared state

  ghost predicate Names(lease: Option<Lease>, key: Key, uid: nat) {
    lease.Some? && lease.value.holder == Holder(uid, key.name, key.kind)
  }

  /** The operation is still to be done: its next pass runs the create stages. */
  ghost predicate IsOpen(key: Key, o: Object) {
    if key.kind == Backup then !o.synced && B.RequiredOperation(o) == B.OperationCreate
    else R.RequiredOperation(o) == R.OperationCreate
  }

  /** The same object exists, with the same UID, and has not ended. */
  ghost predicate IsActive(a: Api, h: Holder) {
    var key := Key(h.kind, h.name);
    key in a.objects && a.objects[key].uid == h.uid && !IsTerminal(h.kind, a.objects[key])
  }

  ghost predicate SyncedOk(c: Conditions) {
    (Decided(c, Succeeded) <==> Decided(c, ProviderSucceeded)) && !IsTrue(c, Canceled)
  }

  /** A run that was canceled has no provider result, and success needs the provider's success. */
  ghost predicate RunOk(c: Conditions) {
    !(IsTrue(c, Canceled) && Decided(c, ProviderSucceeded))
    && (Decided(c, Succeeded) ==> B.IsPostProcessing(c))
    && (IsTrue(c, Succeeded) ==> IsTrue(c, ProviderSucceeded))
  }

  ghost predicate BackupOk(o: Object) {
    (o.synced ==> SyncedOk(o.conditions))
    && (!o.synced ==> RunOk(o.conditions) && (B.IsPostProcessing(o.conditions) ==> o.finalizer))
    && (o.conditions != map[] ==> o.legacy == LegacyBackupStatusFor(o.conditions, NoLegacy))
  }

  ghost predicate RestoreOk(o: Object) {
    !o.synced && (o.conditions != map[] ==> Succeeded in o.conditions)
  }

  ghost predicate BodyOk(key: Key, o: Object) {
    (o.deleting ==> o.finalizer) && (key.kind == Backup ==> BackupOk(o)) && (key.kind == Restore ==> RestoreOk(o))
  }

  ghost predicate ObjectOk(a: Api, key: Key)
    requires key in a.objects
  {
    var o := a.objects[key];
    key.kind in {Backup, Restore} && key.name != 0 && 0 < o.uid < a.counter && o.version < a.counter && BodyOk(key, o)
    && (key.kind == Restore && o.uid in a.parents ==> IsTrue(o.conditions, Prepared))
  }

  /** What an object is like from the moment it takes the lease for as long as it exists. */
  ghost predicate TakerFits(key: Key, o: Object) {
    o.finalizer && (key.kind == Restore ==> Succeeded in o.conditions) && (key.kind == Backup ==> !o.synced)
  }

  /** A version of the lease once named this object. */
  ghost predicate Took(a: Api, key: Key, uid: nat) { exists l :: l in a.past && Names(Some(l), key, uid) }

  /** Versions are told apart by their numbers, and no holder ever takes the lease twice. */
  ghost predicate PastOk(a: Api) {
    (a.lease.Some? ==> a.lease.value in a.past)
    && (forall l :: l in a.past ==> l.version < a.counter && l.holder.uid < a.counter)
    && (forall l1, l2 :: l1 in a.past && l2 in a.past && l1.version == l2.version ==> l1 == l2)
    && (forall l1, l2 :: l1 in a.past && l2 in a.past && l1.holder == l2.holder && IsNamed(l1) ==> l1 == l2)
  }

  ghost predicate TakersOk(a: Api) {
    forall key :: key in a.objects && Took(a, key, a.objects[key].uid) ==> TakerFits(key, a.objects[key])
  }

  ghost predicate LeaseOk(a: Api) { PastOk(a) && TakersOk(a) }

  /** An operation that ever took the lease and is still to be done has it now. */
  ghost predicate KeptOk(a: Api) {
    forall l, key :: l in a.past && key in a.objects && Names(Some(l), key, a.objects[key].uid) && IsOpen(key, a.objects[key])
                     ==> Names(a.lease, key, a.objects[key].uid)
  }

  ghost predicate ParentsOk(a: Api) {
    (forall n :: n in a.restores && a.restores[n].owner != 0 ==> a.restores[n].owner in a.parents)
    && (forall uid :: uid in a.parents ==> 0 < uid < a.counter)
  }

  ghost predicate ApiOk(a: Api) {
    a.counter > 0
    && (forall key :: key in a.objects ==> ObjectOk(a, key))
    && (forall k1, k2 :: k1 in a.objects && k2 in a.objects && a.objects[k1].uid == a.objects[k2].uid ==> k1 == k2)
    && LeaseOk(a) && KeptOk(a) && ParentsOk(a)
  }

  // ---- what a worker knows

  /** The copy agrees with the stored object, except that somebody may have asked for its deletion or
      edited its spec since. */
  ghost predicate InStep(a: Api, key: Key, copy: Object) {
    (copy.finalizer ==> key in a.objects)
    && (key in a.objects ==>
          var o := a.objects[key];
          o.uid == copy.uid && o.conditions == copy.conditions && o.started == copy.started
          && o.legacy == copy.legacy && o.finalizer == copy.finalizer && o.synced == copy.synced
          && (copy.deleting ==> o.deleting) && (o.version == copy.version ==> o.deleting == copy.deleting))
    && 0 < copy.uid < a.counter && copy.version < a.counter && BodyOk(key, copy)
  }

  ghost predicate Kept(a: Api, key: Key, copy: Object) {
    Took(a, key, copy.uid) ==> copy.finalizer && Names(a.lease, key, copy.uid)
  }

  ghost predicate AcquireOk(a: Api, me: Holder, pc: AcquirePc) {
    match pc
    case Resolve(seen) => seen in a.past && IsNamed(seen) && seen.holder.kind == me.kind && seen.holder != me
    case TakeOver(seen) =>
      seen in a.past && IsNamed(seen) && seen.holder.kind == me.kind && seen.holder != me
      && (a.lease == Some(seen) ==> !IsActive(a, seen.holder))
    case _ => true
  }

  ghost predicate ReleaseOk(a: Api, key: Key, copy: Object, pc: ReleasePc) {
    (pc.Delete? ==> pc.seen in a.past && pc.seen.holder == HolderOf(key, copy)) && (Took(a, key, copy.uid) ==> copy.finalizer)
  }

  ghost predicate MarkOk(a: Api, key: Key, copy: Object, mark: Option<nat>) {
    mark.Some? ==> mark.value <= |a.created| && (Names(a.lease, key, copy.uid) ==> mark.value == |a.created|)
  }

  // ---- backups

  ghost predicate RunOpen(a: Api, key: Key, copy: Object) {
    !copy.synced && !Decided(copy.conditions, Succeeded) && !B.IsPostProcessing(copy.conditions) && Kept(a, key, copy)
  }

  ghost predicate RunHolds(a: Api, key: Key, copy: Object) {
    RunOpen(a, key, copy) && copy.finalizer && Names(a.lease, key, copy.uid)
  }

  ghost predicate RunEnds(op: B.Operation, copy: Object) {
    copy.finalizer
    && (if op == B.OperationDelete then copy.deleting
        else !copy.synced && B.IsPostProcessing(copy.conditions) && !Decided(copy.conditions, Succeeded))
  }

  ghost predicate MayDelete(copy: Object, scope: B.Scope) {
    copy.finalizer
    && (if scope == B.BackupAndProviderBackup then copy.deleting
        else Decided(copy.conditions, Succeeded) && IsTrue(copy.conditions, Canceled))
  }

  ghost predicate BackupPcOk(a: Api, key: Key, pc: B.BackupPc, copy: Object) {
    match pc
    case SyncGet => copy.synced && !Decided(copy.conditions, Succeeded)
    case SyncPatch(_) => copy.synced && !Decided(copy.conditions, Succeeded)
    case SeedPatch => RunOpen(a, key, copy)
    case SetupList => RunOpen(a, key, copy)
    case SetupUpdate => RunOpen(a, key, copy)
    case WindowAsk => RunOpen(a, key, copy) && copy.finalizer
    case WindowGet => RunOpen(a, key, copy) && copy.finalizer
    case OpenPatch(_) => RunOpen(a, key, copy) && copy.finalizer
    case CancelPatch(_) => RunOpen(a, key, copy) && copy.finalizer
    case PrepareGet => RunOpen(a, key, copy) && copy.finalizer
    case PrepareAsk => RunOpen(a, key, copy) && copy.finalizer
    case PrepareList => RunOpen(a, key, copy) && copy.finalizer
    case PreparePatch(_) => RunOpen(a, key, copy) && copy.finalizer
    case Acquire(acquire) => RunOpen(a, key, copy) && copy.finalizer && AcquireOk(a, HolderOf(key, copy), acquire)
    case HoldsGet(op) => RunEnds(op, copy)
    case OffGet(op) => RunEnds(op, copy) && !copy.synced && Took(a, key, copy.uid)
    case OffSwitch(op) => RunEnds(op, copy) && !copy.synced && Took(a, key, copy.uid)
    case Release(op, release) => RunEnds(op, copy) && ReleaseOk(a, key, copy, release)
    case DonePatch => RunEnds(B.OperationFinalize, copy)
    case OrphanGet => Decided(copy.conditions, Succeeded) && !IsTrue(copy.conditions, Canceled)
    case OrphanDelete => Decided(copy.conditions, Succeeded) && !IsTrue(copy.conditions, Canceled)
    case CanceledGet => MayDelete(copy, B.ProviderBackupOnly)
    case CanceledPatch => MayDelete(copy, B.ProviderBackupOnly)
    case DeleteGet => MayDelete(copy, B.BackupAndProviderBackup)
    case FinalizerDrop => MayDelete(copy, B.BackupAndProviderBackup)
    case RequestGet(scope) => MayDelete(copy, scope)
    case RequestCreate(scope) => MayDelete(copy, scope)
    case DropGet(scope, _) => MayDelete(copy, scope)
    case DropDelete(scope, _) => MayDelete(copy, scope)
    case DeletingPatch(scope, _) => MayDelete(copy, scope)
    case _ => RunHolds(a, key, copy)
  }

  ghost predicate BackupLocalOk(a: Api, key: Key, pc: B.BackupPc, copy: Object, mark: Option<nat>) {
    key.kind == Backup && key.name != 0 && InStep(a, key, copy) && BackupPcOk(a, key, pc, copy)
    && (pc.OwnPatch? || MarkOk(a, key, copy, mark))
  }

  // ---- restores

  ghost predicate Working(a: Api, key: Key, copy: Object) {
    copy.finalizer && !copy.deleting && Missing(copy.conditions, INITIAL_RESTORE_CONDITIONS) == map[]
    && !Decided(copy.conditions, Succeeded) && Kept(a, key, copy)
  }

  ghost predicate Holding(a: Api, key: Key, copy: Object) {
    Working(a, key, copy) && Names(a.lease, key, copy.uid)
  }

  ghost predicate Unprepared(a: Api, key: Key, copy: Object) {
    Holding(a, key, copy) && !IsTrue(copy.conditions, Prepared)
  }

  ghost predicate Provided(a: Api, key: Key, copy: Object) {
    Holding(a, key, copy) && IsTrue(copy.conditions, Prepared)
  }

  ghost predicate Recovering(a: Api, key: Key, copy: Object) {
    Provided(a, key, copy) && IsTrue(copy.conditions, ProviderSucceeded)
  }

  ghost predicate RestorePcOk(a: Api, key: Key, pc: R.RestorePc, copy: Object) {
    match pc
    case MigrateWrite(op) =>
      copy.conditions == map[] && LegacySucceeded(copy.legacy).Some? && op == R.RequiredOperation(copy) && op != R.OperationDelete
      && !Took(a, key, copy.uid)
    case SeedWrite => !IsTerminal(Restore, copy) && Kept(a, key, copy)
                      && (Succeeded !in copy.conditions ==> copy.conditions == map[])
    case MetadataUpdate =>
      !copy.deleting && Missing(copy.conditions, INITIAL_RESTORE_CONDITIONS) == map[]
      && !Decided(copy.conditions, Succeeded) && Kept(a, key, copy)
    case BarrierGet => Working(a, key, copy)
    case ConflictWrite => Working(a, key, copy)
    case Acquire(acquire) => Working(a, key, copy) && AcquireOk(a, HolderOf(key, copy), acquire)
    case WaitingWrite => Working(a, key, copy)
    case InvalidWrite => Working(a, key, copy)
    case LeaseHeldWrite => Holding(a, key, copy)
    case ReadyChild => Unprepared(a, key, copy)
    case ReadyAsk => Unprepared(a, key, copy)
    case UnreadyWrite => Unprepared(a, key, copy)
    case SourceChild => Unprepared(a, key, copy)
    case SourceAsk => Unprepared(a, key, copy)
    case UnusableWrite => Unprepared(a, key, copy)
    case MaintenanceGet => Holding(a, key, copy)
    case MaintenanceOn => Holding(a, key, copy)
    case PrepareChild => Unprepared(a, key, copy)
    case PrepareScaleDown => Unprepared(a, key, copy)
    case PrepareCleanup => Unprepared(a, key, copy)
    case PrepareFailedWrite => Unprepared(a, key, copy)
    case PreparedWrite => Unprepared(a, key, copy)
    case ChildGet => Provided(a, key, copy)
    case ChildGetAgain => Provided(a, key, copy)
    case ChildCreate => Provided(a, key, copy)
    case WatchGet => Provided(a, key, copy)
    case FailureOff => Provided(a, key, copy)
    case FailureWrite => Provided(a, key, copy)
    case ObservedWrite(observed) => Provided(a, key, copy) && observed.status != False
    case DeleteGet => copy.deleting && copy.finalizer
    case DeleteChild(_) => copy.deleting && copy.finalizer
    case DeletingWrite => copy.deleting && copy.finalizer
    case Release(op, release) =>
      ReleaseOk(a, key, copy, release)
      && (op == R.OperationDelete ==> copy.deleting && copy.finalizer)
      && (op != R.OperationDelete ==> IsTerminal(Restore, copy))
    case FinalizerDrop => copy.deleting && copy.finalizer
    case _ => Recovering(a, key, copy)
  }

  ghost predicate RestoreLocalOk(a: Api, key: Key, pc: R.RestorePc, copy: Object) {
    key.kind == Restore && key.name != 0 && InStep(a, key, copy) && RestorePcOk(a, key, pc, copy)
  }

  // ---- all of it

  /** A backup that was listed as completed and carried conditions can no longer be canceled. */
  ghost predicate VictimOk(a: Api, v: Victim) {
    var key := Key(Backup, v.name);
    0 < v.uid < a.counter
    && (key in a.objects && a.objects[key].uid == v.uid && v.judged ==>
          Decided(a.objects[key].conditions, ProviderSucceeded) && !IsTrue(a.objects[key].conditions, Canceled))
  }

  ghost predicate LocalOk(a: Api, w: Worker, l: Local) {
    l.Busy? ==>
      match w
      case Reconciler(key) =>
        (l.pc.BackupAt? && BackupLocalOk(a, key, l.pc.b, l.copy, l.mark))
        || (l.pc.RestoreAt? && RestoreLocalOk(a, key, l.pc.r, l.copy))
      case Mirror(_) => l.pc.MirrorAt?
      case Collector => l.pc.CollectAt? && l.pc.victims != [] && forall v :: v in l.pc.victims ==> VictimOk(a, v)
  }

  ghost predicate Inv(s: World) {
    ApiOk(s.api) && forall w :: w in s.locals ==> LocalOk(s.api, w, s.locals[w])
  }
}
