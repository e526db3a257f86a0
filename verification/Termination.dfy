/** A restore that meets no more trouble ends after at most twelve passes. */
module Termination {
  import opened Conditions
  import opened Cluster
  import opened Leases
  import opened System
  import opened Invariant
  import opened Rely
  import opened Preservation
  import opened Progress
  import R = RestoreWorkflow
  import RP = RestoreProof

  /** A call that succeeds, reads what is stored, and gets the answer it hopes for. */
  const CALM := Choice(Fine, true, None, [])

  /** The restore is still to be done and may have the lease. */
  ghost predicate Able(a: Api, key: Key) {
    key.kind == Restore && key in a.objects && IsOpen(key, a.objects[key])
    && (a.lease.None? || Names(a.lease, key, a.objects[key].uid))
  }

  ghost predicate Ended(a: Api, key: Key) { key in a.objects && IsTerminal(Restore, a.objects[key]) }

  predicate IsOutcome(state: RestoreState) { state == RestoreSucceeded || state == RestoreFailed }

  predicate Settled(a: Api, key: Key) { key.name in a.restores ==> IsOutcome(a.restores[key.name].state) }

  // ---- how much is left to do

  function RecoveryLeft(c: Conditions): nat {
    if IsUnknownFor(c, WorkloadsRecovered, {MaintenanceModeDeactivated}) then 1
    else if IsUnknownFor(c, WorkloadsRecovered, {ScaleUpFinalized}) then 2
    else if IsUnknownFor(c, WorkloadsRecovered, {WorkloadsReady}) then 3
    else if IsUnknownFor(c, WorkloadsRecovered, {ScaleUpInitiated, WaitingForWorkloads}) then 4
    else 5
  }

  predicate WaitsForLease(c: Conditions) { Succeeded in c && c[Succeeded].reason in {WaitingForActiveRestore, InvalidRestoreLease} }

  /** What the conditions say is still to be done; `child` tells whether Velero's restore exists. */
  function LeftOf(c: Conditions, child: bool): nat {
    (if Missing(c, INITIAL_RESTORE_CONDITIONS) != map[] then 1 else 0)
    + (if WaitsForLease(c) then 1 else 0)
    + (if IsTrue(c, Prepared) then 0 else 1)
    + (if IsTrue(c, ProviderSucceeded) then 0 else if child then 1 else 2)
    + RecoveryLeft(c)
  }

  /** The passes that are still needed, one for each thing that is still missing. */
  ghost function Left(a: Api, key: Key): (left: nat)
    requires key in a.objects
    ensures 1 <= left <= 12
  {
    var o := a.objects[key];
    LeftOf(o.conditions, key.name in a.restores)
    + (if !o.finalizer || !o.labeled then 1 else 0)
    + (if Names(a.lease, key, o.uid) then 0 else 1)
  }

  /** The calls that may still follow in this pass. */
  function CallsLeft(pc: R.RestorePc): nat {
    match pc
    case MigrateWrite(_) => 40
    case BarrierGet => 39
    case Acquire(acquire) => if acquire.Observe? then 38 else 1
    case ReadyChild => 30
    case ReadyAsk => 29
    case SourceChild => 28
    case SourceAsk => 27
    case MaintenanceGet => 26
    case MaintenanceOn => 25
    case PrepareChild => 24
    case PrepareScaleDown => 23
    case PrepareCleanup => 22
    case ChildGet => 20
    case ChildGetAgain => 19
    case WatchGet => 18
    case FailureOff => 17
    case ScaleUpRun => 16
    case ReadyObserve => 15
    case FinalizeRun => 14
    case MaintenanceOff => 13
    case _ => 1
  }

  // ---- one calm call

  predicate Recovers(c: Conditions, reasons: set<Reason>) { IsUnknownFor(c, WorkloadsRecovered, reasons) }

  /** What a calm pass knows, beyond the invariant, at each call it gets to. */
  ghost predicate OnTrack(a: Api, key: Key, pc: R.RestorePc, copy: Object) {
    match pc
    case MigrateWrite(_) => true
    case SeedWrite => Missing(copy.conditions, INITIAL_RESTORE_CONDITIONS) != map[]
    case MetadataUpdate => !copy.finalizer || !copy.labeled
    case BarrierGet => copy.labeled
    case ConflictWrite => true
    case Acquire(acquire) => acquire.Observe? || (acquire.Create? && a.lease.None?)
    case LeaseHeldWrite => WaitsForLease(copy.conditions)
    case ChildGet => !IsTrue(copy.conditions, ProviderSucceeded)
    case ChildGetAgain => !IsTrue(copy.conditions, ProviderSucceeded) && key.name !in a.restores
    case ChildCreate => !IsTrue(copy.conditions, ProviderSucceeded) && key.name !in a.restores
    case WatchGet => !IsTrue(copy.conditions, ProviderSucceeded) && key.name in a.restores
    case FailureOff => true
    case FailureWrite => true
    case ObservedWrite(observed) => observed.status == True && !IsTrue(copy.conditions, ProviderSucceeded)
    case ReadyObserve => Recovers(copy.conditions, R.AFTER_READY + {ScaleUpInitiated, WaitingForWorkloads})
    case ScaleUpWrite => !Recovers(copy.conditions, R.AFTER_READY + {ScaleUpInitiated, WaitingForWorkloads})
    case ReadyWrite => Recovers(copy.conditions, {ScaleUpInitiated, WaitingForWorkloads})
    case FinalizeRun => Recovers(copy.conditions, R.AFTER_READY)
    case FinalizeWrite => Recovers(copy.conditions, {WorkloadsReady})
    case MaintenanceOff => Recovers(copy.conditions, {ScaleUpFinalized, MaintenanceModeDeactivated})
    case MaintenanceOffWrite => Recovers(copy.conditions, {ScaleUpFinalized})
    case CompletedWrite => Recovers(copy.conditions, {MaintenanceModeDeactivated})
    case WaitingWrite => false
    case InvalidWrite => false
    case UnreadyWrite => false
    case UnusableWrite => false
    case PrepareFailedWrite => false
    case ScaleUpFailedWrite => false
    case NotReadyWrite => false
    case FinalizeFailedWrite => false
    case DeleteGet => false
    case DeleteChild(_) => false
    case DeletingWrite => false
    case Release(_, _) => false
    case FinalizerDrop => false
    case _ => true
  }

  /** A pass that nobody disturbs works on what is stored. */
  ghost predicate Calm(a: Api, key: Key, pc: R.RestorePc, copy: Object) {
    ApiOk(a) && RestoreLocalOk(a, key, pc, copy) && Able(a, key) && Settled(a, key)
    && copy == a.objects[key] && OnTrack(a, key, pc, copy)
  }

  /** Within a pass every call brings its end nearer. */
  ghost predicate Nearer(a: Api, key: Key, pc: R.RestorePc, copy: Object, n: R.RestoreNext) {
    n.Go? && n.copy == copy && OnTrack(a, key, n.pc, copy) && CallsLeft(n.pc) < CallsLeft(pc)
  }

  /** The answers of a calm server to the calls that change no resource and no lease. */
  ghost predicate Told(a: Api, q: Request, r: Response) {
    match q
    case GetProviderRestore(n) => if n in a.restores then r == FoundProviderRestore(a.restores[n]) else r == NotFound
    case GetMaintenance => r.Answer?
    case SwitchMaintenance(_) => r == Done
    case Ask => r == Answer(true)
    case DoWork(_) => r == Done
    case _ => false
  }

  lemma CalmlyServed(a: Api, q: Request)
    requires q.GetProviderRestore? || q.GetMaintenance? || q.SwitchMaintenance? || q.Ask? || q.DoWork?
    ensures var (a', r) := Serve(a, q, CALM); Told(a, q, r) && a' == a.(maintenance := a'.maintenance)
  {
  }

  predicate IsInner(pc: R.RestorePc) {
    pc.BarrierGet? || pc.ReadyChild? || pc.ReadyAsk? || pc.SourceChild? || pc.SourceAsk?
    || pc.MaintenanceGet? || pc.MaintenanceOn? || pc.PrepareChild? || pc.PrepareScaleDown? || pc.PrepareCleanup?
    || pc.ChildGet? || pc.ChildGetAgain? || pc.WatchGet? || pc.FailureOff?
    || pc.ScaleUpRun? || pc.ReadyObserve? || pc.FinalizeRun? || pc.MaintenanceOff?
  }

  lemma InnerRequest(pc: R.RestorePc, key: Key, copy: Object)
    requires IsInner(pc)
    ensures var q := R.RestoreRequest(pc, key, copy);
            (q.GetProviderRestore? && q.name == key.name) || q.GetMaintenance? || q.SwitchMaintenance? || q.Ask? || q.DoWork?
  {
  }

  lemma OpeningStep(a: Api, key: Key, pc: R.RestorePc, copy: Object, r: Response)
    requires OnTrack(a, key, pc, copy) && Told(a, R.RestoreRequest(pc, key, copy), r) && pc.BarrierGet?
    requires R.RequiredOperation(copy) == R.OperationCreate
    ensures Nearer(a, key, pc, copy, R.RestoreStep(pc, key, copy, r))
  {
  }

  lemma GateStep(a: Api, key: Key, pc: R.RestorePc, copy: Object, r: Response)
    requires OnTrack(a, key, pc, copy) && Told(a, R.RestoreRequest(pc, key, copy), r)
    requires pc.ReadyChild? || pc.ReadyAsk? || pc.SourceChild? || pc.SourceAsk?
    requires !IsTrue(copy.conditions, Prepared) && (r.FoundProviderRestore? ==> !R.IsOwned(copy, r.restore))
    ensures Nearer(a, key, pc, copy, R.RestoreStep(pc, key, copy, r))
  {
  }

  lemma PreparationStep(a: Api, key: Key, pc: R.RestorePc, copy: Object, r: Response)
    requires OnTrack(a, key, pc, copy) && Told(a, R.RestoreRequest(pc, key, copy), r)
    requires pc.MaintenanceGet? || pc.MaintenanceOn? || pc.PrepareChild? || pc.PrepareScaleDown? || pc.PrepareCleanup?
    requires r.FoundProviderRestore? ==> !R.IsOwned(copy, r.restore)
    ensures Nearer(a, key, pc, copy, R.RestoreStep(pc, key, copy, r))
  {
  }

  lemma ChildStep(a: Api, key: Key, pc: R.RestorePc, copy: Object, r: Response)
    requires OnTrack(a, key, pc, copy) && Told(a, R.RestoreRequest(pc, key, copy), r) && Settled(a, key)
    requires pc.ChildGet? || pc.WatchGet? || pc.FailureOff? || pc.ChildGetAgain?
    ensures Nearer(a, key, pc, copy, R.RestoreStep(pc, key, copy, r))
  {
  }

  lemma RecoveryStep(a: Api, key: Key, pc: R.RestorePc, copy: Object, r: Response)
    requires OnTrack(a, key, pc, copy) && Told(a, R.RestoreRequest(pc, key, copy), r) && !IsTerminal(Restore, copy)
    requires pc.ScaleUpRun? || pc.ReadyObserve? || pc.FinalizeRun? || pc.MaintenanceOff?
    ensures Nearer(a, key, pc, copy, R.RestoreStep(pc, key, copy, r))
  {
  }

  lemma InnerStep(a: Api, key: Key, pc: R.RestorePc, copy: Object, r: Response)
    requires Calm(a, key, pc, copy) && IsInner(pc) && Told(a, R.RestoreRequest(pc, key, copy), r)
    ensures Nearer(a, key, pc, copy, R.RestoreStep(pc, key, copy, r))
  {
    if pc.BarrierGet? { OpeningStep(a, key, pc, copy, r); }
    else if pc.ChildGet? || pc.ChildGetAgain? || pc.WatchGet? || pc.FailureOff? { ChildStep(a, key, pc, copy, r); }
    else if pc.ScaleUpRun? || pc.ReadyObserve? || pc.FinalizeRun? || pc.MaintenanceOff? { RecoveryStep(a, key, pc, copy, r); }
    else {
      NotOwnedYet(a, key, pc, copy, r);
      if pc.ReadyChild? || pc.ReadyAsk? || pc.SourceChild? || pc.SourceAsk? { GateStep(a, key, pc, copy, r); }
      else { PreparationStep(a, key, pc, copy, r); }
    }
  }

  lemma NotOwnedYet(a: Api, key: Key, pc: R.RestorePc, copy: Object, r: Response)
    requires Calm(a, key, pc, copy) && IsInner(pc) && Told(a, R.RestoreRequest(pc, key, copy), r)
    requires !IsTrue(copy.conditions, Prepared) || pc.MaintenanceGet? || pc.MaintenanceOn?
    ensures r.FoundProviderRestore? ==> !R.IsOwned(copy, r.restore)
  {
    InnerRequest(pc, key, copy);
    if r.FoundProviderRestore? && R.IsOwned(copy, r.restore) { RP.OwnedIsPrepared(a, key, copy, key.name); }
  }

  lemma InnerCall(a: Api, key: Key, pc: R.RestorePc, copy: Object)
    requires IsInner(pc)
    ensures var (a', r) := Serve(a, R.RestoreRequest(pc, key, copy), CALM);
            a' == a.(maintenance := a'.maintenance) && Told(a, R.RestoreRequest(pc, key, copy), r)
  {
    InnerRequest(pc, key, copy);
    CalmlyServed(a, R.RestoreRequest(pc, key, copy));
  }

  /** Nothing of this is what the measure or the calm pass looks at. */
  lemma MaintenanceDoesNotCount(a: Api, a': Api, key: Key, pc: R.RestorePc, copy: Object)
    requires a' == a.(maintenance := a'.maintenance) && Able(a, key) && Settled(a, key) && OnTrack(a, key, pc, copy)
    ensures Able(a', key) && Settled(a', key) && OnTrack(a', key, pc, copy) && Left(a', key) == Left(a, key)
  {
  }

  // ---- the calls that end a pass

  lemma ObserveCall(a: Api, key: Key, pc: R.RestorePc, copy: Object)
    requires Able(a, key) && copy == a.objects[key] && pc.Acquire? && pc.acquire.Observe? && R.RequiredOperation(copy) == R.OperationCreate
    ensures var (a', r) := Serve(a, R.RestoreRequest(pc, key, copy), CALM);
            a' == a && Nearer(a, key, pc, copy, R.RestoreStep(pc, key, copy, r))
  {
    var r := Serve(a, R.RestoreRequest(pc, key, copy), CALM).1;
    assert r == if a.lease.Some? then FoundLease(a.lease.value) else NotFound;
  }

  lemma CreateCall(a: Api, key: Key, pc: R.RestorePc, copy: Object)
    requires pc.Acquire? && pc.acquire.Create? && a.lease.None?
    ensures var (a', r) := Serve(a, R.RestoreRequest(pc, key, copy), CALM);
            R.RestoreStep(pc, key, copy, r).Stop? && a' == StoreLease(a, Lease(a.counter, a.counter, HolderOf(key, copy)))
  {
  }

  lemma LeaseTaken(a: Api, key: Key)
    requires Able(a, key) && a.lease.None?
    ensures var a' := StoreLease(a, Lease(a.counter, a.counter, HolderOf(key, a.objects[key])));
            Able(a', key) && Left(a', key) < Left(a, key)
  {
  }

  lemma ChildCreated(a: Api, key: Key, copy: Object)
    requires Calm(a, key, R.ChildCreate, copy)
    ensures var a' := Serve(a, R.RestoreRequest(R.ChildCreate, key, copy), CALM).0;
            Able(a', key) && Left(a', key) < Left(a, key)
  {
  }

  lemma MetadataUpdated(a: Api, key: Key, copy: Object)
    requires Calm(a, key, R.MetadataUpdate, copy)
    ensures var a' := Serve(a, R.RestoreRequest(R.MetadataUpdate, key, copy), CALM).0;
            Able(a', key) && Left(a', key) < Left(a, key)
  {
  }

  /** A write settles one thing that was missing. */
  lemma SeedCounts(c: Conditions, child: bool)
    requires Missing(c, INITIAL_RESTORE_CONDITIONS) != map[] && (c == map[] || Succeeded in c)
    ensures LeftOf(c + Missing(c, INITIAL_RESTORE_CONDITIONS), child) < LeftOf(c, child)
  {
    var c' := c + Missing(c, INITIAL_RESTORE_CONDITIONS);
    assert Missing(c', INITIAL_RESTORE_CONDITIONS) == map[];
  }

  lemma RecoveryCounts(c: Conditions, n: Reason, child: bool)
    requires Missing(c, INITIAL_RESTORE_CONDITIONS) == map[]
    requires (n == ScaleUpInitiated && RecoveryLeft(c) == 5) || (n == WorkloadsReady && RecoveryLeft(c) == 4)
             || (n == ScaleUpFinalized && RecoveryLeft(c) == 3) || (n == MaintenanceModeDeactivated && RecoveryLeft(c) == 2)
    ensures LeftOf(c + map[WorkloadsRecovered := Condition(Unknown, n)], child) < LeftOf(c, child)
  {
    var c' := c + map[WorkloadsRecovered := Condition(Unknown, n)];
    assert forall t :: t in c ==> t in c';
    assert Missing(c', INITIAL_RESTORE_CONDITIONS) == map[];
  }

  lemma OtherWriteCounts(c: Conditions, t: Type, d: Condition, child: bool)
    requires Missing(c, INITIAL_RESTORE_CONDITIONS) == map[]
    requires (t == Prepared && !IsTrue(c, Prepared) && d.status == True)
             || (t == ProviderSucceeded && !IsTrue(c, ProviderSucceeded) && d.status == True)
             || (t == Succeeded && WaitsForLease(c) && d.reason == RestoreLeaseAcquired)
    ensures LeftOf(c + map[t := d], child) < LeftOf(c, child)
  {
    var c' := c + map[t := d];
    assert forall t :: t in c ==> t in c';
    assert Missing(c', INITIAL_RESTORE_CONDITIONS) == map[];
  }

  predicate EndsRestore(pc: R.RestorePc) { pc.ConflictWrite? || pc.FailureWrite? || pc.CompletedWrite? }

  lemma WriteCounts(a: Api, key: Key, pc: R.RestorePc, copy: Object, child: bool)
    requires RestorePcOk(a, key, pc, copy) && OnTrack(a, key, pc, copy) && RestoreOk(copy)
    requires R.RestoreRequest(pc, key, copy).WriteStatus? && !pc.MigrateWrite? && !EndsRestore(pc)
    ensures LeftOf(copy.conditions + R.RestoreRequest(pc, key, copy).changes, child) < LeftOf(copy.conditions, child)
  {
    var c, changes := copy.conditions, R.RestoreRequest(pc, key, copy).changes;
    if pc.SeedWrite? { SeedCounts(c, child); }
    else if pc.LeaseHeldWrite? { OtherWriteCounts(c, Succeeded, changes[Succeeded], child); }
    else if pc.PreparedWrite? { OtherWriteCounts(c, Prepared, changes[Prepared], child); }
    else if pc.ObservedWrite? { OtherWriteCounts(c, ProviderSucceeded, pc.observed, child); }
    else if pc.ScaleUpWrite? || pc.ReadyWrite? || pc.FinalizeWrite? || pc.MaintenanceOffWrite? {
      RecoveryCounts(c, changes[WorkloadsRecovered].reason, child);
    }
  }

  lemma WriteStays(a: Api, key: Key, pc: R.RestorePc, copy: Object)
    requires RestorePcOk(a, key, pc, copy) && OnTrack(a, key, pc, copy)
    requires R.RestoreRequest(pc, key, copy).WriteStatus? && !pc.MigrateWrite?
    ensures var c' := copy.conditions + R.RestoreRequest(pc, key, copy).changes;
            Succeeded in c' && (EndsRestore(pc) <==> c'[Succeeded].status != Unknown)
  {
  }

  lemma WriteServed(a: Api, key: Key, changes: Conditions, o: Object)
    requires key in a.objects && o == a.objects[key] && o.conditions + changes != o.conditions
    ensures var a' := Serve(a, WriteStatus(key, changes), CALM).0;
            a'.lease == a.lease && a'.restores == a.restores && key in a'.objects
            && a'.objects[key] == WithMerged(o, changes).(version := a'.objects[key].version)
  {
  }

  lemma WriteCall(a: Api, key: Key, pc: R.RestorePc, copy: Object)
    requires Calm(a, key, pc, copy) && R.RestoreRequest(pc, key, copy).WriteStatus? && !pc.MigrateWrite?
    ensures var a' := Serve(a, R.RestoreRequest(pc, key, copy), CALM).0;
            Ended(a', key) || (Able(a', key) && Left(a', key) < Left(a, key))
  {
    var changes := R.RestoreRequest(pc, key, copy).changes;
    var a' := Serve(a, R.RestoreRequest(pc, key, copy), CALM).0;
    WriteStays(a, key, pc, copy);
    if !EndsRestore(pc) { WriteCounts(a, key, pc, copy, key.name in a.restores); }
    assert copy.conditions + changes != copy.conditions;
    WriteServed(a, key, changes, copy);
  }

  /** An older operator's scalar that stands for a running restore becomes a condition; the pass goes on. */
  lemma MigrateCall(a: Api, key: Key, pc: R.RestorePc, copy: Object)
    requires Calm(a, key, pc, copy) && pc.MigrateWrite?
    ensures var (a', r) := Serve(a, R.RestoreRequest(pc, key, copy), CALM);
            var n := R.RestoreStep(pc, key, copy, r);
            n.Go? && Able(a', key) && Settled(a', key) && n.copy == a'.objects[key] && OnTrack(a', key, n.pc, n.copy)
            && CallsLeft(n.pc) < CallsLeft(pc) && Left(a', key) == Left(a, key)
  {
    var (a', r) := Serve(a, R.RestoreRequest(pc, key, copy), CALM);
    var migrated := map[Succeeded := LegacySucceeded(copy.legacy).value];
    assert copy.conditions + migrated == migrated;
    WriteServed(a, key, migrated, copy);
    MigratedLeft(copy.conditions, migrated, key.name in a.restores);
    assert r == FoundObject(a'.objects[key]);
  }

  lemma MigratedLeft(c: Conditions, migrated: Conditions, child: bool)
    requires c == map[] && migrated == map[Succeeded := Condition(Unknown, MigratedFromLegacyStatus)]
    ensures LeftOf(migrated, child) == LeftOf(c, child) && Missing(migrated, INITIAL_RESTORE_CONDITIONS) != map[]
  {
    assert Prepared in Missing(c, INITIAL_RESTORE_CONDITIONS) && Prepared in Missing(migrated, INITIAL_RESTORE_CONDITIONS);
  }

  /** Each calm call brings the end of the pass nearer, and the pass the end of the restore. */
  ghost predicate Better(a: Api, a': Api, key: Key, pc: R.RestorePc, n: R.RestoreNext)
    requires key in a.objects
  {
    if n.Go? then Calm(a', key, n.pc, n.copy) && CallsLeft(n.pc) < CallsLeft(pc) && Left(a', key) == Left(a, key)
    else ApiOk(a') && (Ended(a', key) || (Able(a', key) && Left(a', key) < Left(a, key)))
  }

  lemma InnerIsBetter(a: Api, key: Key, pc: R.RestorePc, copy: Object)
    requires Calm(a, key, pc, copy) && IsInner(pc)
    ensures var (a', r) := Serve(a, R.RestoreRequest(pc, key, copy), CALM);
            var n := R.RestoreStep(pc, key, copy, r);
            n.Go? && Able(a', key) && Settled(a', key) && n.copy == a'.objects[key] && OnTrack(a', key, n.pc, n.copy)
            && CallsLeft(n.pc) < CallsLeft(pc) && Left(a', key) == Left(a, key)
  {
    var (a', r) := Serve(a, R.RestoreRequest(pc, key, copy), CALM);
    InnerCall(a, key, pc, copy);
    InnerStep(a, key, pc, copy, r);
    MaintenanceDoesNotCount(a, a', key, R.RestoreStep(pc, key, copy, r).pc, copy);
  }

  lemma PassEnds(a: Api, key: Key, pc: R.RestorePc, copy: Object, r: Response)
    requires OnTrack(a, key, pc, copy) && !IsInner(pc) && !pc.MigrateWrite? && !pc.Acquire?
    ensures R.RestoreStep(pc, key, copy, r).Stop?
    ensures R.RestoreRequest(pc, key, copy).WriteStatus? || pc.MetadataUpdate? || pc.ChildCreate?
  {
  }

  lemma EndingCall(a: Api, key: Key, pc: R.RestorePc, copy: Object)
    requires Calm(a, key, pc, copy) && !IsInner(pc) && !pc.MigrateWrite? && !pc.Acquire?
    ensures var a' := Serve(a, R.RestoreRequest(pc, key, copy), CALM).0;
            Ended(a', key) || (Able(a', key) && Left(a', key) < Left(a, key))
  {
    PassEnds(a, key, pc, copy, Error);
    if pc.MetadataUpdate? { MetadataUpdated(a, key, copy); }
    else if pc.ChildCreate? { ChildCreated(a, key, copy); }
    else { WriteCall(a, key, pc, copy); }
  }

  lemma CalmCall(a: Api, key: Key, pc: R.RestorePc, copy: Object)
    requires Calm(a, key, pc, copy)
    ensures var (a', r) := Serve(a, R.RestoreRequest(pc, key, copy), CALM);
            Better(a, a', key, pc, R.RestoreStep(pc, key, copy, r))
  {
    RP.RestoreGuard(a, key, pc, copy);
    ServeKeeps(a, Reconciler(key), R.RestoreRequest(pc, key, copy), CALM);
    RP.RestoreServed(a, key, pc, copy, CALM);
    if pc.MigrateWrite? { MigrateCall(a, key, pc, copy); }
    else if pc.Acquire? {
      if pc.acquire.Observe? { ObserveCall(a, key, pc, copy); } else { CreateCall(a, key, pc, copy); LeaseTaken(a, key); }
    }
    else if IsInner(pc) { InnerIsBetter(a, key, pc, copy); }
    else {
      EndingCall(a, key, pc, copy);
      PassEnds(a, key, pc, copy, Serve(a, R.RestoreRequest(pc, key, copy), CALM).1);
    }
  }

  // ---- whole passes

  /** The calls of the pass that worker w is in, until it is done; at most `fuel` of them. */
  function Calls(s: World, w: Worker, fuel: nat): World
    decreases fuel
  {
    if fuel == 0 || At(s, w).Idle? then s else Calls(Step(s, Call(w, CALM)), w, fuel - 1)
  }

  /** Velero brings the child to its outcome, if there is one; then one pass runs undisturbed. */
  function Pass(s: World, key: Key, outcome: RestoreState): World {
    Calls(Step(Step(s, Outside(ChildIs(key.name, outcome))), Call(Reconciler(key), CALM)), Reconciler(key), 40)
  }

  function Passes(s: World, key: Key, outcome: RestoreState, k: nat): World
    decreases k
  {
    if k == 0 then s else Passes(Pass(s, key, outcome), key, outcome, k - 1)
  }

  ghost predicate CalmLocal(s: World, key: Key) {
    var l := At(s, Reconciler(key));
    l.Busy? && l.pc.RestoreAt? && Calm(s.api, key, l.pc.r, l.copy)
  }

  ghost predicate Advanced(s: World, s': World, key: Key)
    requires key in s.api.objects
  {
    At(s', Reconciler(key)).Idle?
    && (Ended(s'.api, key) || (Able(s'.api, key) && Left(s'.api, key) < Left(s.api, key)))
  }

  lemma CalmStep(s: World, key: Key)
    requires CalmLocal(s, key)
    ensures var s' := Step(s, Call(Reconciler(key), CALM));
            var l, l' := At(s, Reconciler(key)), At(s', Reconciler(key));
            if l'.Busy? then CalmLocal(s', key) && CallsLeft(l'.pc.r) < CallsLeft(l.pc.r) && Left(s'.api, key) == Left(s.api, key)
            else Advanced(s, s', key)
  {
    var l := At(s, Reconciler(key));
    CalmCall(s.api, key, l.pc.r, l.copy);
    NoCreation(l.pc.r, key, l.copy);
  }

  lemma NoCreation(pc: R.RestorePc, key: Key, copy: Object)
    ensures !R.RestoreRequest(pc, key, copy).CreateSynced? && !R.RestoreRequest(pc, key, copy).ListProviderBackups?
  {
  }

  lemma {:induction false} CallsFinish(s: World, key: Key, fuel: nat)
    requires CalmLocal(s, key) && CallsLeft(At(s, Reconciler(key)).pc.r) <= fuel
    ensures Advanced(s, Calls(s, Reconciler(key), fuel), key)
    decreases fuel
  {
    var s' := Step(s, Call(Reconciler(key), CALM));
    CalmStep(s, key);
    if At(s', Reconciler(key)).Busy? { CallsFinish(s', key, fuel - 1); }
  }

  lemma PassStarts(s: World, key: Key)
    requires Inv(s) && At(s, Reconciler(key)).Idle? && Able(s.api, key) && Settled(s.api, key)
    ensures var s' := Step(s, Call(Reconciler(key), CALM));
            s'.api == s.api && CalmLocal(s', key) && CallsLeft(At(s', Reconciler(key)).pc.r) <= 40
  {
    RP.RestoreStarts(s.api, key);
    var s' := Step(s, Call(Reconciler(key), CALM));
    assert At(s', Reconciler(key)) == Busy(RestoreAt(R.Start(s.api.objects[key]).pc), s.api.objects[key], None, [Exchange(GetObject(key), FoundObject(s.api.objects[key]))]);
  }

  /** Every undisturbed pass of a restore that is still to be done ends it or leaves less to do. */
  lemma PassAdvances(s: World, key: Key, outcome: RestoreState)
    requires Inv(s) && At(s, Reconciler(key)).Idle? && Able(s.api, key) && IsOutcome(outcome)
    ensures Inv(Pass(s, key, outcome)) && Advanced(s, Pass(s, key, outcome), key)
  {
    var t := Step(s, Outside(ChildIs(key.name, outcome)));
    OutsideKeeps(s, ChildIs(key.name, outcome));
    assert Settled(t.api, key) && Able(t.api, key) && Left(t.api, key) == Left(s.api, key);
    PassStarts(t, key);
    CallsFinish(Step(t, Call(Reconciler(key), CALM)), key, 40);
    CallKeeps(t, Reconciler(key), CALM);
    CallsKeep(Step(t, Call(Reconciler(key), CALM)), Reconciler(key), 40);
  }

  lemma {:induction false} CallsKeep(s: World, w: Worker, fuel: nat)
    requires Inv(s)
    ensures Inv(Calls(s, w, fuel))
    decreases fuel
  {
    if fuel > 0 && At(s, w).Busy? {
      CallKeeps(s, w, CALM);
      CallsKeep(Step(s, Call(w, CALM)), w, fuel - 1);
    }
  }

  lemma {:induction false} PassesEnd(s: World, key: Key, outcome: RestoreState, k: nat)
    requires Inv(s) && At(s, Reconciler(key)).Idle? && Able(s.api, key) && IsOutcome(outcome) && Left(s.api, key) <= k
    ensures exists i: nat :: i <= k && Ended(Passes(s, key, outcome, i).api, key)
    decreases k
  {
    var t := Pass(s, key, outcome);
    PassAdvances(s, key, outcome);
    if Ended(t.api, key) {
      assert Passes(s, key, outcome, 1) == Passes(t, key, outcome, 0) == t;
    } else {
      PassesEnd(t, key, outcome, k - 1);
      var i: nat :| i <= k - 1 && Ended(Passes(t, key, outcome, i).api, key);
      assert Passes(s, key, outcome, i + 1) == Passes(t, key, outcome, i);
    }
  }

  /** From every reachable state, a restore that is still to be done and finds the lease free or its own ends within
      twelve passes, if no more call fails, Velero settles its child, and source, provider and workloads are ready. */
  lemma RestoreEnds(run: seq<World>, actions: seq<Action>, n: nat, key: Key, outcome: RestoreState)
    requires IsRun(run, actions) && n < |run| && IsOutcome(outcome)
    requires At(run[n], Reconciler(key)).Idle? && Able(run[n].api, key)
    ensures exists i: nat :: i <= 12 && Ended(Passes(run[n], key, outcome, i).api, key)
  {
    InvHolds(run, actions, n);
    PassesEnd(run[n], key, outcome, 12);
  }
}
