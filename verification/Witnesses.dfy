/** Concrete runs in which something goes wrong that one might take for impossible: each of them starts in the same small
    world and takes a few passes. */
module Witnesses {
  import opened Conditions
  import opened Cluster
  import opened Leases
  import opened System
  import opened Invariant
  import opened Rely
  import opened Progress
  import opened Safety
  import opened History
  import opened Termination
  import B = BackupWorkflow

  /** Some run leads to this state. */
  ghost predicate IsReachable(s: World) {
    exists run: seq<World>, actions: seq<Action> :: IsRun(run, actions) && run[|run| - 1] == s
  }

  lemma Reaches(s: World, action: Action)
    requires IsReachable(s)
    ensures IsReachable(Step(s, action))
  {
    var run: seq<World>, actions: seq<Action> :| IsRun(run, actions) && run[|run| - 1] == s;
    ExtendRun(run, actions, action);
    var longer := run + [Step(s, action)];
    assert longer[|longer| - 1] == Step(s, action);
  }

  // ---- single calls

  /** The pass over the backup is here, and its copy is what is stored. */
  ghost predicate IsAt(s: World, key: Key, pc: B.BackupPc) {
    key.kind == Backup && key in s.api.objects
    && At(s, Reconciler(key)).Busy? && At(s, Reconciler(key)).pc == BackupAt(pc) && At(s, Reconciler(key)).copy == s.api.objects[key]
  }

  /** Nothing but this backup changed, ... */
  ghost predicate OnlyObject(a: Api, a': Api, key: Key) {
    a'.lease == a.lease && a'.past == a.past && a'.backups == a.backups && a'.maintenance == a.maintenance
    && key in a'.objects && key in a.objects && a'.objects[key].uid == a.objects[key].uid
    && forall k :: k != key ==> (k in a'.objects <==> k in a.objects) && (k in a.objects ==> a'.objects[k] == a.objects[k])
  }

  /** ... and its worker. */
  ghost predicate OnlyMoves(s: World, t: World, key: Key) {
    OnlyObject(s.api, t.api, key) && forall w :: w != Reconciler(key) ==> At(t, w) == At(s, w)
  }

  ghost predicate GoesTo(t: World, key: Key, n: B.BackupNext) {
    if n.Stop? then At(t, Reconciler(key)).Idle?
    else At(t, Reconciler(key)).Busy? && At(t, Reconciler(key)).pc == BackupAt(n.pc) && At(t, Reconciler(key)).copy == n.copy
  }

  /** The next call of the pass. */
  lemma Called(s: World, key: Key, pc: B.BackupPc, c: Choice) returns (t: World, r: Response)
    requires IsReachable(s) && IsAt(s, key, pc)
    ensures IsReachable(t)
    ensures (t.api, r) == Serve(s.api, B.BackupRequest(pc, key, s.api.objects[key]), c)
    ensures GoesTo(t, key, B.BackupStep(pc, key, s.api.objects[key], r))
    ensures At(t, Reconciler(key)).Busy? ==>
              At(t, Reconciler(key)).trail == At(s, Reconciler(key)).trail + [Exchange(B.BackupRequest(pc, key, s.api.objects[key]), r)]
    ensures forall w :: w != Reconciler(key) ==> At(t, w) == At(s, w)
  {
    t := Step(s, Call(Reconciler(key), c));
    Reaches(s, Call(Reconciler(key), c));
    var q := B.BackupRequest(pc, key, s.api.objects[key]);
    r := Serve(s.api, q, c).1;
    NeverCreatesSynced(pc, key, s.api.objects[key]);
  }

  lemma NeverCreatesSynced(pc: B.BackupPc, key: Key, copy: Object)
    ensures !B.BackupRequest(pc, key, copy).CreateSynced?
  {
  }

  /** A pass begins. */
  lemma Begun(s: World, key: Key) returns (t: World)
    requires IsReachable(s) && key.kind == Backup && key in s.api.objects && At(s, Reconciler(key)).Idle?
    ensures IsReachable(t) && t.api == s.api && GoesTo(t, key, B.Start(s.api.objects[key]))
    ensures forall w :: w != Reconciler(key) ==> At(t, w) == At(s, w)
  {
    t := Step(s, Call(Reconciler(key), CALM));
    Reaches(s, Call(Reconciler(key), CALM));
  }

  lemma Happened(s: World, h: Happening) returns (t: World)
    requires IsReachable(s)
    ensures IsReachable(t) && t.api == Happen(s, h) && t.locals == s.locals
  {
    t := Step(s, Outside(h));
    Reaches(s, Outside(h));
  }

  // ---- what the server answers

  lemma Answered(a: Api, c: Choice)
    requires c.fault == Fault.Fine
    ensures Serve(a, Ask, c) == (a, Answer(c.answer)) && Serve(a, GetMaintenance, c) == (a, Answer(a.maintenance))
    ensures Serve(a, SwitchMaintenance(true), c) == (a.(maintenance := true), Done)
  {
  }

  lemma BackupRead(a: Api, name: Name)
    ensures Serve(a, GetProviderBackup(name), CALM) == (a, if name in a.backups then FoundProviderBackup(a.backups[name]) else NotFound)
  {
  }

  lemma LeaseRead(a: Api)
    ensures Serve(a, GetLease, CALM) == (a, if a.lease.Some? then FoundLease(a.lease.value) else NotFound)
    ensures Serve(a, GetLease, Outdated(None)) == (a, NotFound)
  {
  }

  /** What a cache that is behind shows. */
  function Outdated(view: Option<Lease>): Choice { Choice(Fault.Fine, true, Some(view), []) }

  // ---- from the first call to the lease

  /** A backup nobody has worked on. */
  predicate IsUntouched(o: Object) { o.conditions == map[] && !o.synced && !o.deleting && !o.finalizer && !o.started }

  /** One whose run is open and has not started. */
  predicate IsWaiting(o: Object) {
    Missing(o.conditions, INITIAL_BACKUP_CONDITIONS) == map[] && !Decided(o.conditions, Succeeded) && !B.IsPostProcessing(o.conditions)
    && !o.synced && !o.deleting && !o.started
  }

  lemma Patched(a: Api, key: Key, conditions: Conditions, start: bool)
    requires key in a.objects
    ensures var (a', r) := Serve(a, PatchStatus(key, conditions, start), CALM);
            OnlyObject(a, a', key) && r == FoundObject(a'.objects[key])
            && r.obj == WithPatched(a.objects[key], conditions, start).(version := a.counter)
  {
  }

  lemma Seeded(s: World, key: Key) returns (t: World)
    requires IsReachable(s) && IsAt(s, key, B.SeedPatch) && IsUntouched(s.api.objects[key])
    ensures IsReachable(t) && IsAt(t, key, B.SetupList) && OnlyMoves(s, t, key) && IsWaiting(t.api.objects[key]) && !t.api.objects[key].finalizer
  {
    var r;
    t, r := Called(s, key, B.SeedPatch, CALM);
    SeedRequest(key, s.api.objects[key]);
    Patched(s.api, key, INITIAL_BACKUP_CONDITIONS, false);
    assert B.BackupStep(B.SeedPatch, key, s.api.objects[key], r) == B.Go(B.SetupList, r.obj);
  }

  lemma SeedRequest(key: Key, o: Object)
    requires IsUntouched(o)
    ensures B.BackupRequest(B.SeedPatch, key, o) == PatchStatus(key, INITIAL_BACKUP_CONDITIONS, false)
    ensures IsWaiting(o.(conditions := INITIAL_BACKUP_CONDITIONS))
  {
    assert map[] + Missing(map[], INITIAL_BACKUP_CONDITIONS) == INITIAL_BACKUP_CONDITIONS;
    assert Missing(INITIAL_BACKUP_CONDITIONS, INITIAL_BACKUP_CONDITIONS) == map[];
  }

  lemma SetupListed(s: World, key: Key) returns (t: World)
    requires IsReachable(s) && IsAt(s, key, B.SetupList)
    ensures IsReachable(t) && t.api == s.api && IsAt(t, key, if s.api.objects[key].finalizer then B.WindowAsk else B.SetupUpdate) && OnlyMoves(s, t, key)
  {
    var r;
    t, r := Called(s, key, B.SetupList, CALM);
    SetupListSteps(key, s.api.objects[key]);
    Answered(s.api, CALM);
  }

  lemma SetupListSteps(key: Key, copy: Object)
    ensures B.BackupRequest(B.SetupList, key, copy) == Ask
    ensures B.BackupStep(B.SetupList, key, copy, Answer(true)) == B.Go(if copy.finalizer then B.WindowAsk else B.SetupUpdate, copy)
  {
  }

  lemma Updated(a: Api, key: Key)
    requires key in a.objects && !a.objects[key].deleting
    ensures var o := a.objects[key];
            var (a', r) := Serve(a, UpdateMetadata(key, o.uid, o.version, true), CALM);
            OnlyObject(a, a', key) && r == FoundObject(a'.objects[key]) && r.obj == o.(finalizer := true, labeled := true, version := a.counter)
  {
  }

  lemma SetUp(s: World, key: Key) returns (t: World)
    requires IsReachable(s) && IsAt(s, key, B.SetupUpdate) && IsWaiting(s.api.objects[key])
    ensures IsReachable(t) && IsAt(t, key, B.WindowAsk) && OnlyMoves(s, t, key) && IsWaiting(t.api.objects[key]) && t.api.objects[key].finalizer
  {
    var r;
    t, r := Called(s, key, B.SetupUpdate, CALM);
    Updated(s.api, key);
    assert B.BackupStep(B.SetupUpdate, key, s.api.objects[key], r) == B.Go(B.WindowAsk, r.obj);
  }

  lemma WindowAsked(s: World, key: Key) returns (t: World)
    requires IsReachable(s) && IsAt(s, key, B.WindowAsk)
    ensures IsReachable(t) && t.api == s.api && IsAt(t, key, B.OpenPatch(TimeWindowNotExpired)) && OnlyMoves(s, t, key)
  {
    var r;
    t, r := Called(s, key, B.WindowAsk, CALM);
    WindowSteps(key, s.api.objects[key]);
    Answered(s.api, CALM);
  }

  lemma WindowSteps(key: Key, copy: Object)
    ensures B.BackupRequest(B.WindowAsk, key, copy) == Ask
    ensures B.BackupStep(B.WindowAsk, key, copy, Answer(true)) == B.Go(B.OpenPatch(TimeWindowNotExpired), copy)
    ensures !copy.started ==>
              B.BackupStep(B.WindowAsk, key, copy, Answer(false)) == B.Go(B.CancelPatch(TimeWindowExpiredBackupNotStarted), copy)
  {
  }

  lemma WindowOpen(s: World, key: Key) returns (t: World)
    requires IsReachable(s) && IsAt(s, key, B.OpenPatch(TimeWindowNotExpired)) && IsWaiting(s.api.objects[key]) && s.api.objects[key].finalizer
    ensures IsReachable(t) && IsAt(t, key, B.PrepareGet) && OnlyMoves(s, t, key) && IsWaiting(t.api.objects[key]) && t.api.objects[key].finalizer
  {
    var r;
    var pc, o := B.OpenPatch(TimeWindowNotExpired), s.api.objects[key];
    t, r := Called(s, key, pc, CALM);
    var conditions := o.conditions[Canceled := Condition(False, TimeWindowNotExpired)];
    assert B.BackupRequest(pc, key, o) == PatchStatus(key, conditions, false);
    Patched(s.api, key, conditions, false);
    assert B.BackupStep(pc, key, o, r) == B.Go(B.PrepareGet, r.obj);
    StillWaiting(o, conditions);
  }

  lemma StillWaiting(o: Object, conditions: Conditions)
    requires IsWaiting(o) && conditions == o.conditions[Canceled := Condition(False, TimeWindowNotExpired)]
    ensures IsWaiting(o.(conditions := conditions))
  {
    assert forall t :: t in o.conditions ==> t in conditions;
    assert Missing(conditions, INITIAL_BACKUP_CONDITIONS) == map[];
  }

  lemma Prepared(s: World, key: Key) returns (t: World)
    requires IsReachable(s) && IsAt(s, key, B.PrepareGet) && key.name in s.api.backups
    ensures IsReachable(t) && IsAt(t, key, B.Acquire(Observe)) && OnlyMoves(s, t, key) && t.api == s.api && SawOwn(At(t, Reconciler(key)).trail)
  {
    var r;
    t, r := Called(s, key, B.PrepareGet, CALM);
    PrepareSteps(key, s.api.objects[key], s.api.backups[key.name]);
    BackupRead(s.api, key.name);
    LongerLook(At(s, Reconciler(key)).trail, Exchange(GetProviderBackup(key.name), r));
  }

  lemma PrepareSteps(key: Key, copy: Object, own: ProviderBackup)
    ensures B.BackupRequest(B.PrepareGet, key, copy) == GetProviderBackup(key.name)
    ensures B.BackupStep(B.PrepareGet, key, copy, FoundProviderBackup(own)) == B.Go(B.Acquire(Observe), copy)
  {
  }

  lemma Observed(s: World, key: Key) returns (t: World)
    requires IsReachable(s) && IsAt(s, key, B.Acquire(Observe)) && s.api.lease.None?
    ensures IsReachable(t) && t.api == s.api && IsAt(t, key, B.Acquire(Create)) && OnlyMoves(s, t, key)
  {
    var r;
    t, r := Called(s, key, B.Acquire(Observe), CALM);
    LeaseRead(s.api);
    assert r == NotFound;
  }

  lemma Taken(s: World, key: Key) returns (t: World)
    requires IsReachable(s) && IsAt(s, key, B.Acquire(Create)) && s.api.lease.None?
    ensures IsReachable(t) && At(t, Reconciler(key)).Idle? && t.api.lease.Some?
    ensures t.api.lease.value.holder == HolderOf(key, s.api.objects[key]) && t.api == StoreLease(s.api, t.api.lease.value)
    ensures forall w :: w != Reconciler(key) ==> At(t, w) == At(s, w)
  {
    var r;
    t, r := Called(s, key, B.Acquire(Create), CALM);
    CreateSteps(key, s.api.objects[key]);
    LeaseCreated(s.api, HolderOf(key, s.api.objects[key]));
  }

  lemma CreateSteps(key: Key, copy: Object)
    ensures B.BackupRequest(B.Acquire(Create), key, copy) == CreateLease(HolderOf(key, copy))
    ensures B.BackupStep(B.Acquire(Create), key, copy, Done) == B.Stop
  {
  }

  lemma LeaseCreated(a: Api, h: Holder)
    requires a.lease.None?
    ensures Serve(a, CreateLease(h), CALM) == (StoreLease(a, Lease(a.counter, a.counter, h)), Done)
  {
  }

  /** A first pass over a new backup, nobody holding the lease: it sets the backup up and takes the lease. */
  lemma TakingPass(s: World, key: Key) returns (t: World)
    requires IsReachable(s) && key.kind == Backup && key in s.api.objects && At(s, Reconciler(key)).Idle?
    requires IsUntouched(s.api.objects[key]) && key.name in s.api.backups && s.api.lease.None?
    ensures IsReachable(t) && At(t, Reconciler(key)).Idle? && HasTaken(t, key)
    ensures t.api.past == s.api.past + {t.api.lease.value} && t.api.backups == s.api.backups && t.api.maintenance == s.api.maintenance
    ensures t.api.objects[key].uid == s.api.objects[key].uid
    ensures forall k :: k != key && k in s.api.objects ==> k in t.api.objects && t.api.objects[k] == s.api.objects[k]
    ensures forall w :: w != Reconciler(key) ==> At(t, w) == At(s, w)
  {
    t := Begun(s, key);
    assert Missing(map[], INITIAL_BACKUP_CONDITIONS)[Succeeded] == PENDING;
    t := Seeded(t, key);
    t := SetupListed(t, key);
    t := SetUp(t, key);
    t := WindowAsked(t, key);
    t := WindowOpen(t, key);
    t := Prepared(t, key);
    t := Observed(t, key);
    t := Taken(t, key);
  }

  /** The run is open and holds the lease. */
  ghost predicate HasTaken(s: World, key: Key) {
    key in s.api.objects && IsWaiting(s.api.objects[key]) && s.api.objects[key].finalizer && Names(s.api.lease, key, s.api.objects[key].uid)
  }

  // ---- from the lease to the creation

  lemma ObservedOwn(s: World, key: Key) returns (t: World)
    requires IsReachable(s) && IsAt(s, key, B.Acquire(Observe)) && Names(s.api.lease, key, s.api.objects[key].uid)
    ensures IsReachable(t) && t.api == s.api && IsAt(t, key, B.MaintenanceGet) && OnlyMoves(s, t, key)
    ensures SawOwn(At(s, Reconciler(key)).trail) ==> SawOwn(At(t, Reconciler(key)).trail)
  {
    var r;
    t, r := Called(s, key, B.Acquire(Observe), CALM);
    assert r == FoundLease(s.api.lease.value);
    LongerLook(At(s, Reconciler(key)).trail, Exchange(GetLease, r));
  }

  lemma MaintenanceAsked(s: World, key: Key) returns (t: World)
    requires IsReachable(s) && IsAt(s, key, B.MaintenanceGet)
    ensures IsReachable(t) && t.api == s.api && IsAt(t, key, if s.api.maintenance then B.OwnGet else B.MaintenanceOn) && OnlyMoves(s, t, key)
    ensures SawOwn(At(s, Reconciler(key)).trail) ==> SawOwn(At(t, Reconciler(key)).trail)
  {
    var r;
    t, r := Called(s, key, B.MaintenanceGet, CALM);
    MaintenanceSteps(key, s.api.objects[key]);
    Answered(s.api, CALM);
    LongerLook(At(s, Reconciler(key)).trail, Exchange(GetMaintenance, r));
  }

  lemma SwitchedOn(s: World, key: Key) returns (t: World)
    requires IsReachable(s) && IsAt(s, key, B.MaintenanceOn)
    ensures IsReachable(t) && t.api == s.api.(maintenance := true) && IsAt(t, key, B.MaintenancePatch)
    ensures forall w :: w != Reconciler(key) ==> At(t, w) == At(s, w)
  {
    var r;
    t, r := Called(s, key, B.MaintenanceOn, CALM);
    MaintenanceSteps(key, s.api.objects[key]);
    Answered(s.api, CALM);
  }

  lemma MaintenanceSteps(key: Key, copy: Object)
    ensures B.BackupRequest(B.MaintenanceGet, key, copy) == GetMaintenance
    ensures B.BackupRequest(B.MaintenanceOn, key, copy) == SwitchMaintenance(true)
    ensures B.BackupStep(B.MaintenanceGet, key, copy, Answer(true)) == B.Go(B.OwnGet, copy)
    ensures B.BackupStep(B.MaintenanceGet, key, copy, Answer(false)) == B.Go(B.MaintenanceOn, copy)
    ensures B.BackupStep(B.MaintenanceOn, key, copy, Done) == B.Go(B.MaintenancePatch, copy)
  {
  }

  lemma OwnMissing(s: World, key: Key) returns (t: World)
    requires IsReachable(s) && IsAt(s, key, B.OwnGet) && key.name !in s.api.backups
    ensures IsReachable(t) && t.api == s.api && IsAt(t, key, B.OwnCreate) && OnlyMoves(s, t, key)
    ensures SawOwn(At(s, Reconciler(key)).trail) ==> SawOwn(At(t, Reconciler(key)).trail)
  {
    var r;
    t, r := Called(s, key, B.OwnGet, CALM);
    OwnGetMisses(key, s.api.objects[key]);
    BackupRead(s.api, key.name);
    LongerLook(At(s, Reconciler(key)).trail, Exchange(GetProviderBackup(key.name), NotFound));
  }

  lemma OwnGetMisses(key: Key, copy: Object)
    ensures B.BackupRequest(B.OwnGet, key, copy) == GetProviderBackup(key.name)
    ensures B.BackupStep(B.OwnGet, key, copy, NotFound) == B.Go(B.OwnCreate, copy)
  {
  }

  /** The next pass of a run that has taken the lease comes to the maintenance stage. */
  lemma HoldingPass(s: World, key: Key) returns (t: World)
    requires IsReachable(s) && key.kind == Backup && HasTaken(s, key) && At(s, Reconciler(key)).Idle? && key.name in s.api.backups
    ensures IsReachable(t) && HasTaken(t, key) && IsAt(t, key, B.MaintenanceGet) && OnlyMoves(s, t, key) && SawOwn(At(t, Reconciler(key)).trail)
  {
    t := Begun(s, key);
    t := SetupListed(t, key);
    t := WindowAsked(t, key);
    t := WindowOpen(t, key);
    t := Prepared(t, key);
    t := ObservedOwn(t, key);
  }

  // ---- the closing stages

  lemma HoldsAnswered(s: World, key: Key, op: B.Operation, c: Choice, seen: Lease) returns (t: World)
    requires IsReachable(s) && IsAt(s, key, B.HoldsGet(op)) && seen.holder == HolderOf(key, s.api.objects[key])
    requires Serve(s.api, GetLease, c).1 == FoundLease(seen)
    ensures IsReachable(t) && t.api == s.api && IsAt(t, key, B.OffGet(op)) && OnlyMoves(s, t, key)
  {
    var r;
    t, r := Called(s, key, B.HoldsGet(op), c);
    HoldsSteps(key, s.api.objects[key], op, seen);
    ReadsKeep(s.api, c);
  }

  lemma ReadsKeep(a: Api, c: Choice)
    ensures Serve(a, GetLease, c).0 == a
  {
  }

  lemma HoldsSteps(key: Key, copy: Object, op: B.Operation, seen: Lease)
    requires seen.holder == HolderOf(key, copy)
    ensures B.BackupRequest(B.HoldsGet(op), key, copy) == GetLease
    ensures B.BackupStep(B.HoldsGet(op), key, copy, FoundLease(seen)) == B.Go(B.OffGet(op), copy)
  {
  }

  lemma OffAsked(s: World, key: Key, op: B.Operation) returns (t: World)
    requires IsReachable(s) && IsAt(s, key, B.OffGet(op)) && (s.api.objects[key].deleting || B.IsPostProcessing(s.api.objects[key].conditions))
    ensures IsReachable(t) && t.api == s.api && OnlyMoves(s, t, key)
    ensures IsAt(t, key, if s.api.maintenance then B.OffSwitch(op) else B.Release(op, ObserveOwn))
  {
    var r;
    t, r := Called(s, key, B.OffGet(op), CALM);
    OffSteps(key, s.api.objects[key], op);
    Answered(s.api, CALM);
  }

  lemma OffSteps(key: Key, copy: Object, op: B.Operation)
    requires copy.deleting || B.IsPostProcessing(copy.conditions)
    ensures B.BackupRequest(B.OffGet(op), key, copy) == GetMaintenance
    ensures B.BackupStep(B.OffGet(op), key, copy, Answer(true)) == B.Go(B.OffSwitch(op), copy)
    ensures B.BackupStep(B.OffGet(op), key, copy, Answer(false)) == B.Go(B.Release(op, ObserveOwn), copy)
  {
  }

  lemma ReleaseRead(s: World, key: Key, op: B.Operation, seen: Lease) returns (t: World)
    requires IsReachable(s) && IsAt(s, key, B.Release(op, ObserveOwn)) && s.api.lease == Some(seen) && seen.holder == HolderOf(key, s.api.objects[key])
    ensures IsReachable(t) && t.api == s.api && IsAt(t, key, B.Release(op, Delete(seen))) && OnlyMoves(s, t, key)
  {
    var r;
    t, r := Called(s, key, B.Release(op, ObserveOwn), CALM);
    ReleaseSteps(key, s.api.objects[key], op);
    LeaseRead(s.api);
  }

  lemma ReleaseSteps(key: Key, copy: Object, op: B.Operation)
    ensures B.BackupRequest(B.Release(op, ObserveOwn), key, copy) == GetLease
    ensures B.BackupStep(B.Release(op, ObserveOwn), key, copy, NotFound) == B.AfterRelease(op, copy)
    ensures forall seen: Lease :: seen.holder == HolderOf(key, copy) ==>
              B.BackupStep(B.Release(op, ObserveOwn), key, copy, FoundLease(seen)) == B.Go(B.Release(op, Delete(seen)), copy)
  {
  }

  lemma ReleaseDeleted(s: World, key: Key, seen: Lease) returns (t: World)
    requires IsReachable(s) && IsAt(s, key, B.Release(B.OperationDelete, Delete(seen))) && s.api.lease == Some(seen)
    ensures IsReachable(t) && t.api == s.api.(lease := None) && IsAt(t, key, B.DeleteGet)
    ensures forall w :: w != Reconciler(key) ==> At(t, w) == At(s, w)
  {
    var r;
    var pc := B.Release(B.OperationDelete, Delete(seen));
    t, r := Called(s, key, pc, CALM);
    DeletionSteps(key, s.api.objects[key], seen);
    LeaseDeleted(s.api, seen);
  }

  lemma DeletionSteps(key: Key, copy: Object, seen: Lease)
    ensures B.BackupRequest(B.Release(B.OperationDelete, Delete(seen)), key, copy) == DeleteLease(seen)
    ensures B.BackupStep(B.Release(B.OperationDelete, Delete(seen)), key, copy, Done) == B.Go(B.DeleteGet, copy)
  {
  }

  lemma LeaseDeleted(a: Api, seen: Lease)
    requires a.lease == Some(seen)
    ensures Serve(a, DeleteLease(seen), CALM) == (a.(lease := None), Done)
  {
  }

  lemma ReleaseMissed(s: World, key: Key, op: B.Operation) returns (t: World)
    requires IsReachable(s) && IsAt(s, key, B.Release(op, ObserveOwn)) && B.AfterRelease(op, s.api.objects[key]).Go?
    ensures IsReachable(t) && t.api == s.api && IsAt(t, key, B.AfterRelease(op, s.api.objects[key]).pc) && OnlyMoves(s, t, key)
  {
    var r;
    t, r := Called(s, key, B.Release(op, ObserveOwn), Outdated(None));
    ReleaseSteps(key, s.api.objects[key], op);
    LeaseRead(s.api);
  }

  lemma UserDeleted(s: World, key: Key) returns (t: World)
    requires IsReachable(s) && key in s.api.objects && s.api.objects[key].finalizer
    ensures IsReachable(t) && t.locals == s.locals && OnlyObject(s.api, t.api, key) && OnlyMoves(s, t, key)
    ensures t.api.objects[key] == s.api.objects[key].(deleting := true, version := s.api.counter)
  {
    t := Marked(s, key);
    OnlyMarked(s.api, key);
  }

  lemma Marked(s: World, key: Key) returns (t: World)
    requires IsReachable(s) && key in s.api.objects && s.api.objects[key].finalizer
    ensures IsReachable(t) && t.locals == s.locals && t.api == Store(s.api, key, s.api.objects[key].(deleting := true))
  {
    t := Happened(s, UserDeletes(key));
    MarkedDeleted(s, key);
  }

  lemma OnlyMarked(a: Api, key: Key)
    requires key in a.objects
    ensures OnlyObject(a, Store(a, key, a.objects[key].(deleting := true)), key)
  {
  }

  lemma MarkedDeleted(s: World, key: Key)
    requires key in s.api.objects && s.api.objects[key].finalizer
    ensures Happen(s, UserDeletes(key)) == Store(s.api, key, s.api.objects[key].(deleting := true))
  {
  }

  /** The pass over a backup that is being deleted begins with the read of Holds. */
  lemma DeletionBegun(s: World, key: Key) returns (t: World)
    requires IsReachable(s) && key.kind == Backup && key in s.api.objects && s.api.objects[key].deleting && At(s, Reconciler(key)).Idle?
    ensures IsReachable(t) && t.api == s.api && IsAt(t, key, B.HoldsGet(B.OperationDelete)) && OnlyMoves(s, t, key)
  {
    t := Begun(s, key);
  }

  // ---- the world it starts in

  const FIRST := Key(Backup, 1)
  const SECOND := Key(Backup, 2)

  function NewBackup(uid: nat): Object { Object(uid, 0, false, false, false, false, 0, false, map[], NoLegacy) }

  const ENDED := ProviderBackup(BackupCompleted, true, false)

  /** Two new backups, Velero's backups of these names, no lease, maintenance mode off. */
  const START := World(Api(map[FIRST := NewBackup(1), SECOND := NewBackup(2)], None, {}, map[1 := ENDED, 2 := ENDED], [], map[], map[], {}, false, 3), map[])

  /** A world like this at the start. */
  ghost predicate IsFresh(s: World) {
    IsReachable(s) && s.api.lease.None? && !s.api.maintenance && 1 in s.api.backups && 2 in s.api.backups
    && FIRST in s.api.objects && s.api.objects[FIRST] == NewBackup(1) && SECOND in s.api.objects && s.api.objects[SECOND] == NewBackup(2)
    && At(s, Reconciler(FIRST)).Idle? && At(s, Reconciler(SECOND)).Idle?
  }

  lemma StartIsFresh()
    ensures IsFresh(START)
  {
    assert IsRun([START], []);
    assert [START][|[START]| - 1] == START;
  }

  // ---- an outdated read in Holds

  /** The first backup took the lease and gave it up when it was deleted. The second one took it then and switched maintenance
      mode on. An outdated read of the lease makes the first one switch it off again. */
  lemma OutdatedHoldsSwitchesOff()
    ensures exists s: World ::
              IsReachable(s) && Asked(s, Reconciler(FIRST)) == SwitchMaintenance(false) && s.api.maintenance
              && HasTaken(s, SECOND) && !HoldsLease(s.api, Reconciler(FIRST))
  {
    StartIsFresh();
    var s, seen := FirstGivesUp(START);
    s := SecondSwitchesOn(s, seen);
    s := FirstSwitchesOff(s, seen);
  }

  lemma FirstGivesUp(s: World) returns (t: World, seen: Lease)
    requires IsFresh(s)
    ensures IsReachable(t) && IsGivenUp(t, seen) && t.api.lease.None? && !t.api.maintenance && At(t, Reconciler(SECOND)).Idle?
    ensures SECOND in t.api.objects && IsUntouched(t.api.objects[SECOND]) && 2 in t.api.backups
  {
    t := TakingPass(s, FIRST);
    seen := t.api.lease.value;
    t := GivingUpPass(t, FIRST, seen);
  }

  /** The first backup is being deleted and gave up this version of the lease. */
  ghost predicate IsGivenUp(s: World, seen: Lease) {
    At(s, Reconciler(FIRST)).Idle? && FIRST in s.api.objects && s.api.objects[FIRST].deleting
    && seen in s.api.past && seen.holder == HolderOf(FIRST, s.api.objects[FIRST])
  }

  lemma SecondSwitchesOn(s: World, seen: Lease) returns (t: World)
    requires IsReachable(s) && IsGivenUp(s, seen) && s.api.lease.None? && !s.api.maintenance && At(s, Reconciler(SECOND)).Idle?
    requires SECOND in s.api.objects && IsUntouched(s.api.objects[SECOND]) && 2 in s.api.backups
    ensures IsReachable(t) && IsGivenUp(t, seen) && HasTaken(t, SECOND) && t.api.maintenance
  {
    t := TakingPass(s, SECOND);
    t := HoldingPass(t, SECOND);
    t := MaintenanceAsked(t, SECOND);
    t := SwitchedOn(t, SECOND);
  }

  lemma FirstSwitchesOff(s: World, seen: Lease) returns (t: World)
    requires IsReachable(s) && IsGivenUp(s, seen) && s.api.maintenance
    ensures IsReachable(t) && t.api == s.api && Asked(t, Reconciler(FIRST)) == SwitchMaintenance(false)
  {
    t := DeletionBegun(s, FIRST);
    t := HoldsAnswered(t, FIRST, B.OperationDelete, Outdated(Some(seen)), seen);
    t := OffAsked(t, FIRST, B.OperationDelete);
    AsksToSwitchOff(t, FIRST);
  }

  lemma AsksToSwitchOff(s: World, key: Key)
    requires IsAt(s, key, B.OffSwitch(B.OperationDelete))
    ensures Asked(s, Reconciler(key)) == SwitchMaintenance(false)
  {
  }

  /** A user deletes the backup; its pass gives up the lease, and the process ends then. */
  lemma GivingUpPass(s: World, key: Key, seen: Lease) returns (t: World)
    requires IsReachable(s) && key.kind == Backup && HasTaken(s, key) && At(s, Reconciler(key)).Idle? && !s.api.maintenance && s.api.lease == Some(seen)
    ensures IsReachable(t) && At(t, Reconciler(key)).Idle? && t.api.lease.None? && t.api.past == s.api.past
    ensures t.api.backups == s.api.backups && !t.api.maintenance
    ensures key in t.api.objects && t.api.objects[key].uid == s.api.objects[key].uid && t.api.objects[key].deleting
    ensures forall k :: k != key && k in s.api.objects ==> k in t.api.objects && t.api.objects[k] == s.api.objects[k]
    ensures forall w :: w != Reconciler(key) ==> At(t, w) == At(s, w)
  {
    t := UserDeleted(s, key);
    t := DeletionBegun(t, key);
    t := HoldsAnswered(t, key, B.OperationDelete, CALM, seen);
    t := OffAsked(t, key, B.OperationDelete);
    t := ReleaseRead(t, key, B.OperationDelete, seen);
    t := ReleaseDeleted(t, key, seen);
    t := Crashed(t, key);
  }

  lemma Crashed(s: World, key: Key) returns (t: World)
    requires IsReachable(s)
    ensures IsReachable(t) && t.api == s.api && At(t, Reconciler(key)).Idle? && forall w :: w != Reconciler(key) ==> At(t, w) == At(s, w)
  {
    t := Step(s, Crash(Reconciler(key)));
    Reaches(s, Crash(Reconciler(key)));
  }

  // ---- an outdated read at the start of Release

  lemma FinalizerDropped(s: World, key: Key) returns (t: World)
    requires IsReachable(s) && IsAt(s, key, B.DeleteGet) && key.name !in s.api.backups && s.api.objects[key].deleting
    ensures IsReachable(t) && t.api.lease == s.api.lease && key !in t.api.objects
  {
    var u := ProviderGone(s, key);
    var r;
    t, r := Called(u, key, B.FinalizerDrop, CALM);
    DropRequest(key, u.api.objects[key]);
    ObjectRemoved(u.api, key);
  }

  lemma ProviderGone(s: World, key: Key) returns (t: World)
    requires IsReachable(s) && IsAt(s, key, B.DeleteGet) && key.name !in s.api.backups
    ensures IsReachable(t) && t.api == s.api && IsAt(t, key, B.FinalizerDrop)
  {
    var r;
    t, r := Called(s, key, B.DeleteGet, CALM);
    DeletesNothing(key, s.api.objects[key]);
    BackupRead(s.api, key.name);
  }

  lemma DeletesNothing(key: Key, copy: Object)
    ensures B.BackupRequest(B.DeleteGet, key, copy) == GetProviderBackup(key.name)
    ensures B.BackupStep(B.DeleteGet, key, copy, NotFound) == B.Go(B.FinalizerDrop, copy)
  {
  }

  lemma DropRequest(key: Key, o: Object)
    ensures B.BackupRequest(B.FinalizerDrop, key, o) == UpdateMetadata(key, o.uid, o.version, false)
  {
  }

  lemma ObjectRemoved(a: Api, key: Key)
    requires key in a.objects && a.objects[key].deleting
    ensures var a' := Serve(a, UpdateMetadata(key, a.objects[key].uid, a.objects[key].version, false), CALM).0;
            a'.lease == a.lease && key !in a'.objects
  {
  }

  /** A backup that is deleted right after it took the lease, with a cache that does not show the lease yet, goes and leaves
      its lease behind. */
  lemma OutdatedReleaseLeavesLease()
    ensures exists s: World ::
              IsReachable(s) && s.api.lease.Some? && s.api.lease.value.holder == Holder(1, 1, Backup) && FIRST !in s.api.objects
  {
    StartIsFresh();
    var s := TakingPass(START, FIRST);
    s := MissingDeletion(s, FIRST);
  }

  /** The backup is deleted by a user and by its pass, which does not see its own lease. */
  lemma MissingDeletion(s: World, key: Key) returns (t: World)
    requires IsReachable(s) && key.kind == Backup && HasTaken(s, key) && At(s, Reconciler(key)).Idle? && !s.api.maintenance
    ensures IsReachable(t) && t.api.lease == s.api.lease && key !in t.api.objects
  {
    t := UserDeleted(s, key);
    t := DeletionBegun(t, key);
    t := MissingRelease(t, key);
    t := VeleroRemoved(t, key);
    t := FinalizerDropped(t, key);
  }

  lemma MissingRelease(s: World, key: Key) returns (t: World)
    requires IsReachable(s) && IsAt(s, key, B.HoldsGet(B.OperationDelete)) && s.api.objects[key].deleting
    requires Names(s.api.lease, key, s.api.objects[key].uid) && !s.api.maintenance
    ensures IsReachable(t) && t.api == s.api && IsAt(t, key, B.DeleteGet)
  {
    t := HoldsAnswered(s, key, B.OperationDelete, CALM, s.api.lease.value);
    t := OffAsked(t, key, B.OperationDelete);
    t := ReleaseMissed(t, key, B.OperationDelete);
  }

  lemma VeleroRemoved(s: World, key: Key) returns (t: World)
    requires IsReachable(s)
    ensures IsReachable(t) && t.locals == s.locals && t.api == s.api.(backups := s.api.backups - {key.name})
  {
    t := Happened(s, VeleroBackupGone(key.name));
  }

  lemma WindowClosed(s: World, key: Key) returns (t: World)
    requires IsReachable(s) && IsAt(s, key, B.WindowAsk) && !s.api.objects[key].started
    ensures IsReachable(t) && t.api == s.api && IsAt(t, key, B.CancelPatch(TimeWindowExpiredBackupNotStarted)) && OnlyMoves(s, t, key)
  {
    var r;
    t, r := Called(s, key, B.WindowAsk, CALM.(answer := false));
    WindowSteps(key, s.api.objects[key]);
    Answered(s.api, CALM.(answer := false));
  }

  lemma CanceledNow(s: World, key: Key) returns (t: World)
    requires IsReachable(s) && IsAt(s, key, B.CancelPatch(TimeWindowExpiredBackupNotStarted)) && IsWaiting(s.api.objects[key])
    ensures IsReachable(t) && At(t, Reconciler(key)).Idle? && OnlyMoves(s, t, key)
    ensures var o := t.api.objects[key]; IsTrue(o.conditions, Canceled) && !Decided(o.conditions, Succeeded) && !Decided(o.conditions, ProviderSucceeded) && !o.deleting
  {
    var r;
    var pc, o := B.CancelPatch(TimeWindowExpiredBackupNotStarted), s.api.objects[key];
    t, r := Called(s, key, pc, CALM);
    var conditions := o.conditions[Canceled := Condition(True, TimeWindowExpiredBackupNotStarted)];
    assert B.BackupRequest(pc, key, o) == PatchStatus(key, conditions, false);
    Patched(s.api, key, conditions, false);
    assert B.BackupStep(pc, key, o, r) == B.Stop;
  }

  lemma EndedNow(s: World, key: Key) returns (t: World)
    requires IsReachable(s) && IsAt(s, key, B.DonePatch) && !Decided(s.api.objects[key].conditions, ProviderSucceeded)
    ensures IsReachable(t) && OnlyMoves(s, t, key) && Decided(t.api.objects[key].conditions, Succeeded)
  {
    var r;
    var o := s.api.objects[key];
    t, r := Called(s, key, B.DonePatch, CALM);
    var conditions := o.conditions[Succeeded := Condition(False, BackupCanceled)];
    assert B.BackupRequest(B.DonePatch, key, o) == PatchStatus(key, conditions, false);
    Patched(s.api, key, conditions, false);
  }

  /** A run that is canceled right after it took the lease ends, with such a cache, while the lease names it. */
  lemma OutdatedReleaseEndsWithLease()
    ensures exists s: World ::
              IsReachable(s) && FIRST in s.api.objects && Names(s.api.lease, FIRST, s.api.objects[FIRST].uid)
              && Decided(s.api.objects[FIRST].conditions, Succeeded)
  {
    StartIsFresh();
    var s := TakingPass(START, FIRST);
    s := CancelingPass(s, FIRST);
    s := MissingEnd(s, FIRST);
  }

  /** The canceled run is finalized by a pass that does not see its own lease. */
  lemma MissingEnd(s: World, key: Key) returns (t: World)
    requires IsReachable(s) && key.kind == Backup && key in s.api.objects && At(s, Reconciler(key)).Idle? && !s.api.maintenance
    requires Names(s.api.lease, key, s.api.objects[key].uid)
    requires var o := s.api.objects[key]; IsTrue(o.conditions, Canceled) && !Decided(o.conditions, Succeeded) && !Decided(o.conditions, ProviderSucceeded) && !o.deleting
    ensures IsReachable(t) && OnlyMoves(s, t, key) && Decided(t.api.objects[key].conditions, Succeeded)
  {
    t := Begun(s, key);
    t := HoldsAnswered(t, key, B.OperationFinalize, CALM, s.api.lease.value);
    t := OffAsked(t, key, B.OperationFinalize);
    t := ReleaseMissed(t, key, B.OperationFinalize);
    t := EndedNow(t, key);
  }

  lemma CancelingPass(s: World, key: Key) returns (t: World)
    requires IsReachable(s) && key.kind == Backup && HasTaken(s, key) && At(s, Reconciler(key)).Idle?
    ensures IsReachable(t) && At(t, Reconciler(key)).Idle? && OnlyMoves(s, t, key)
    ensures var o := t.api.objects[key]; IsTrue(o.conditions, Canceled) && !Decided(o.conditions, Succeeded) && !Decided(o.conditions, ProviderSucceeded) && !o.deleting
  {
    t := Begun(s, key);
    t := SetupListed(t, key);
    t := WindowClosed(t, key);
    t := CanceledNow(t, key);
  }

  // ---- a creation without a look

  lemma AnotherRuns(s: World) returns (t: World)
    requires IsReachable(s) && 1 in s.api.backups
    ensures IsReachable(t) && t.locals == s.locals && t.api.objects == s.api.objects && t.api.lease == s.api.lease && t.api.maintenance
    ensures 1 in t.api.backups && 2 in t.api.backups && IsRunning(t.api.backups[2].phase)
  {
    t := SecondRuns(s);
    t := SwitchedOutside(t);
  }

  lemma SecondRuns(s: World) returns (t: World)
    requires IsReachable(s)
    ensures IsReachable(t) && t.locals == s.locals
    ensures t.api == s.api.(backups := s.api.backups[2 := ProviderBackup(BackupInProgress, true, false)])
  {
    t := Happened(s, VeleroBackupIs(2, ProviderBackup(BackupInProgress, true, false)));
  }

  lemma SwitchedOutside(s: World) returns (t: World)
    requires IsReachable(s)
    ensures IsReachable(t) && t.locals == s.locals && t.api == s.api.(maintenance := true)
  {
    t := Happened(s, MaintenanceIs(true));
  }

  lemma CreatingPass(s: World, key: Key) returns (t: World)
    requires IsReachable(s) && IsAt(s, key, B.MaintenanceGet) && s.api.maintenance && SawOwn(At(s, Reconciler(key)).trail)
    ensures IsReachable(t) && t.api.backups == s.api.backups - {key.name} && t.api.objects == s.api.objects
    ensures IsAt(t, key, B.OwnCreate) && SawOwn(At(t, Reconciler(key)).trail)
  {
    t := MaintenanceAsked(s, key);
    t := VeleroRemoved(t, key);
    t := OwnMissing(t, key);
  }

  /** The first backup sees its provider backup when it is prepared, so that it does not look for others. The provider backup
      is gone when the pass comes to it, and is created anew although another one is running. */
  lemma CreationWithoutLook()
    ensures exists s: World ::
              IsReachable(s) && Asked(s, Reconciler(FIRST)) == CreateProviderBackup(1)
              && 2 in s.api.backups && IsRunning(s.api.backups[2].phase)
              && !Looked(At(s, Reconciler(FIRST)).trail) && !At(s, Reconciler(FIRST)).copy.started
  {
    StartIsFresh();
    var s := CreatingPasses(START);
    DidNotLook(s, FIRST);
  }

  lemma CreatingPasses(s: World) returns (t: World)
    requires IsFresh(s)
    ensures IsReachable(t) && IsAt(t, FIRST, B.OwnCreate) && SawOwn(At(t, Reconciler(FIRST)).trail)
    ensures 2 in t.api.backups && IsRunning(t.api.backups[2].phase) && !t.api.objects[FIRST].started
  {
    t := TakingPass(s, FIRST);
    t := AnotherRuns(t);
    t := SecondPass(t);
  }

  lemma SecondPass(s: World) returns (t: World)
    requires IsReachable(s) && HasTaken(s, FIRST) && At(s, Reconciler(FIRST)).Idle? && s.api.maintenance
    requires 1 in s.api.backups && 2 in s.api.backups && IsRunning(s.api.backups[2].phase)
    ensures IsReachable(t) && IsAt(t, FIRST, B.OwnCreate) && SawOwn(At(t, Reconciler(FIRST)).trail)
    ensures 2 in t.api.backups && IsRunning(t.api.backups[2].phase) && !t.api.objects[FIRST].started
  {
    t := HoldingPass(s, FIRST);
    t := CreatingPass(t, FIRST);
  }

  lemma DidNotLook(s: World, key: Key)
    requires IsReachable(s) && IsAt(s, key, B.OwnCreate) && SawOwn(At(s, Reconciler(key)).trail)
    ensures Asked(s, Reconciler(key)) == CreateProviderBackup(key.name) && !Looked(At(s, Reconciler(key)).trail)
  {
    var run: seq<World>, actions: seq<Action> :| IsRun(run, actions) && run[|run| - 1] == s;
    AsksToCreate(s, key);
    CreationFollowsCheck(run, actions, |run| - 1, Reconciler(key));
  }

  lemma AsksToCreate(s: World, key: Key)
    requires IsAt(s, key, B.OwnCreate)
    ensures Asked(s, Reconciler(key)) == CreateProviderBackup(key.name)
  {
  }
}
