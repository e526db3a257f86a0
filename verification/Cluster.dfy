/** The state the operator's workers share: Backup and Restore resources, the one lease, Velero's
    backups, restores and delete requests, and the maintenance flag. One Request is one call to the
    API server. A call can be refused, or can take effect and still report an error. */
module Cluster {
  import opened Conditions

  /** Resource names; 0 stands for the empty string. */
  type Name = nat

  datatype Kind = Backup | Restore | OtherKind | NoKind

  datatype Key = Key(kind: Kind, name: Name)

  datatype Object = Object(
    uid: nat, version: nat, deleting: bool, finalizer: bool, labeled: bool,
    synced: bool,        // spec.syncedFromProvider of a backup
    source: Name,        // spec.backupName of a restore
    started: bool,       // status.startTimestamp is set
    conditions: Conditions, legacy: Legacy)

  /** Who holds a lease. A missing field of the lease is 0 or NoKind. */
  datatype Holder = Holder(uid: nat, name: Name, kind: Kind)

  datatype Lease = Lease(uid: nat, version: nat, holder: Holder)

  datatype BackupPhase =
    | NoPhase | New | FailedValidation | BackupInProgress
    | WaitingForPluginOperations | WaitingForPluginOperationsPartiallyFailed
    | Finalizing | FinalizingPartiallyFailed
    | BackupCompleted | PartiallyFailed | BackupFailed | UnlistedPhase

  datatype ProviderBackup = ProviderBackup(phase: BackupPhase, stamped: bool, deleting: bool)

  datatype RestoreState = RestorePending | RestoreRunning | RestoreSucceeded | RestoreFailed | RestoreStateUnknown

  /** Velero's restore of one of our restores; owner 0 means that it carries no owner reference. */
  datatype ProviderRestore = ProviderRestore(uid: nat, owner: nat, source: Name, deleting: bool, state: RestoreState)

  datatype Work = ScaleDown | Cleanup | ScaleUp | FinalizeScaleUp

  /** A backup the garbage collection decided to remove; `judged` tells whether it carried conditions. */
  datatype Victim = Victim(name: Name, uid: nat, judged: bool)

  datatype Request =
    | GetObject(key: Key)
    | WriteStatus(key: Key, changes: Conditions)                      // merged into the stored conditions
    | PatchStatus(key: Key, conditions: Conditions, start: bool)      // replaces the stored conditions
    | UpdateMetadata(key: Key, uid: nat, version: nat, finalizer: bool)
    | DeleteObject(key: Key)
    | CreateSynced(name: Name)
    | ListCompleted
    | GetLease                                                        // served from a cache, so it may be outdated
    | CreateLease(holder: Holder)
    | UpdateLease(seen: Lease, holder: Holder)
    | DeleteLease(seen: Lease)
    | GetMaintenance
    | SwitchMaintenance(on: bool)
    | GetProviderBackup(name: Name)
    | ListProviderBackups(name: Name)                                 // is any other one running?
    | CreateProviderBackup(name: Name)
    | GetDeleteRequest(name: Name)
    | CreateDeleteRequest(name: Name)
    | DropDeleteRequest(name: Name)
    | GetProviderRestore(name: Name)
    | CreateProviderRestore(name: Name, owner: nat, source: Name)
    | DeleteProviderRestore(name: Name, uid: nat)
    | Ask                                                             // a question about unmodelled state
    | DoWork(work: Work)

  datatype Response =
    | Error | NotFound | Rejected | Done | More
    | Answer(yes: bool)
    | FoundObject(obj: Object)
    | FoundLease(lease: Lease)
    | FoundProviderBackup(backup: ProviderBackup)
    | FoundProviderRestore(restore: ProviderRestore)
    | FoundVictims(victims: seq<Victim>)

  /** The shared state. `past`, `created` and `parents` only remember: every lease version ever stored,
      the provider backups this operator created in order, and the restores that were given a child. */
  datatype Api = Api(
    objects: map<Key, Object>,
    lease: Option<Lease>, past: set<Lease>,
    backups: map<Name, ProviderBackup>, created: seq<Name>,
    requests: map<Name, bool>,           // has the provider processed it?
    restores: map<Name, ProviderRestore>, parents: set<nat>,
    maintenance: bool,
    counter: nat)

  datatype Fault = Fine | Refused | Lost

  /** What the world decides about one call. */
  datatype Choice = Choice(
    fault: Fault,
    answer: bool,                        // answers Ask and says whether a piece of work is finished
    view: Option<Option<Lease>>,         // what the cache shows of the lease, if it is not up to date
    picked: seq<Name>)                   // what the retention strategy selects

  predicate IsRunning(phase: BackupPhase) {
    phase in {New, BackupInProgress, Finalizing, FinalizingPartiallyFailed,
              WaitingForPluginOperations, WaitingForPluginOperationsPartiallyFailed}
  }

  predicate HasFailed(phase: BackupPhase) { phase in {FailedValidation, PartiallyFailed, BackupFailed} }

  /** The status of a provider backup that Velero never touched is the zero value. */
  predicate IsBlank(backup: ProviderBackup) { backup.phase == NoPhase && !backup.stamped }

  // ---- what a status write leaves behind

  function WithMerged(o: Object, changes: Conditions): Object {
    var merged := o.conditions + changes;
    o.(conditions := merged, legacy := LegacyRestoreStatusFor(o.deleting, merged, o.legacy))
  }

  function WithPatched(o: Object, conditions: Conditions, start: bool): Object {
    o.(conditions := conditions, started := o.started || start,
       legacy := LegacyBackupStatusFor(conditions, o.legacy))
  }

  function Store(a: Api, key: Key, o: Object): Api {
    a.(objects := a.objects[key := o.(version := a.counter)], counter := a.counter + 1)
  }

  function StoreLease(a: Api, l: Lease): Api {
    a.(lease := Some(l), past := a.past + {l}, counter := a.counter + 1)
  }

  function Victims(a: Api, picked: seq<Name>): (victims: seq<Victim>)
    ensures forall v :: v in victims ==>
              var key := Key(Backup, v.name);
              key in a.objects && a.objects[key].uid == v.uid && a.objects[key].legacy == Completed
              && (v.judged <==> a.objects[key].conditions != map[])
  {
    if picked == [] then []
    else
      var rest := Victims(a, picked[1..]);
      var key := Key(Backup, picked[0]);
      if key in a.objects && a.objects[key].legacy == Completed then
        [Victim(picked[0], a.objects[key].uid, a.objects[key].conditions != map[])] + rest
      else rest
  }

  function ObjectCall(a: Api, r: Request, c: Choice): (Api, Response) {
    match r
    case GetObject(key) =>
      if key in a.objects then (a, FoundObject(a.objects[key])) else (a, NotFound)
    case WriteStatus(key, changes) =>
      if key !in a.objects then (a, Error)
      else
        var o := a.objects[key];
        var o' := WithMerged(o, changes);
        if o' == o then (a, FoundObject(o))
        else
          var a' := Store(a, key, o');
          (a', FoundObject(a'.objects[key]))
    case PatchStatus(key, conditions, start) =>
      if key !in a.objects then (a, Error)
      else
        var a' := Store(a, key, WithPatched(a.objects[key], conditions, start));
        (a', FoundObject(a'.objects[key]))
    case UpdateMetadata(key, uid, version, finalizer) =>
      if key !in a.objects then (a, Error)
      else
        var o := a.objects[key];
        if o.uid != uid || o.version != version || (finalizer && !o.finalizer && o.deleting) then (a, Rejected)
        else if o.deleting && !finalizer then (a.(objects := a.objects - {key}), Done)
        else
          var a' := Store(a, key, o.(finalizer := finalizer, labeled := true));
          (a', FoundObject(a'.objects[key]))
    case DeleteObject(key) =>
      if key !in a.objects then (a, NotFound)
      else if a.objects[key].finalizer then (Store(a, key, a.objects[key].(deleting := true)), Done)
      else (a.(objects := a.objects - {key}), Done)
    case CreateSynced(name) =>
      if name == 0 || Key(Backup, name) in a.objects then (a, Rejected)
      else
        (Store(a, Key(Backup, name),
               Object(a.counter, 0, false, true, true, true, 0, false, map[], NoLegacy)), Done)
    case ListCompleted => (a, FoundVictims(Victims(a, c.picked)))
    case _ => (a, Error)
  }

  function LeaseCall(a: Api, r: Request, c: Choice): (Api, Response) {
    match r
    case GetLease =>
      var view := if c.view.Some? && (c.view.value.Some? ==> c.view.value.value in a.past) then c.view.value else a.lease;
      (a, if view.Some? then FoundLease(view.value) else NotFound)
    case CreateLease(holder) =>
      if a.lease.Some? then (a, Rejected) else (StoreLease(a, Lease(a.counter, a.counter, holder)), Done)
    case UpdateLease(seen, holder) =>
      if a.lease.None? then (a, Error)
      else if a.lease.value.version != seen.version then (a, Rejected)
      else (StoreLease(a, Lease(a.lease.value.uid, a.counter, holder)), Done)
    case DeleteLease(seen) =>
      if a.lease.None? then (a, NotFound)
      else if a.lease.value.uid != seen.uid || a.lease.value.version != seen.version then (a, Rejected)
      else (a.(lease := None), Done)
    case _ => (a, Error)
  }

  function ProviderCall(a: Api, r: Request, c: Choice): (Api, Response) {
    match r
    case GetMaintenance => (a, Answer(a.maintenance))
    case SwitchMaintenance(on) => (a.(maintenance := on), Done)
    case GetProviderBackup(n) =>
      if n in a.backups then (a, FoundProviderBackup(a.backups[n])) else (a, NotFound)
    case ListProviderBackups(n) =>
      (a, Answer(exists other <- a.backups.Keys :: other != n && IsRunning(a.backups[other].phase)))
    case CreateProviderBackup(n) =>
      if n in a.backups then (a, Rejected)
      else (a.(backups := a.backups[n := ProviderBackup(NoPhase, false, false)], created := a.created + [n]), Done)
    case GetDeleteRequest(n) =>
      if n in a.requests then (a, Answer(a.requests[n])) else (a, NotFound)
    case CreateDeleteRequest(n) =>
      if n in a.requests then (a, Rejected) else (a.(requests := a.requests[n := false]), Done)
    case DropDeleteRequest(n) =>
      if n in a.requests then (a.(requests := a.requests - {n}), Done) else (a, NotFound)
    case GetProviderRestore(n) =>
      if n in a.restores then (a, FoundProviderRestore(a.restores[n])) else (a, NotFound)
    case CreateProviderRestore(n, owner, source) =>
      if n in a.restores then (a, Rejected)
      else
        (a.(restores := a.restores[n := ProviderRestore(a.counter, owner, source, false, RestorePending)],
            parents := a.parents + {owner}, counter := a.counter + 1), Done)
    case DeleteProviderRestore(n, uid) =>
      if n !in a.restores then (a, NotFound)
      else if a.restores[n].uid != uid then (a, Rejected)
      else (a.(restores := a.restores[n := a.restores[n].(deleting := true)]), Done)
    case Ask => (a, Answer(c.answer))
    case DoWork(_) => (a, if c.answer then Done else More)
    case _ => (a, Error)
  }

  predicate OnObjects(r: Request) {
    r.GetObject? || r.WriteStatus? || r.PatchStatus? || r.UpdateMetadata? || r.DeleteObject? || r.CreateSynced? || r.ListCompleted?
  }

  predicate OnLease(r: Request) { r.GetLease? || r.CreateLease? || r.UpdateLease? || r.DeleteLease? }

  /** The effect of a call that reaches the server. */
  function Effect(a: Api, r: Request, c: Choice): (Api, Response) {
    if OnObjects(r) then ObjectCall(a, r, c) else if OnLease(r) then LeaseCall(a, r, c) else ProviderCall(a, r, c)
  }

  /** One call, which may be refused or may lose its answer. */
  function Serve(a: Api, r: Request, c: Choice): (Api, Response) {
    match c.fault
    case Fine => Effect(a, r, c)
    case Refused => (a, Error)
    case Lost => (Effect(a, r, c).0, Error)
  }
}
