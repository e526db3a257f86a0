/** What one undisturbed pass over a backup that is being deleted brings about, and how a delete request that Velero
    processed in vain is renewed until the provider backup is gone. */
module DeletionPasses {
  import opened Conditions
  import opened Cluster
  import opened Leases
  import opened System
  import opened Invariant
  import opened Rely
  import opened Preservation
  import opened Termination
  import B = BackupWorkflow
  import BP = BackupProof

  ghost predicate Deletes(a: Api, key: Key) {
    key.kind == Backup && key in a.objects && a.objects[key].deleting
  }

  /** The delete requests after a pass that finds Velero's backups and requests like this. */
  function WantedRequests(a: Api, name: Name): map<Name, bool> {
    if name !in a.backups then a.requests
    else if IsRunning(a.backups[name].phase) then a.requests - {name}
    else if name !in a.requests then a.requests[name := false]
    else if a.requests[name] then a.requests - {name}
    else a.requests
  }

  /** What the pass has not touched yet. */
  ghost predicate Untouched(was: Api, a: Api, key: Key, copy: Object) {
    Deletes(a, key) && copy == a.objects[key] && a.backups == was.backups && a.requests == was.requests
  }

  predicate IsHere(a: Api, name: Name, running: bool) { name in a.backups && IsRunning(a.backups[name].phase) == running }

  ghost predicate OnDeletion(was: Api, a: Api, key: Key, pc: B.BackupPc, copy: Object) {
    match pc
    case HoldsGet(op) => op == B.OperationDelete && Untouched(was, a, key, copy)
    case OffGet(op) => op == B.OperationDelete && Untouched(was, a, key, copy)
    case OffSwitch(op) => op == B.OperationDelete && Untouched(was, a, key, copy)
    case Release(op, release) =>
      op == B.OperationDelete && Untouched(was, a, key, copy) && (release.Delete? ==> a.lease == Some(release.seen))
    case DeleteGet => Untouched(was, a, key, copy)
    case FinalizerDrop => Untouched(was, a, key, copy) && key.name !in a.backups
    case RequestGet(scope) => scope == B.BackupAndProviderBackup && Untouched(was, a, key, copy) && IsHere(a, key.name, false)
    case RequestCreate(scope) =>
      scope == B.BackupAndProviderBackup && Untouched(was, a, key, copy) && IsHere(a, key.name, false) && key.name !in a.requests
    case DropGet(scope, why) =>
      scope == B.BackupAndProviderBackup && Untouched(was, a, key, copy)
      && (IsHere(a, key.name, true) || (IsHere(a, key.name, false) && key.name in a.requests && a.requests[key.name]))
    case DropDelete(scope, why) =>
      scope == B.BackupAndProviderBackup && Untouched(was, a, key, copy) && key.name in a.requests
      && (IsHere(a, key.name, true) || (IsHere(a, key.name, false) && a.requests[key.name]))
    case DeletingPatch(scope, why) =>
      scope == B.BackupAndProviderBackup && Deletes(a, key) && copy == a.objects[key]
      && a.backups == was.backups && a.requests == WantedRequests(was, key.name) && key.name in a.backups
    case _ => false
  }

  function StepsLeft(pc: B.BackupPc): nat {
    match pc
    case HoldsGet(_) => 10
    case OffGet(_) => 9
    case OffSwitch(_) => 8
    case Release(_, release) => if release.ObserveOwn? then 7 else 6
    case DeleteGet => 5
    case RequestGet(_) => 4
    case DropGet(_, _) => 3
    case DropDelete(_, _) => 2
    case RequestCreate(_) => 2
    case _ => 1
  }

  ghost predicate Deleted(was: Api, a: Api, key: Key) {
    a.backups == was.backups && a.requests == WantedRequests(was, key.name)
    && (key.name in was.backups ==> Deletes(a, key))
    && (key.name !in was.backups ==> key !in a.objects)
  }

  ghost predicate Closer(was: Api, a: Api, key: Key, pc: B.BackupPc, n: B.BackupNext) {
    if n.Go? then OnDeletion(was, a, key, n.pc, n.copy) && StepsLeft(n.pc) < StepsLeft(pc) else Deleted(was, a, key)
  }

  lemma ClosingCall(was: Api, a: Api, key: Key, pc: B.BackupPc, copy: Object)
    requires OnDeletion(was, a, key, pc, copy) && (pc.HoldsGet? || pc.OffGet? || pc.OffSwitch?)
    ensures var (a', r) := Serve(a, B.BackupRequest(pc, key, copy), CALM);
            Closer(was, a', key, pc, B.BackupStep(pc, key, copy, r))
  {
  }

  lemma ReleasingCall(was: Api, a: Api, key: Key, pc: B.BackupPc, copy: Object)
    requires OnDeletion(was, a, key, pc, copy) && pc.Release?
    ensures var (a', r) := Serve(a, B.BackupRequest(pc, key, copy), CALM);
            Closer(was, a', key, pc, B.BackupStep(pc, key, copy, r))
  {
  }

  lemma RequestCall(was: Api, a: Api, key: Key, pc: B.BackupPc, copy: Object)
    requires OnDeletion(was, a, key, pc, copy) && (pc.RequestGet? || pc.RequestCreate?)
    ensures var (a', r) := Serve(a, B.BackupRequest(pc, key, copy), CALM);
            Closer(was, a', key, pc, B.BackupStep(pc, key, copy, r))
  {
  }

  lemma DeleteGetCall(was: Api, a: Api, key: Key, copy: Object)
    requires OnDeletion(was, a, key, B.DeleteGet, copy)
    ensures var (a', r) := Serve(a, B.BackupRequest(B.DeleteGet, key, copy), CALM);
            Closer(was, a', key, B.DeleteGet, B.BackupStep(B.DeleteGet, key, copy, r))
  {
  }

  lemma DropCall(was: Api, a: Api, key: Key, pc: B.BackupPc, copy: Object)
    requires OnDeletion(was, a, key, pc, copy) && (pc.DropGet? || pc.DropDelete?)
    ensures var (a', r) := Serve(a, B.BackupRequest(pc, key, copy), CALM);
            Closer(was, a', key, pc, B.BackupStep(pc, key, copy, r))
  {
    if key.name !in a.requests { assert a.requests - {key.name} == a.requests; }
  }

  lemma LastCall(was: Api, a: Api, key: Key, pc: B.BackupPc, copy: Object)
    requires OnDeletion(was, a, key, pc, copy) && (pc.DeletingPatch? || pc.FinalizerDrop?)
    ensures var (a', r) := Serve(a, B.BackupRequest(pc, key, copy), CALM);
            Closer(was, a', key, pc, B.BackupStep(pc, key, copy, r))
  {
  }

  lemma DeletionCall(was: Api, a: Api, key: Key, pc: B.BackupPc, copy: Object)
    requires OnDeletion(was, a, key, pc, copy)
    ensures var (a', r) := Serve(a, B.BackupRequest(pc, key, copy), CALM);
            Closer(was, a', key, pc, B.BackupStep(pc, key, copy, r))
  {
    if pc.HoldsGet? || pc.OffGet? || pc.OffSwitch? { ClosingCall(was, a, key, pc, copy); }
    else if pc.DeleteGet? { DeleteGetCall(was, a, key, copy); }
    else if pc.Release? { ReleasingCall(was, a, key, pc, copy); }
    else if pc.DropGet? || pc.DropDelete? { DropCall(was, a, key, pc, copy); }
    else if pc.DeletingPatch? || pc.FinalizerDrop? { LastCall(was, a, key, pc, copy); }
    else { RequestCall(was, a, key, pc, copy); }
  }

  // ---- the pass as a part of a run

  function DeletionPass(s: World, key: Key): World { Calls(Step(s, Call(Reconciler(key), CALM)), Reconciler(key), 10) }

  ghost predicate DeletionLocal(was: Api, s: World, key: Key) {
    var l := At(s, Reconciler(key));
    l.Busy? && l.pc.BackupAt? && OnDeletion(was, s.api, key, l.pc.b, l.copy)
  }

  lemma {:induction false} DeletionFinishes(was: Api, s: World, key: Key, fuel: nat)
    requires DeletionLocal(was, s, key) && StepsLeft(At(s, Reconciler(key)).pc.b) <= fuel
    ensures var s' := Calls(s, Reconciler(key), fuel); At(s', Reconciler(key)).Idle? && Deleted(was, s'.api, key)
    decreases fuel
  {
    var l := At(s, Reconciler(key));
    var s' := Step(s, Call(Reconciler(key), CALM));
    DeletionStep(was, s, key);
    if At(s', Reconciler(key)).Busy? { DeletionFinishes(was, s', key, fuel - 1); }
  }

  lemma DeletionStep(was: Api, s: World, key: Key)
    requires DeletionLocal(was, s, key)
    ensures var s' := Step(s, Call(Reconciler(key), CALM));
            var l, l' := At(s, Reconciler(key)), At(s', Reconciler(key));
            if l'.Busy? then DeletionLocal(was, s', key) && StepsLeft(l'.pc.b) < StepsLeft(l.pc.b) else Deleted(was, s'.api, key)
  {
    var l := At(s, Reconciler(key));
    DeletionCall(was, s.api, key, l.pc.b, l.copy);
    NothingIsCreated(l.pc.b, key, l.copy);
  }

  lemma NothingIsCreated(pc: B.BackupPc, key: Key, copy: Object)
    ensures !B.BackupRequest(pc, key, copy).CreateSynced?
  {
  }

  /** One undisturbed pass: a running provider backup is left without a request, another one with a request that is
      not processed yet or, where it was processed, with none, and without a provider backup the resource goes. */
  lemma DeletionPassDeletes(s: World, key: Key)
    requires Deletes(s.api, key) && At(s, Reconciler(key)).Idle?
    ensures var s' := DeletionPass(s, key); At(s', Reconciler(key)).Idle? && Deleted(s.api, s'.api, key)
  {
    var s' := Step(s, Call(Reconciler(key), CALM));
    DeletionStarts(s, key);
    DeletionFinishes(s.api, s', key, 10);
  }

  lemma DeletionStarts(s: World, key: Key)
    requires Deletes(s.api, key) && At(s, Reconciler(key)).Idle?
    ensures var s' := Step(s, Call(Reconciler(key), CALM));
            DeletionLocal(s.api, s', key) && StepsLeft(At(s', Reconciler(key)).pc.b) <= 10
  {
    var o := s.api.objects[key];
    var s' := Step(s, Call(Reconciler(key), CALM));
    assert At(s', Reconciler(key)) == Busy(BackupAt(B.HoldsGet(B.OperationDelete)), o, None, [Exchange(GetObject(key), FoundObject(o))]);
  }

  lemma RenewedTwice(a: Api, a1: Api, a2: Api, key: Key)
    requires Deleted(a, a1, key) && Deleted(a1, a2, key)
    requires IsHere(a, key.name, false) && key.name in a.requests && a.requests[key.name]
    ensures key.name !in a1.requests && a2.requests == a.requests[key.name := false] && Deletes(a2, key)
  {
    assert (a.requests - {key.name})[key.name := false] == a.requests[key.name := false];
  }

  /** A request that Velero processed while the provider backup stayed is dropped by one pass and made again by the
      next, as often as needed. */
  lemma ProcessedRequestIsRenewed(s: World, key: Key)
    requires Deletes(s.api, key) && At(s, Reconciler(key)).Idle?
    requires IsHere(s.api, key.name, false) && key.name in s.api.requests && s.api.requests[key.name]
    ensures var s1 := DeletionPass(s, key);
            var s2 := DeletionPass(s1, key);
            key.name !in s1.api.requests && s2.api.requests == s.api.requests[key.name := false] && Deletes(s2.api, key)
  {
    DeletionPassDeletes(s, key);
    DeletionPassDeletes(DeletionPass(s, key), key);
    RenewedTwice(s.api, DeletionPass(s, key).api, DeletionPass(DeletionPass(s, key), key).api, key);
  }
}
