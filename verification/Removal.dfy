/** Who removes what, in every run: finalizers, canceled backups, requests to delete provider backups. */
module Removal {
  import opened Conditions
  import opened Cluster
  import opened Leases
  import opened System
  import opened Invariant
  import opened Rely
  import opened Preservation
  import opened History
  import opened Progress
  import opened Safety
  import opened LeaseReads
  import B = BackupWorkflow
  import R = RestoreWorkflow
  import Y = SyncWorkflows

  /** The resource with this UID is no longer stored. */
  predicate IsGone(a: Api, key: Key, uid: nat) { key !in a.objects || a.objects[key].uid != uid }

  // ---- finalizers

  predicate DropsFinalizer(q: Request, key: Key) { q.UpdateMetadata? && q.key == key && !q.finalizer }

  lemma ServedFinalizer(a: Api, q: Request, c: Choice, key: Key)
    requires key in a.objects && a.objects[key].finalizer && !DropsFinalizer(q, key)
    ensures var a' := Serve(a, q, c).0;
            key in a'.objects && a'.objects[key].finalizer && a'.objects[key].uid == a.objects[key].uid
  {
    ServeCases(a, q, c);
    if OnObjects(q) {
      assert Effect(a, q, c) == ObjectCall(a, q, c);
      if !Writes(q, key) && q != DeleteObject(key) && q != CreateSynced(key.name) { ObjectFrame(a, q, c, key); }
    } else if OnLease(q) {
      assert Effect(a, q, c) == LeaseCall(a, q, c);
      assert Effect(a, q, c).0.objects == a.objects;
    } else {
      assert Effect(a, q, c) == ProviderCall(a, q, c);
      ProviderFrame(a, q, c);
    }
  }

  lemma HappenedFinalizer(s: World, h: Happening, key: Key)
    requires key in s.api.objects && s.api.objects[key].finalizer
    ensures var a' := Happen(s, h);
            key in a'.objects && a'.objects[key].finalizer && a'.objects[key].uid == s.api.objects[key].uid
  {
    if OnProvider(h) { ProviderHappens(s, h); }
    else if h.UserDeletes? { ServedFinalizer(s.api, DeleteObject(h.key), Choice(Fine, false, None, []), key); }
  }

  lemma DroppingWorker(s: World, w: Worker, key: Key)
    requires Inv(s) && DropsFinalizer(Asked(s, w), key)
    ensures w == Reconciler(key) && At(s, w).Busy? && (At(s, w).pc == BackupAt(B.FinalizerDrop) || At(s, w).pc == RestoreAt(R.FinalizerDrop))
  {
    var l := At(s, w);
    if l.Busy? {
      assert LocalOk(s.api, w, l);
      if w.Reconciler? && l.pc.BackupAt? { BackupDropPc(l.pc.b, w.key, l.copy); }
      if w.Reconciler? && l.pc.RestoreAt? { RestoreDropPc(l.pc.r, w.key, l.copy); }
    }
  }

  lemma BackupDropPc(pc: B.BackupPc, key: Key, copy: Object)
    ensures var q := B.BackupRequest(pc, key, copy); q.UpdateMetadata? && !q.finalizer ==> pc == B.FinalizerDrop && q.key == key
  {
  }

  lemma RestoreDropPc(pc: R.RestorePc, key: Key, copy: Object)
    ensures var q := R.RestoreRequest(pc, key, copy); q.UpdateMetadata? && !q.finalizer ==> pc == R.FinalizerDrop && q.key == key
  {
  }

  /** The lease was seen given up, and for a backup after that the provider backup was seen gone. */
  predicate SawLeaseGivenUp(key: Key, me: Holder, trail: seq<Exchange>) {
    if key.kind == Backup then
      |trail| > 1 && GivenUp(trail[|trail| - 2], me) && Ends(trail, GetProviderBackup(key.name), {NotFound})
    else trail != [] && GivenUp(trail[|trail| - 1], me)
  }

  lemma DroppingState(s: World, key: Key)
    requires Inv(s) && Remembered(s) && DropsFinalizer(Asked(s, Reconciler(key)), key) && key in s.api.objects
    ensures var a, l := s.api, At(s, Reconciler(key));
            l.Busy? && HasReleased(l) && l.copy.finalizer && l.copy.uid == a.objects[key].uid && l.copy.conditions == a.objects[key].conditions
            && l.copy.legacy == a.objects[key].legacy && a.objects[key].deleting
            && SawLeaseGivenUp(key, HolderOf(key, a.objects[key]), l.trail)
  {
    var w := Reconciler(key);
    DroppingWorker(s, w, key);
    assert ObjectOk(s.api, key) && LocalOk(s.api, w, At(s, w)) && TrailOk(w, At(s, w));
  }

  /** The finalizer goes last: its resource is being deleted, and the same pass saw the lease given up and, for a backup,
      after that the provider backup gone. That the lease still names the resource happens only if that pass missed the
      resource's own lease in an outdated read, and it does happen then if the operation has not ended. */
  lemma FinalizerGoesLast(run: seq<World>, actions: seq<Action>, n: nat, key: Key)
    requires IsRun(run, actions) && n < |actions| && key in run[n].api.objects && run[n].api.objects[key].finalizer
    requires IsGone(run[n + 1].api, key, run[n].api.objects[key].uid) || !run[n + 1].api.objects[key].finalizer
    ensures var a, w, l := run[n].api, Reconciler(key), At(run[n], Reconciler(key));
            actions[n].Call? && actions[n].worker == w && l.Busy?
            && a.objects[key].deleting && SawLeaseGivenUp(key, HolderOf(key, a.objects[key]), l.trail)
            && (Names(a.lease, key, a.objects[key].uid) ==> Misled(run, actions, n, w, a.objects[key].uid))
            && (Misled(run, actions, n, w, a.objects[key].uid) && !IsTerminal(key.kind, a.objects[key]) ==> Names(a.lease, key, a.objects[key].uid))
  {
    AllRemember(run, actions, n);
    StepDropsFinalizer(run[n], actions[n], key);
    DroppingWorker(run[n], actions[n].worker, key);
    DroppingState(run[n], key);
    StillNamedIff(run, actions, n, Reconciler(key));
  }

  lemma StepDropsFinalizer(s: World, action: Action, key: Key)
    requires key in s.api.objects && s.api.objects[key].finalizer
    requires IsGone(Step(s, action).api, key, s.api.objects[key].uid) || !Step(s, action).api.objects[key].finalizer
    ensures action.Call? && DropsFinalizer(Asked(s, action.worker), key)
  {
    match action
    case Call(w, c) =>
      var q := Asked(s, w);
      if !DropsFinalizer(q, key) && !Blocked(s, q) { ServedFinalizer(s.api, q, c, key); }
    case Crash(_) =>
    case Outside(h) => HappenedFinalizer(s, h, key);
  }

  // ---- requests to delete a provider backup

  /** The worker on `key` is in a backup pass at this point. */
  predicate BackupPassAt(s: World, key: Key, pc: B.BackupPc) {
    At(s, Reconciler(key)).Busy? && At(s, Reconciler(key)).pc == BackupAt(pc)
  }

  lemma RequestTrail(w: Worker, l: Local, scope: B.Scope)
    requires TrailOk(w, l) && l.Busy? && w.Reconciler?
    ensures l.pc == BackupAt(B.RequestCreate(scope)) ==>
              |l.trail| > 1 && SawPhase(l.trail[..|l.trail| - 1], w.key.name, false) && Ends(l.trail, GetDeleteRequest(w.key.name), {NotFound})
    ensures l.pc == BackupAt(B.DeletingPatch(scope, WaitingForProviderBackupCompletion)) ==> NoRequestLeft(l.trail, w.key.name)
  {
  }

  lemma DeleteRequestPc(pc: B.BackupPc, key: Key, copy: Object)
    ensures B.BackupRequest(pc, key, copy).CreateDeleteRequest? ==> pc.RequestCreate?
  {
  }

  lemma RestoresRequestNothing(pc: R.RestorePc, key: Key, copy: Object)
    ensures !R.RestoreRequest(pc, key, copy).CreateDeleteRequest?
  {
  }

  lemma AskingForDeletion(s: World, key: Key)
    requires Inv(s)
    ensures Asked(s, Reconciler(key)).CreateDeleteRequest? ==>
              exists scope :: BackupPassAt(s, key, B.RequestCreate(scope))
  {
    var l := At(s, Reconciler(key));
    if Asked(s, Reconciler(key)).CreateDeleteRequest? {
      assert l.Busy? && LocalOk(s.api, Reconciler(key), l);
      if l.pc.BackupAt? { DeleteRequestPc(l.pc.b, key, l.copy); } else { RestoresRequestNothing(l.pc.r, key, l.copy); }
      assert BackupPassAt(s, key, B.RequestCreate(l.pc.b.scope));
    }
  }

  /** The controller asks Velero to delete a backup only right after the same pass saw it not running and saw no
      request, ... */
  lemma OnlyEndedBackupsAreDeleted(run: seq<World>, actions: seq<Action>, n: nat, key: Key)
    requires IsRun(run, actions) && n < |run| && Asked(run[n], Reconciler(key)).CreateDeleteRequest?
    ensures var trail := At(run[n], Reconciler(key)).trail;
            At(run[n], Reconciler(key)).Busy? && |trail| > 1 && SawPhase(trail[..|trail| - 1], key.name, false)
            && Ends(trail, GetDeleteRequest(key.name), {NotFound})
  {
    AllRemember(run, actions, n);
    AskingForDeletion(run[n], key);
    var scope :| BackupPassAt(run[n], key, B.RequestCreate(scope));
    assert TrailOk(Reconciler(key), At(run[n], Reconciler(key)));
    RequestTrail(Reconciler(key), At(run[n], Reconciler(key)), scope);
  }

  /** ... and a pass that saw it running says so only after it saw no request or dropped it. */
  lemma RunningBackupHasNoRequest(run: seq<World>, actions: seq<Action>, n: nat, key: Key, scope: B.Scope)
    requires IsRun(run, actions) && n < |run|
    requires BackupPassAt(run[n], key, B.DeletingPatch(scope, WaitingForProviderBackupCompletion))
    ensures NoRequestLeft(At(run[n], Reconciler(key)).trail, key.name)
  {
    AllRemember(run, actions, n);
    assert TrailOk(Reconciler(key), At(run[n], Reconciler(key)));
    RequestTrail(Reconciler(key), At(run[n], Reconciler(key)), scope);
  }

  // ---- canceled backups

  predicate IsCanceled(a: Api, key: Key) { key in a.objects && IsTrue(a.objects[key].conditions, Canceled) }

  /** What a follower remembers of the backup it may delete: it read it before, and did not find it canceled. */
  ghost predicate Remembers(w: Worker, l: Local, key: Key) {
    l.Busy?
    && match l.pc
       case MirrorAt(_, seen) => w == Mirror(key.name) && seen.Some? && !IsTrue(seen.value.conditions, Canceled)
       case CollectAt(victims) => w == Collector && exists v <- victims :: v.name == key.name
       case _ => false
  }

  lemma MirrorCallRemembers(s: World, c: Choice, key: Key)
    requires Inv(s) && key.kind == Backup && Remembers(Mirror(key.name), At(StepCall(s, Mirror(key.name), c), Mirror(key.name)), key)
    ensures Remembers(Mirror(key.name), At(s, Mirror(key.name)), key) || !IsCanceled(s.api, key)
  {
    var w := Mirror(key.name);
    if At(s, w).Busy? { assert LocalOk(s.api, w, At(s, w)); }
  }

  lemma CollectorCallRemembers(s: World, c: Choice, key: Key)
    requires Inv(s) && key.kind == Backup && Remembers(Collector, At(StepCall(s, Collector, c), Collector), key)
    ensures Remembers(Collector, At(s, Collector), key) || !IsCanceled(s.api, key)
  {
    if At(s, Collector).Busy? {
      assert LocalOk(s.api, Collector, At(s, Collector));
    } else if key in s.api.objects {
      assert ObjectOk(s.api, key);
    }
  }

  lemma StepOfFollower(s: World, action: Action, w: Worker, key: Key)
    requires Inv(s) && key.kind == Backup && Remembers(w, At(Step(s, action), w), key)
    ensures Remembers(w, At(s, w), key) || (action.Call? && action.worker == w && !IsCanceled(s.api, key))
  {
    if action.Call? && action.worker == w {
      if w.Mirror? { MirrorCallRemembers(s, action.choice, key); }
      if w.Collector? { CollectorCallRemembers(s, action.choice, key); }
    }
  }

  lemma {:induction false} FollowerReadBefore(run: seq<World>, actions: seq<Action>, n: nat, w: Worker, key: Key)
    requires IsRun(run, actions) && n < |run| && key.kind == Backup && Remembers(w, At(run[n], w), key)
    ensures exists k: nat :: k < n && InOnePass(run, w, k, n) && !IsCanceled(run[k].api, key)
  {
    assert n > 0;
    InvHolds(run, actions, n - 1);
    StepOfFollower(run[n - 1], actions[n - 1], w, key);
    if Remembers(w, At(run[n - 1], w), key) {
      FollowerReadBefore(run, actions, n - 1, w, key);
      var k: nat :| k < n - 1 && InOnePass(run, w, k, n - 1) && !IsCanceled(run[k].api, key);
      assert InOnePass(run, w, k, n);
    } else {
      assert InOnePass(run, w, n - 1, n);
    }
  }

  /** Without a deletion call a resource that is not being deleted stays. */
  lemma ServedStays(a: Api, w: Worker, q: Request, c: Choice, key: Key)
    requires Guard(a, w, q) && key in a.objects && !a.objects[key].deleting && q != DeleteObject(key)
    ensures var a' := Serve(a, q, c).0;
            key in a'.objects && a'.objects[key].uid == a.objects[key].uid && !a'.objects[key].deleting
  {
    ServeCases(a, q, c);
    if OnObjects(q) {
      assert Effect(a, q, c) == ObjectCall(a, q, c);
      if !Writes(q, key) && q != CreateSynced(key.name) { ObjectFrame(a, q, c, key); }
    } else if OnLease(q) {
      assert Effect(a, q, c) == LeaseCall(a, q, c);
      assert Effect(a, q, c).0.objects == a.objects;
    } else {
      assert Effect(a, q, c) == ProviderCall(a, q, c);
      ProviderFrame(a, q, c);
    }
  }

  /** The orphan check never meets a canceled backup; the mirror and the collection only one they remember otherwise. */
  lemma DeletingWorker(s: World, w: Worker, key: Key)
    requires Inv(s) && Remembered(s) && key.kind == Backup && Asked(s, w) == DeleteObject(key) && IsCanceled(s.api, key)
    ensures Remembers(w, At(s, w), key)
  {
    if At(s, w).Busy? { assert LocalOk(s.api, w, At(s, w)) && TrailOk(w, At(s, w)); }
  }

  /** A canceled backup is kept: as long as the pass of its mirror or of the collection that is still running, if there is
      one, began after the cancellation, no controller deletes it. Only a user does. */
  lemma CanceledSurvives(run: seq<World>, actions: seq<Action>, n: nat, key: Key)
    requires IsRun(run, actions) && n < |actions| && key.kind == Backup && IsCanceled(run[n].api, key)
    requires !run[n].api.objects[key].deleting && actions[n] != Outside(UserDeletes(key))
    requires forall w, k: nat :: w in {Mirror(key.name), Collector} && k < n && InOnePass(run, w, k, n) ==> IsCanceled(run[k].api, key)
    ensures var o := run[n].api.objects[key];
            key in run[n + 1].api.objects && run[n + 1].api.objects[key].uid == o.uid && !run[n + 1].api.objects[key].deleting
  {
    AllRemember(run, actions, n);
    match actions[n]
    case Call(w, c) =>
      var q := Asked(run[n], w);
      if q == DeleteObject(key) {
        DeletingWorker(run[n], w, key);
        FollowerReadBefore(run, actions, n, w, key);
        assert false;
      } else if !Blocked(run[n], q) {
        CallIsGuarded(run[n], w);
        ServedStays(run[n].api, w, q, c, key);
      }
    case Crash(_) =>
    case Outside(h) => HappenedStays(run[n], h, key);
  }

  lemma HappenedStays(s: World, h: Happening, key: Key)
    requires key in s.api.objects && !s.api.objects[key].deleting && h != UserDeletes(key)
    ensures var a' := Happen(s, h);
            key in a'.objects && a'.objects[key].uid == s.api.objects[key].uid && !a'.objects[key].deleting
  {
    if OnProvider(h) { ProviderHappens(s, h); }
    else if h.UserDeletes? { ObjectFrame(s.api, DeleteObject(h.key), Choice(Fine, false, None, []), key); }
  }
}
