/** What holds in every run of the operator: at every state, at every step, between any two steps. */
module Safety {
  import opened Conditions
  import opened Cluster
  import opened Leases
  import opened System
  import opened Invariant
  import opened Rely
  import opened Preservation
  import opened History
  import opened Progress
  import B = BackupWorkflow
  import R = RestoreWorkflow
  import Y = SyncWorkflows

  function HolderKey(h: Holder): Key { Key(h.kind, h.name) }

  // ---- the lease

  /** Who can change the lease: its holder gives it up once it is done, or it is taken from nobody active. */
  ghost predicate LeaseMoves(a: Api, a': Api, w: Worker) {
    (a'.lease.Some? && MayTake(a, w, a'.lease.value.holder)
     && (a.lease.Some? && IsNamed(a.lease.value) ==> !IsActive(a, a.lease.value.holder)))
    || (a'.lease.None? && HoldsLease(a, w) && !IsOpen(w.key, a.objects[w.key]))
  }

  lemma ServeMovesLease(a: Api, w: Worker, q: Request, c: Choice)
    requires ApiOk(a) && Guard(a, w, q)
    ensures var a' := Serve(a, q, c).0; a'.lease == a.lease || LeaseMoves(a, a', w)
  {
    ServeCases(a, q, c);
    if OnObjects(q) { assert Effect(a, q, c) == ObjectCall(a, q, c); LeaseStaysOnObjectCall(a, q, c); }
    else if OnLease(q) { assert Effect(a, q, c) == LeaseCall(a, q, c); LeaseFrame(a, w, q, c); }
    else { assert Effect(a, q, c) == ProviderCall(a, q, c); ProviderFrame(a, q, c); }
  }

  lemma StepMovesLease(s: World, action: Action)
    requires Inv(s)
    ensures var a, a' := s.api, Step(s, action).api;
            a'.lease == a.lease
            || (action.Call? && LeaseMoves(a, a', action.worker))
            || (action == Outside(AdminDropsLease) && a'.lease.None? && !IsNamed(a.lease.value))
  {
    match action
    case Call(w, c) =>
      if !Blocked(s, Asked(s, w)) {
        CallIsGuarded(s, w);
        ServeMovesLease(s.api, w, Asked(s, w), c);
      }
    case Crash(_) =>
    case Outside(h) =>
      if OnProvider(h) { ProviderHappens(s, h); }
      else if h.UserDeletes? { LeaseStaysOnObjectCall(s.api, DeleteObject(h.key), Choice(Fine, false, None, [])); }
  }

  lemma NamedFits(a: Api, key: Key)
    requires ApiOk(a) && key in a.objects
    ensures Names(a.lease, key, a.objects[key].uid) ==> TakerFits(key, a.objects[key])
  {
    if Names(a.lease, key, a.objects[key].uid) { assert Took(a, key, a.objects[key].uid); }
  }

  /** The lease of an existing holder that has not ended is never overwritten or deleted by anyone else,
      and not even by itself while its work is still to be done. */
  lemma ActiveHolderKeepsLease(run: seq<World>, actions: seq<Action>, n: nat)
    requires IsRun(run, actions) && n < |actions|
    requires run[n].api.lease.Some? && IsActive(run[n].api, run[n].api.lease.value.holder)
    ensures var a, key := run[n].api, HolderKey(run[n].api.lease.value.holder);
            run[n + 1].api.lease == a.lease
            || (run[n + 1].api.lease.None? && actions[n].Call? && actions[n].worker == Reconciler(key)
                && !IsOpen(key, a.objects[key]))
  {
    var a, key := run[n].api, HolderKey(run[n].api.lease.value.holder);
    InvHolds(run, actions, n);
    assert ObjectOk(a, key);
    assert IsNamed(a.lease.value);
    StepMovesLease(run[n], actions[n]);
  }

  /** From the moment an operation has taken the lease until its work is done, the lease is its own. */
  lemma LeaseLastsUntilDone(run: seq<World>, actions: seq<Action>, n: nat, m: nat, key: Key)
    requires IsRun(run, actions) && n <= m < |run| && key in run[m].api.objects
    requires Names(run[n].api.lease, key, run[m].api.objects[key].uid)
    requires IsOpen(key, run[m].api.objects[key])
    ensures Names(run[m].api.lease, key, run[m].api.objects[key].uid)
  {
    InvHolds(run, actions, n);
    InvHolds(run, actions, m);
    RunCounts(run, actions, n, m);
    assert run[n].api.lease.value in run[m].api.past;
  }

  /** A deletion of the lease removes exactly the version that was read, only by the holder itself, and only
      after its restore has ended or is being deleted, or its backup left the create stages. */
  lemma ReleaseDeletesOwn(run: seq<World>, actions: seq<Action>, n: nat, w: Worker)
    requires IsRun(run, actions) && n < |actions| && actions[n].Call? && actions[n].worker == w && Asked(run[n], w).DeleteLease?
    ensures var a, seen := run[n].api, Asked(run[n], w).seen;
            run[n + 1].api.lease == a.lease
            || (run[n + 1].api.lease.None? && a.lease == Some(seen)
                && HoldsLease(a, w) && !IsOpen(w.key, a.objects[w.key]))
  {
    InvHolds(run, actions, n);
    CallIsGuarded(run[n], w);
    LeaseFrame(run[n].api, w, Asked(run[n], w), actions[n].choice);
    assert LeaseOk(run[n].api);
  }

  // ---- what only the holder does

  predicate NeedsLease(q: Request) { q.SwitchMaintenance? || q.CreateProviderBackup? || q.CreateProviderRestore? || q.DoWork? }

  /** The closing stage of a backup is about to switch maintenance mode off. */
  predicate IsClosingDown(l: Local) { l.Busy? && l.pc.BackupAt? && l.pc.b.OffSwitch? }

  /** Maintenance mode, workloads and new provider resources are touched only by an operation whose object exists and is no
      backup that was synced from the provider, and, but for the closing stage of a backup, only by the operation that
      holds the lease at that very step. `Holders` says exactly when the closing stage holds it, too. */
  lemma OnlyTheHolderActs(run: seq<World>, actions: seq<Action>, n: nat, w: Worker)
    requires IsRun(run, actions) && n < |run| && NeedsLease(Asked(run[n], w))
    ensures w.Reconciler? && w.key in run[n].api.objects && !run[n].api.objects[w.key].synced
    ensures HoldsLease(run[n].api, w) || IsClosingDown(At(run[n], w))
  {
    InvHolds(run, actions, n);
    var a, l := run[n].api, At(run[n], w);
    assert l.Busy? && LocalOk(a, w, l);
    if l.pc.BackupAt? { BackupActs(a, w.key, l.pc.b, l.copy, l.mark); } else { RestoreActs(a, w.key, l.pc.r, l.copy); }
    NamedFits(a, w.key);
  }

  lemma BackupActs(a: Api, key: Key, pc: B.BackupPc, copy: Object, mark: Option<nat>)
    requires ApiOk(a) && BackupLocalOk(a, key, pc, copy, mark) && NeedsLease(B.BackupRequest(pc, key, copy))
    ensures key in a.objects && !a.objects[key].synced && (pc.OffSwitch? || Names(a.lease, key, a.objects[key].uid))
  {
    BackupActsAt(pc, key, copy);
  }

  lemma BackupActsAt(pc: B.BackupPc, key: Key, copy: Object)
    requires NeedsLease(B.BackupRequest(pc, key, copy))
    ensures pc.MaintenanceOn? || pc.OwnCreate? || pc.OffSwitch?
  {
  }

  lemma RestoreActs(a: Api, key: Key, pc: R.RestorePc, copy: Object)
    requires ApiOk(a) && RestoreLocalOk(a, key, pc, copy) && NeedsLease(R.RestoreRequest(pc, key, copy))
    ensures key in a.objects && !a.objects[key].synced && Names(a.lease, key, a.objects[key].uid)
  {
    RestoreActsAt(pc, key, copy);
    ActingHolds(a, key, pc, copy);
    assert key in a.objects && ObjectOk(a, key);
  }

  predicate IsActing(pc: R.RestorePc) {
    pc.MaintenanceOn? || pc.PrepareScaleDown? || pc.PrepareCleanup? || pc.ChildCreate? || pc.FailureOff?
    || pc.ScaleUpRun? || pc.FinalizeRun? || pc.MaintenanceOff?
  }

  lemma RestoreActsAt(pc: R.RestorePc, key: Key, copy: Object)
    requires NeedsLease(R.RestoreRequest(pc, key, copy))
    ensures IsActing(pc)
  {
  }

  lemma ActingHolds(a: Api, key: Key, pc: R.RestorePc, copy: Object)
    requires RestorePcOk(a, key, pc, copy) && IsActing(pc)
    ensures copy.finalizer && Names(a.lease, key, copy.uid)
  {
  }

  // ---- backups

  /** A run that was canceled has no provider result and never counts as completed. */
  lemma CanceledNeverCompletes(run: seq<World>, actions: seq<Action>, n: nat, key: Key)
    requires IsRun(run, actions) && n < |run| && key.kind == Backup && key in run[n].api.objects
    requires !run[n].api.objects[key].synced && IsTrue(run[n].api.objects[key].conditions, Canceled)
    ensures var o := run[n].api.objects[key];
            !Decided(o.conditions, ProviderSucceeded) && !IsTrue(o.conditions, Succeeded) && o.legacy != Completed
  {
    InvHolds(run, actions, n);
    assert ObjectOk(run[n].api, key);
  }

  /** A synced backup never holds the lease, is never finalized, and gets both success conditions at once. */
  lemma SyncedStaysApart(run: seq<World>, actions: seq<Action>, n: nat, key: Key)
    requires IsRun(run, actions) && n < |run| && key.kind == Backup && key in run[n].api.objects && run[n].api.objects[key].synced
    ensures var a, o := run[n].api, run[n].api.objects[key];
            !Names(a.lease, key, o.uid) && B.RequiredOperation(o) != B.OperationFinalize
            && (Decided(o.conditions, Succeeded) <==> Decided(o.conditions, ProviderSucceeded))
  {
    InvHolds(run, actions, n);
    assert ObjectOk(run[n].api, key);
    NamedFits(run[n].api, key);
  }

  /** A synced backup does not even try to take the lease. */
  lemma SyncedNeverTakes(run: seq<World>, actions: seq<Action>, n: nat, key: Key)
    requires IsRun(run, actions) && n < |run| && key.kind == Backup && key in run[n].api.objects && run[n].api.objects[key].synced
    ensures var q := Asked(run[n], Reconciler(key)); !q.CreateLease? && !q.UpdateLease? && !NeedsLease(q)
  {
    var w := Reconciler(key);
    InvHolds(run, actions, n);
    if NeedsLease(Asked(run[n], w)) { OnlyTheHolderActs(run, actions, n, w); }
    if Asked(run[n], w).CreateLease? || Asked(run[n], w).UpdateLease? { CallIsGuarded(run[n], w); }
  }

  // ---- restores

  /** Once a restore was given a child, its workloads are never scaled down or cleaned up again, even if
      the child vanishes. */
  lemma NoPreparationAfterChild(run: seq<World>, actions: seq<Action>, n: nat, m: nat, name: Name, w: Worker)
    requires IsRun(run, actions) && n <= m < |run| && name in run[n].api.restores && run[n].api.restores[name].owner != 0
    requires Asked(run[m], w) == DoWork(ScaleDown) || Asked(run[m], w) == DoWork(Cleanup)
    ensures HoldsLease(run[m].api, w) && run[m].api.objects[w.key].uid != run[n].api.restores[name].owner
  {
    InvHolds(run, actions, n);
    RunCounts(run, actions, n, m);
    OnlyTheHolderActs(run, actions, m, w);
    InvHolds(run, actions, m);
    PreparingIsUnprepared(run[m], w);
    assert ObjectOk(run[m].api, w.key);
  }

  lemma PreparingIsUnprepared(s: World, w: Worker)
    requires Inv(s) && (Asked(s, w) == DoWork(ScaleDown) || Asked(s, w) == DoWork(Cleanup))
    ensures w.Reconciler? && w.key.kind == Restore
            && (w.key in s.api.objects ==> !IsTrue(s.api.objects[w.key].conditions, Prepared))
  {
    assert LocalOk(s.api, w, At(s, w));
  }

  // ---- the check before a provider backup is created

  /** Step k is the check of worker w for other running provider backups, and it finds none. */
  ghost predicate ChecksAt(run: seq<World>, actions: seq<Action>, k: nat, w: Worker)
    requires k < |actions| < |run|
  {
    actions[k].Call? && actions[k].worker == w && Asked(run[k], w).ListProviderBackups?
    && forall other :: other in run[k].api.backups && other != Asked(run[k], w).name ==> !IsRunning(run[k].api.backups[other].phase)
  }

  ghost predicate InOnePass(run: seq<World>, w: Worker, k: nat, n: nat)
    requires n < |run|
  {
    forall j :: k < j <= n ==> At(run[j], w).Busy?
  }

  ghost predicate Marks(l: Local) {
    l.Busy? && l.mark.Some? && !(l.pc.BackupAt? && l.pc.b == B.PreparePatch(false))
  }

  /** A worker keeps its mark, or makes it now. */
  lemma StepMarks(s: World, action: Action, w: Worker)
    requires Marks(At(Step(s, action), w))
    ensures var l, l' := At(s, w), At(Step(s, action), w);
            (Marks(l) && l'.mark == l.mark)
            || (action.Call? && action.worker == w && Asked(s, w).ListProviderBackups? && l'.mark == Some(|s.api.created|)
                && forall other :: other in s.api.backups && other != Asked(s, w).name ==> !IsRunning(s.api.backups[other].phase))
  {
    if action.Call? && action.worker == w { CallMarks(s, w, action.choice); }
  }

  lemma CallMarks(s: World, w: Worker, c: Choice)
    requires Marks(At(StepCall(s, w, c), w))
    ensures var l, l' := At(s, w), At(StepCall(s, w, c), w);
            (Marks(l) && l'.mark == l.mark)
            || (Asked(s, w).ListProviderBackups? && l'.mark == Some(|s.api.created|)
                && forall other :: other in s.api.backups && other != Asked(s, w).name ==> !IsRunning(s.api.backups[other].phase))
  {
    var l, l' := At(s, w), At(StepCall(s, w, c), w);
    var q := Asked(s, w);
    if q.ListProviderBackups? {
      assert l.Busy? && l.pc.BackupAt? && l.pc.b.PrepareList?;
      assert l'.pc == BackupAt(B.PreparePatch(true));
    }
  }

  /** The mark was made by this step. */
  ghost predicate IsOrigin(run: seq<World>, actions: seq<Action>, k: nat, n: nat, w: Worker, mark: nat)
    requires n < |run| == |actions| + 1
  {
    k < n && ChecksAt(run, actions, k, w) && |run[k].api.created| == mark && InOnePass(run, w, k, n)
  }

  lemma OriginStays(run: seq<World>, actions: seq<Action>, k: nat, n: nat, w: Worker, mark: nat)
    requires n + 1 < |run| == |actions| + 1 && IsOrigin(run, actions, k, n, w, mark) && At(run[n + 1], w).Busy?
    ensures IsOrigin(run, actions, k, n + 1, w, mark)
  {
  }

  lemma {:induction false} MarkComesFromCheck(run: seq<World>, actions: seq<Action>, n: nat, w: Worker)
    requires IsRun(run, actions) && n < |run| && Marks(At(run[n], w))
    ensures exists k: nat :: IsOrigin(run, actions, k, n, w, At(run[n], w).mark.value)
  {
    assert n > 0;
    StepMarks(run[n - 1], actions[n - 1], w);
    var mark := At(run[n], w).mark.value;
    if Marks(At(run[n - 1], w)) && At(run[n - 1], w).mark == Some(mark) {
      MarkComesFromCheck(run, actions, n - 1, w);
      var k: nat :| IsOrigin(run, actions, k, n - 1, w, mark);
      OriginStays(run, actions, k, n - 1, w, mark);
    } else {
      assert IsOrigin(run, actions, n - 1, n, w, mark);
    }
  }

  /** A backup creates its provider backup only in a pass that saw maintenance mode on. The pass made the check for other
      running ones exactly if the run had not started and the pass had not seen its own provider backup before; it then
      found none running, and no run of the operator has created one since. */
  lemma CreationFollowsCheck(run: seq<World>, actions: seq<Action>, n: nat, w: Worker)
    requires IsRun(run, actions) && n < |run| && Asked(run[n], w).CreateProviderBackup?
    ensures w == Reconciler(Key(Backup, Asked(run[n], w).name)) && At(run[n], w).Busy? && SawMaintenance(At(run[n], w).trail)
    ensures Looked(At(run[n], w).trail) <==> !At(run[n], w).copy.started && !SawOwn(At(run[n], w).trail)
    ensures Looked(At(run[n], w).trail) ==>
              exists k: nat :: k < n && ChecksAt(run, actions, k, w) && run[k].api.created == run[n].api.created
                                && InOnePass(run, w, k, n)
  {
    AllRemember(run, actions, n);
    var l := At(run[n], w);
    assert LocalOk(run[n].api, w, l) && TrailOk(w, l);
    if Looked(l.trail) {
      MarkComesFromCheck(run, actions, n, w);
      var k: nat :| IsOrigin(run, actions, k, n, w, l.mark.value);
      RunCounts(run, actions, k, n);
      assert run[k].api.created == run[n].api.created;
    }
  }

  // ---- what a finished preparation, recovery and deletion stand for

  /** The worker on `key` is in a restore pass at this point. */
  predicate RestorePassAt(s: World, key: Key, pc: R.RestorePc) {
    At(s, Reconciler(key)).Busy? && At(s, Reconciler(key)).pc == RestoreAt(pc)
  }

  lemma WriteSucceeds(pc: R.RestorePc, key: Key, copy: Object)
    requires R.RestoreRequest(pc, key, copy).WriteStatus?
    ensures var changes := R.RestoreRequest(pc, key, copy).changes;
            IsTrue(changes, Succeeded) ==> pc.CompletedWrite? || (pc.MigrateWrite? && copy.legacy == Completed)
    ensures IsTrue(R.RestoreRequest(pc, key, copy).changes, Prepared) ==> pc.PreparedWrite?
  {
  }

  lemma BecomesTrue(s: World, action: Action, key: Key, t: Type)
    requires Inv(s) && key.kind == Restore && key in s.api.objects && key in Step(s, action).api.objects
    requires s.api.objects[key].uid == Step(s, action).api.objects[key].uid
    requires !IsTrue(s.api.objects[key].conditions, t) && IsTrue(Step(s, action).api.objects[key].conditions, t)
    ensures var l := At(s, Reconciler(key));
            action.Call? && action.worker == Reconciler(key) && l.Busy? && l.pc.RestoreAt?
            && R.RestoreRequest(l.pc.r, key, l.copy).WriteStatus? && IsTrue(R.RestoreRequest(l.pc.r, key, l.copy).changes, t)
  {
    assert ObjectOk(s.api, key);
    StepOnObject(s, action, key);
    var w, l := Reconciler(key), At(s, Reconciler(key));
    assert WritesStatus(s, action, key);
    CallIsGuarded(s, w);
    assert LocalOk(s.api, w, l);
  }

  /** A restore becomes successful only in a pass that scaled up, then found every workload ready, then removed the
      saved counts, then switched maintenance mode off, with the provider's success stored before; or as the
      migration of an older operator's Completed. */
  lemma SuccessMeansRecovered(run: seq<World>, actions: seq<Action>, n: nat, key: Key)
    requires IsRun(run, actions) && n < |actions| && key.kind == Restore
    requires key in run[n].api.objects && key in run[n + 1].api.objects && run[n].api.objects[key].uid == run[n + 1].api.objects[key].uid
    requires !IsTrue(run[n].api.objects[key].conditions, Succeeded) && IsTrue(run[n + 1].api.objects[key].conditions, Succeeded)
    ensures var a, l := run[n].api, At(run[n], Reconciler(key));
            (RestorePassAt(run[n], key, R.CompletedWrite) && Follows(l.trail, RECOVERY)
             && IsTrue(a.objects[key].conditions, ProviderSucceeded) && HoldsLease(a, Reconciler(key)))
            || (l.Busy? && l.pc.RestoreAt? && l.pc.r.MigrateWrite? && a.objects[key].legacy == Completed && a.objects[key].conditions == map[])
  {
    var w, l := Reconciler(key), At(run[n], Reconciler(key));
    AllRemember(run, actions, n);
    BecomesTrue(run[n], actions[n], key, Succeeded);
    WriteSucceeds(l.pc.r, key, l.copy);
    assert LocalOk(run[n].api, w, l) && TrailOk(w, l);
  }

  lemma WriteProvides(pc: R.RestorePc, key: Key, copy: Object)
    requires R.RestoreRequest(pc, key, copy).WriteStatus? && IsTrue(R.RestoreRequest(pc, key, copy).changes, ProviderSucceeded)
    ensures pc.ObservedWrite? && pc.observed.status == True
  {
  }

  /** The provider's success is stored only in a pass whose last observation was a child that succeeded, with the
      preparation completed before and the lease held. */
  lemma ProviderSuccessIsObserved(run: seq<World>, actions: seq<Action>, n: nat, key: Key)
    requires IsRun(run, actions) && n < |actions| && key.kind == Restore
    requires key in run[n].api.objects && key in run[n + 1].api.objects && run[n].api.objects[key].uid == run[n + 1].api.objects[key].uid
    requires !IsTrue(run[n].api.objects[key].conditions, ProviderSucceeded) && IsTrue(run[n + 1].api.objects[key].conditions, ProviderSucceeded)
    ensures var a, l := run[n].api, At(run[n], Reconciler(key));
            l.Busy? && SawChild(l.trail, key.name, RestoreSucceeded)
            && IsTrue(a.objects[key].conditions, Prepared) && HoldsLease(a, Reconciler(key))
  {
    var w, l := Reconciler(key), At(run[n], Reconciler(key));
    AllRemember(run, actions, n);
    BecomesTrue(run[n], actions[n], key, ProviderSucceeded);
    WriteProvides(l.pc.r, key, l.copy);
    assert LocalOk(run[n].api, w, l) && TrailOk(w, l);
  }

  /** A child is created only in a pass that just saw none, for a restore that is prepared and holds the lease. */
  lemma ChildFollowsPreparation(run: seq<World>, actions: seq<Action>, n: nat, w: Worker)
    requires IsRun(run, actions) && n < |run| && Asked(run[n], w).CreateProviderRestore?
    ensures HoldsLease(run[n].api, w) && w.key.kind == Restore && At(run[n], w).Busy?
            && IsTrue(run[n].api.objects[w.key].conditions, Prepared)
            && Asked(run[n], w).name == w.key.name && Asked(run[n], w).owner == run[n].api.objects[w.key].uid
            && Ends(At(run[n], w).trail, GetProviderRestore(w.key.name), {NotFound})
  {
    AllRemember(run, actions, n);
    OnlyTheHolderActs(run, actions, n, w);
    CreatingPc(run[n], w);
    assert TrailOk(w, At(run[n], w));
  }

  lemma CreatingPc(s: World, w: Worker)
    requires Inv(s) && Asked(s, w).CreateProviderRestore? && HoldsLease(s.api, w)
    ensures w.key.kind == Restore && At(s, w).Busy? && At(s, w).pc == RestoreAt(R.ChildCreate)
            && IsTrue(s.api.objects[w.key].conditions, Prepared)
            && Asked(s, w).name == w.key.name && Asked(s, w).owner == s.api.objects[w.key].uid
  {
    assert At(s, w).Busy? && LocalOk(s.api, w, At(s, w));
  }

  /** Prepared becomes true only in a pass in which the scale-down and then the cleanup were finished. */
  lemma PreparedMeansDone(run: seq<World>, actions: seq<Action>, n: nat, key: Key)
    requires IsRun(run, actions) && n < |actions| && key.kind == Restore
    requires key in run[n].api.objects && key in run[n + 1].api.objects && run[n].api.objects[key].uid == run[n + 1].api.objects[key].uid
    requires !IsTrue(run[n].api.objects[key].conditions, Prepared) && IsTrue(run[n + 1].api.objects[key].conditions, Prepared)
    ensures RestorePassAt(run[n], key, R.PreparedWrite) && Follows(At(run[n], Reconciler(key)).trail, PREPARATION)
            && HoldsLease(run[n].api, Reconciler(key))
  {
    var w, l := Reconciler(key), At(run[n], Reconciler(key));
    AllRemember(run, actions, n);
    BecomesTrue(run[n], actions[n], key, Prepared);
    WriteSucceeds(l.pc.r, key, l.copy);
    assert LocalOk(run[n].api, w, l) && TrailOk(w, l);
  }

  /** The saved replica counts are removed only in a pass that scaled up and then found every workload ready. */
  lemma RemovalFollowsScaleUp(run: seq<World>, actions: seq<Action>, n: nat, w: Worker)
    requires IsRun(run, actions) && n < |run| && Asked(run[n], w) == DoWork(FinalizeScaleUp)
    ensures At(run[n], w).Busy? && Follows(At(run[n], w).trail, RECOVERY[..2])
  {
    AllRemember(run, actions, n);
    RemovingPc(run[n], w);
    assert TrailOk(w, At(run[n], w));
  }

  lemma RemovingPc(s: World, w: Worker)
    requires Inv(s) && Asked(s, w) == DoWork(FinalizeScaleUp)
    ensures w.Reconciler? && At(s, w).Busy? && At(s, w).pc == RestoreAt(R.FinalizeRun)
  {
    assert At(s, w).Busy? && LocalOk(s.api, w, At(s, w));
  }

  /** A workload that regresses, however far the recovery had come, moves the restore back to waiting: the pass ends with
      that reason stored already, or its next call stores it. */
  lemma RegressionWaits(run: seq<World>, actions: seq<Action>, n: nat, key: Key)
    requires IsRun(run, actions) && n < |actions| && RestorePassAt(run[n], key, R.ReadyObserve)
    requires actions[n].Call? && actions[n].worker == Reconciler(key) && actions[n].choice.fault == Fine && !actions[n].choice.answer
    ensures if At(run[n + 1], Reconciler(key)).Idle? then
              key in run[n].api.objects
              && IsUnknownFor(run[n].api.objects[key].conditions, WorkloadsRecovered, {WaitingForWorkloads})
            else
              Asked(run[n + 1], Reconciler(key)) == WriteStatus(key, map[WorkloadsRecovered := Condition(Unknown, WaitingForWorkloads)])
  {
    InvHolds(run, actions, n);
    CopyIsStored(run[n], key);
    ObservedNotReady(run[n], key, actions[n].choice);
  }

  lemma CopyIsStored(s: World, key: Key)
    requires Inv(s) && RestorePassAt(s, key, R.ReadyObserve)
    ensures key in s.api.objects && s.api.objects[key].conditions == At(s, Reconciler(key)).copy.conditions
  {
    assert LocalOk(s.api, Reconciler(key), At(s, Reconciler(key)));
  }

  lemma ObservedNotReady(s: World, key: Key, c: Choice)
    requires RestorePassAt(s, key, R.ReadyObserve) && c.fault == Fine && !c.answer
    ensures var s' := Step(s, Call(Reconciler(key), c));
            if At(s', Reconciler(key)).Idle? then IsUnknownFor(At(s, Reconciler(key)).copy.conditions, WorkloadsRecovered, {WaitingForWorkloads})
            else Asked(s', Reconciler(key)) == WriteStatus(key, map[WorkloadsRecovered := Condition(Unknown, WaitingForWorkloads)])
  {
  }
}
