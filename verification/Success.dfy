/** A restore that meets no more trouble and whose child is its own ends successful. */
module Success {
  import opened Conditions
  import opened Cluster
  import opened System
  import opened Invariant
  import opened Rely
  import opened Preservation
  import opened Progress
  import opened Termination
  import R = RestoreWorkflow

  /** There is no namesake of Velero's, or it is the restore's own child. */
  ghost predicate IsOurs(a: Api, key: Key) {
    key in a.objects && (key.name in a.restores ==> !R.Conflicts(a.objects[key], a.restores[key.name]))
  }

  ghost predicate IsWell(a: Api, key: Key) {
    IsOurs(a, key) && (key.name in a.restores ==> a.restores[key.name].state == RestoreSucceeded)
  }

  /** The pass is not about to report a failure of the child or a conflict with it. */
  predicate IsClean(pc: R.RestorePc) { !pc.ConflictWrite? && !pc.FailureOff? && !pc.FailureWrite? }

  ghost predicate GoesOnClean(n: R.RestoreNext) { n.Go? ==> IsClean(n.pc) }

  // ---- one call

  lemma OpeningIsClean(a: Api, key: Key, copy: Object, r: Response)
    requires IsWell(a, key) && copy == a.objects[key] && Told(a, GetProviderRestore(key.name), r)
    ensures GoesOnClean(R.RestoreStep(R.BarrierGet, key, copy, r))
  {
  }

  lemma GateIsClean(key: Key, pc: R.RestorePc, copy: Object, r: Response)
    requires pc.ReadyChild? || pc.ReadyAsk? || pc.SourceChild? || pc.SourceAsk?
    ensures GoesOnClean(R.RestoreStep(pc, key, copy, r))
  {
  }

  lemma PreparationIsClean(key: Key, pc: R.RestorePc, copy: Object, r: Response)
    requires pc.MaintenanceGet? || pc.MaintenanceOn? || pc.PrepareChild? || pc.PrepareScaleDown? || pc.PrepareCleanup?
    ensures GoesOnClean(R.RestoreStep(pc, key, copy, r))
  {
  }

  lemma ChildIsClean(a: Api, key: Key, pc: R.RestorePc, copy: Object, r: Response)
    requires IsWell(a, key) && copy == a.objects[key] && Told(a, GetProviderRestore(key.name), r)
    requires pc.ChildGet? || pc.ChildGetAgain? || pc.WatchGet?
    ensures GoesOnClean(R.RestoreStep(pc, key, copy, r))
  {
  }

  lemma RecoveryIsClean(key: Key, pc: R.RestorePc, copy: Object, r: Response)
    requires pc.ScaleUpRun? || pc.ReadyObserve? || pc.FinalizeRun? || pc.MaintenanceOff?
    ensures GoesOnClean(R.RestoreStep(pc, key, copy, r))
  {
  }

  lemma ChildRequests(pc: R.RestorePc, key: Key, copy: Object)
    ensures pc.BarrierGet? || pc.ChildGet? || pc.ChildGetAgain? || pc.WatchGet? ==>
              R.RestoreRequest(pc, key, copy) == GetProviderRestore(key.name)
  {
  }

  lemma InnerIsClean(a: Api, key: Key, pc: R.RestorePc, copy: Object, r: Response)
    requires IsWell(a, key) && copy == a.objects[key] && IsInner(pc) && IsClean(pc) && Told(a, R.RestoreRequest(pc, key, copy), r)
    ensures GoesOnClean(R.RestoreStep(pc, key, copy, r))
  {
    ChildRequests(pc, key, copy);
    if pc.BarrierGet? { OpeningIsClean(a, key, copy, r); }
    else if pc.ChildGet? || pc.ChildGetAgain? || pc.WatchGet? { ChildIsClean(a, key, pc, copy, r); }
    else if pc.ScaleUpRun? || pc.ReadyObserve? || pc.FinalizeRun? || pc.MaintenanceOff? { RecoveryIsClean(key, pc, copy, r); }
    else if pc.ReadyChild? || pc.ReadyAsk? || pc.SourceChild? || pc.SourceAsk? { GateIsClean(key, pc, copy, r); }
    else { PreparationIsClean(key, pc, copy, r); }
  }

  /** The call goes on without trouble, or it ends the pass, and if it ends the restore, then with success. */
  ghost predicate GoesWell(a': Api, key: Key, n: R.RestoreNext) {
    if n.Go? then IsClean(n.pc) && IsWell(a', key)
    else IsOurs(a', key) && (Ended(a', key) ==> IsTrue(a'.objects[key].conditions, Succeeded))
  }

  lemma InnerIsFine(a: Api, key: Key, pc: R.RestorePc, copy: Object)
    requires Calm(a, key, pc, copy) && IsInner(pc) && IsClean(pc) && IsWell(a, key)
    ensures var (a', r) := Serve(a, R.RestoreRequest(pc, key, copy), CALM); GoesWell(a', key, R.RestoreStep(pc, key, copy, r))
  {
    var (a', r) := Serve(a, R.RestoreRequest(pc, key, copy), CALM);
    InnerCall(a, key, pc, copy);
    InnerIsBetter(a, key, pc, copy);
    InnerIsClean(a, key, pc, copy, r);
    MaintenanceKeepsWell(a, a', key);
  }

  lemma MaintenanceKeepsWell(a: Api, a': Api, key: Key)
    requires IsWell(a, key) && a' == a.(maintenance := a'.maintenance)
    ensures IsWell(a', key)
  {
  }

  lemma WriteIsFine(a: Api, key: Key, pc: R.RestorePc, copy: Object)
    requires Calm(a, key, pc, copy) && R.RestoreRequest(pc, key, copy).WriteStatus? && !pc.MigrateWrite? && IsClean(pc) && IsOurs(a, key)
    ensures GoesWell(Serve(a, R.RestoreRequest(pc, key, copy), CALM).0, key, R.Stop)
  {
    WriteStays(a, key, pc, copy);
    if pc.CompletedWrite? { CompletedIsSuccess(pc, key, copy); }
    Written(a, key, pc, copy);
  }

  lemma Written(a: Api, key: Key, pc: R.RestorePc, copy: Object)
    requires Calm(a, key, pc, copy) && R.RestoreRequest(pc, key, copy).WriteStatus? && !pc.MigrateWrite? && IsOurs(a, key)
    ensures var a' := Serve(a, R.RestoreRequest(pc, key, copy), CALM).0;
            IsOurs(a', key) && a'.objects[key].conditions == copy.conditions + R.RestoreRequest(pc, key, copy).changes
  {
    WriteStays(a, key, pc, copy);
    if !EndsRestore(pc) { WriteCounts(a, key, pc, copy, key.name in a.restores); }
    assert copy.conditions + R.RestoreRequest(pc, key, copy).changes != copy.conditions;
    WriteServed(a, key, R.RestoreRequest(pc, key, copy).changes, copy);
  }

  lemma CompletedIsSuccess(pc: R.RestorePc, key: Key, copy: Object)
    requires pc.CompletedWrite?
    ensures IsTrue(R.RestoreRequest(pc, key, copy).changes, Succeeded)
  {
  }

  lemma UpdateIsFine(a: Api, key: Key, copy: Object)
    requires Calm(a, key, R.MetadataUpdate, copy) && IsOurs(a, key)
    ensures GoesWell(Serve(a, R.RestoreRequest(R.MetadataUpdate, key, copy), CALM).0, key, R.Stop)
  {
  }

  lemma CreationIsFine(a: Api, key: Key, copy: Object)
    requires Calm(a, key, R.ChildCreate, copy) && IsOurs(a, key)
    ensures GoesWell(Serve(a, R.RestoreRequest(R.ChildCreate, key, copy), CALM).0, key, R.Stop)
  {
  }

  lemma EndingIsFine(a: Api, key: Key, pc: R.RestorePc, copy: Object)
    requires Calm(a, key, pc, copy) && !IsInner(pc) && !pc.MigrateWrite? && !pc.Acquire? && IsClean(pc) && IsOurs(a, key)
    ensures var (a', r) := Serve(a, R.RestoreRequest(pc, key, copy), CALM); GoesWell(a', key, R.RestoreStep(pc, key, copy, r))
  {
    PassEnds(a, key, pc, copy, Serve(a, R.RestoreRequest(pc, key, copy), CALM).1);
    if pc.MetadataUpdate? { UpdateIsFine(a, key, copy); }
    else if pc.ChildCreate? { CreationIsFine(a, key, copy); }
    else { WriteIsFine(a, key, pc, copy); }
  }

  lemma MigrationIsFine(a: Api, key: Key, pc: R.RestorePc, copy: Object)
    requires Calm(a, key, pc, copy) && pc.MigrateWrite? && IsWell(a, key)
    ensures var (a', r) := Serve(a, R.RestoreRequest(pc, key, copy), CALM); GoesWell(a', key, R.RestoreStep(pc, key, copy, r))
  {
    var (a', r) := Serve(a, R.RestoreRequest(pc, key, copy), CALM);
    MigrateCall(a, key, pc, copy);
    var migrated := map[Succeeded := LegacySucceeded(copy.legacy).value];
    assert copy.conditions + migrated == migrated;
    WriteServed(a, key, migrated, copy);
    MigrationGoesOnClean(pc, key, copy, r);
  }

  lemma MigrationGoesOnClean(pc: R.RestorePc, key: Key, copy: Object, r: Response)
    requires pc.MigrateWrite?
    ensures GoesOnClean(R.RestoreStep(pc, key, copy, r))
  {
  }

  lemma LeaseIsFine(a: Api, key: Key, pc: R.RestorePc, copy: Object)
    requires Calm(a, key, pc, copy) && pc.Acquire? && IsWell(a, key)
    ensures var (a', r) := Serve(a, R.RestoreRequest(pc, key, copy), CALM); GoesWell(a', key, R.RestoreStep(pc, key, copy, r))
  {
    if pc.acquire.Observe? {
      ObserveCall(a, key, pc, copy);
      AcquireGoesOnClean(pc, key, copy, Serve(a, R.RestoreRequest(pc, key, copy), CALM).1);
    } else {
      CreateCall(a, key, pc, copy);
    }
  }

  lemma AcquireGoesOnClean(pc: R.RestorePc, key: Key, copy: Object, r: Response)
    requires pc.Acquire?
    ensures GoesOnClean(R.RestoreStep(pc, key, copy, r))
  {
  }

  lemma CallIsFine(a: Api, key: Key, pc: R.RestorePc, copy: Object)
    requires Calm(a, key, pc, copy) && IsClean(pc) && IsWell(a, key)
    ensures var (a', r) := Serve(a, R.RestoreRequest(pc, key, copy), CALM); GoesWell(a', key, R.RestoreStep(pc, key, copy, r))
  {
    if pc.MigrateWrite? { MigrationIsFine(a, key, pc, copy); }
    else if pc.Acquire? { LeaseIsFine(a, key, pc, copy); }
    else if IsInner(pc) { InnerIsFine(a, key, pc, copy); }
    else { EndingIsFine(a, key, pc, copy); }
  }

  // ---- whole passes

  ghost predicate CleanLocal(s: World, key: Key) {
    CalmLocal(s, key) && IsClean(At(s, Reconciler(key)).pc.r) && IsWell(s.api, key)
  }

  ghost predicate EndsWell(s: World, key: Key) {
    IsOurs(s.api, key) && (Ended(s.api, key) ==> IsTrue(s.api.objects[key].conditions, Succeeded))
  }

  lemma CleanStep(s: World, key: Key)
    requires CleanLocal(s, key)
    ensures var s' := Step(s, Call(Reconciler(key), CALM));
            if At(s', Reconciler(key)).Busy? then CleanLocal(s', key) && CallsLeft(At(s', Reconciler(key)).pc.r) < CallsLeft(At(s, Reconciler(key)).pc.r)
            else EndsWell(s', key)
  {
    var l := At(s, Reconciler(key));
    CalmStep(s, key);
    CallIsFine(s.api, key, l.pc.r, l.copy);
    NoCreation(l.pc.r, key, l.copy);
  }

  lemma {:induction false} CleanCallsFinish(s: World, key: Key, fuel: nat)
    requires CleanLocal(s, key) && CallsLeft(At(s, Reconciler(key)).pc.r) <= fuel
    ensures EndsWell(Calls(s, Reconciler(key), fuel), key)
    decreases fuel
  {
    var s' := CleanNext(s, key, fuel);
    if At(s', Reconciler(key)).Busy? { CleanCallsFinish(s', key, fuel - 1); }
  }

  lemma CleanNext(s: World, key: Key, fuel: nat) returns (s': World)
    requires CleanLocal(s, key) && fuel > 0
    ensures Calls(s, Reconciler(key), fuel) == Calls(s', Reconciler(key), fuel - 1)
    ensures if At(s', Reconciler(key)).Busy? then CleanLocal(s', key) && CallsLeft(At(s', Reconciler(key)).pc.r) < CallsLeft(At(s, Reconciler(key)).pc.r)
            else EndsWell(s', key) && Calls(s', Reconciler(key), fuel - 1) == s'
  {
    s' := Step(s, Call(Reconciler(key), CALM));
    CleanStep(s, key);
  }

  lemma StartIsClean(o: Object)
    ensures GoesOnClean(R.Start(o))
  {
  }

  lemma CleanPassStarts(s: World, key: Key)
    requires Inv(s) && At(s, Reconciler(key)).Idle? && Able(s.api, key) && Settled(s.api, key) && IsWell(s.api, key)
    ensures CleanLocal(Step(s, Call(Reconciler(key), CALM)), key)
  {
    PassStarts(s, key);
    StartIsClean(s.api.objects[key]);
  }

  lemma PassEndsWell(s: World, key: Key)
    requires Inv(s) && At(s, Reconciler(key)).Idle? && Able(s.api, key) && IsOurs(s.api, key)
    ensures EndsWell(Pass(s, key, RestoreSucceeded), key)
  {
    var t := Step(s, Outside(ChildIs(key.name, RestoreSucceeded)));
    OutsideKeeps(s, ChildIs(key.name, RestoreSucceeded));
    assert Settled(t.api, key) && Able(t.api, key) && IsWell(t.api, key);
    PassStarts(t, key);
    CleanPassStarts(t, key);
    CleanCallsFinish(Step(t, Call(Reconciler(key), CALM)), key, 40);
  }

  lemma {:induction false} PassesSucceed(s: World, key: Key, k: nat)
    requires Inv(s) && At(s, Reconciler(key)).Idle? && Able(s.api, key) && IsOurs(s.api, key) && Left(s.api, key) <= k
    ensures exists i: nat :: i <= k && key in Passes(s, key, RestoreSucceeded, i).api.objects
                             && IsTrue(Passes(s, key, RestoreSucceeded, i).api.objects[key].conditions, Succeeded)
    decreases k
  {
    var t := Pass(s, key, RestoreSucceeded);
    PassAdvances(s, key, RestoreSucceeded);
    PassEndsWell(s, key);
    if Ended(t.api, key) {
      assert Passes(s, key, RestoreSucceeded, 1) == Passes(t, key, RestoreSucceeded, 0) == t;
    } else {
      PassesSucceed(t, key, k - 1);
      var i: nat :| i <= k - 1 && key in Passes(t, key, RestoreSucceeded, i).api.objects
                    && IsTrue(Passes(t, key, RestoreSucceeded, i).api.objects[key].conditions, Succeeded);
      assert Passes(s, key, RestoreSucceeded, i + 1) == Passes(t, key, RestoreSucceeded, i);
    }
  }

  /** From every reachable state, a restore that is still to be done, finds the lease free or its own and no foreign namesake
      of its child is successful within twelve undisturbed passes in which Velero lets the child succeed. */
  lemma RestoreSucceeds(run: seq<World>, actions: seq<Action>, n: nat, key: Key)
    requires IsRun(run, actions) && n < |run|
    requires At(run[n], Reconciler(key)).Idle? && Able(run[n].api, key) && IsOurs(run[n].api, key)
    ensures exists i: nat :: i <= 12 && key in Passes(run[n], key, RestoreSucceeded, i).api.objects
                             && IsTrue(Passes(run[n], key, RestoreSucceeded, i).api.objects[key].conditions, Succeeded)
  {
    InvHolds(run, actions, n);
    PassesSucceed(run[n], key, 12);
  }
}
