/** Every call of a restore pass is guarded, and leaves the pass knowing what its next step needs. */
module RestoreProof {
  import opened Conditions
  import opened Cluster
  import opened Leases
  import opened System
  import opened Invariant
  import opened Rely
  import opened Stability
  import opened RestoreWorkflow
  import P = BackupProof

  // ---- guards

  /** Which changes a restore pass may make to its conditions. */
  predicate Fair(o: Object, changes: Conditions) {
    (Prepared in changes ==> !IsTrue(o.conditions, Prepared) || changes[Prepared].status == True)
    && (Succeeded in changes ==> !Decided(o.conditions, Succeeded))
    && (changes != map[] ==> Succeeded in o.conditions || Succeeded in changes)
  }

  lemma FairEvolves(key: Key, o: Object, changes: Conditions)
    requires key.kind == Restore && BodyOk(key, o) && Fair(o, changes)
    requires Succeeded !in o.conditions && IsTerminal(Restore, o) && !o.deleting && Succeeded in changes ==>
               changes[Succeeded].status != Unknown
    ensures var o' := WithMerged(o, changes); Evolves(key, o, o') && BodyOk(key, o')
  {
    var o' := WithMerged(o, changes);
    if changes == map[] { assert o'.conditions == o.conditions; }
  }

  lemma OpeningWriteIsFair(a: Api, key: Key, pc: RestorePc, copy: Object)
    requires RestorePcOk(a, key, pc, copy) && RestoreOk(copy)
    requires pc.MigrateWrite? || pc.SeedWrite? || pc.ConflictWrite? || pc.WaitingWrite? || pc.InvalidWrite? || pc.LeaseHeldWrite?
    ensures Fair(copy, RestoreRequest(pc, key, copy).changes)
    ensures Succeeded !in copy.conditions && IsTerminal(Restore, copy) && Succeeded in RestoreRequest(pc, key, copy).changes ==>
              RestoreRequest(pc, key, copy).changes[Succeeded].status != Unknown
  {
  }

  lemma MiddleWriteIsFair(a: Api, key: Key, pc: RestorePc, copy: Object)
    requires RestorePcOk(a, key, pc, copy) && RestoreOk(copy)
    requires pc.UnreadyWrite? || pc.UnusableWrite? || pc.PrepareFailedWrite? || pc.PreparedWrite? || pc.FailureWrite? || pc.ObservedWrite?
    ensures Fair(copy, RestoreRequest(pc, key, copy).changes)
    ensures Succeeded !in copy.conditions && IsTerminal(Restore, copy) && Succeeded in RestoreRequest(pc, key, copy).changes ==>
              RestoreRequest(pc, key, copy).changes[Succeeded].status != Unknown
  {
  }

  lemma OtherWriteIsFair(a: Api, key: Key, pc: RestorePc, copy: Object)
    requires RestorePcOk(a, key, pc, copy) && RestoreOk(copy) && RestoreRequest(pc, key, copy).WriteStatus?
    requires !pc.MigrateWrite? && !pc.SeedWrite? && !pc.ConflictWrite? && !pc.WaitingWrite? && !pc.InvalidWrite? && !pc.LeaseHeldWrite?
    requires !pc.UnreadyWrite? && !pc.UnusableWrite? && !pc.PrepareFailedWrite? && !pc.PreparedWrite? && !pc.FailureWrite? && !pc.ObservedWrite?
    ensures Fair(copy, RestoreRequest(pc, key, copy).changes)
    ensures Succeeded !in copy.conditions && IsTerminal(Restore, copy) && Succeeded in RestoreRequest(pc, key, copy).changes ==>
              RestoreRequest(pc, key, copy).changes[Succeeded].status != Unknown
  {
  }

  lemma WriteIsFair(a: Api, key: Key, pc: RestorePc, copy: Object)
    requires RestorePcOk(a, key, pc, copy) && RestoreOk(copy) && RestoreRequest(pc, key, copy).WriteStatus?
    ensures Fair(copy, RestoreRequest(pc, key, copy).changes)
    ensures Succeeded !in copy.conditions && IsTerminal(Restore, copy) && Succeeded in RestoreRequest(pc, key, copy).changes ==>
              RestoreRequest(pc, key, copy).changes[Succeeded].status != Unknown
  {
    if pc.MigrateWrite? || pc.SeedWrite? || pc.ConflictWrite? || pc.WaitingWrite? || pc.InvalidWrite? || pc.LeaseHeldWrite? {
      OpeningWriteIsFair(a, key, pc, copy);
    } else if pc.UnreadyWrite? || pc.UnusableWrite? || pc.PrepareFailedWrite? || pc.PreparedWrite? || pc.FailureWrite? || pc.ObservedWrite? {
      MiddleWriteIsFair(a, key, pc, copy);
    } else {
      OtherWriteIsFair(a, key, pc, copy);
    }
  }

  lemma RestoreGuard(a: Api, key: Key, pc: RestorePc, copy: Object)
    requires ApiOk(a) && RestoreLocalOk(a, key, pc, copy)
    ensures Guard(a, Reconciler(key), RestoreRequest(pc, key, copy))
  {
    if RestoreRequest(pc, key, copy).WriteStatus? {
      WriteIsGood(a, key, pc, copy);
    } else if key in a.objects {
      assert ObjectOk(a, key);
    }
  }

  lemma WriteIsGood(a: Api, key: Key, pc: RestorePc, copy: Object)
    requires ApiOk(a) && RestoreLocalOk(a, key, pc, copy) && RestoreRequest(pc, key, copy).WriteStatus?
    ensures Guard(a, Reconciler(key), RestoreRequest(pc, key, copy))
  {
    var q := RestoreRequest(pc, key, copy);
    if key in a.objects {
      WriteIsFair(a, key, pc, copy);
      assert ObjectOk(a, key);
      FairEvolves(key, a.objects[key], q.changes);
    }
  }

  // ---- what the pass knows after its call

  ghost predicate NextOk(a: Api, key: Key, n: RestoreNext) {
    n.Go? ==> RestoreLocalOk(a, key, n.pc, n.copy)
  }

  /** A step that keeps its copy. */
  ghost predicate Onward(a: Api, key: Key, copy: Object, n: RestoreNext) {
    n.Go? ==> n.copy == copy && RestorePcOk(a, key, n.pc, copy)
  }

  lemma Continues(a: Api, key: Key, copy: Object, n: RestoreNext)
    requires key.kind == Restore && key.name != 0 && InStep(a, key, copy) && Onward(a, key, copy, n)
    ensures NextOk(a, key, n)
  {
  }

  lemma LeaseEntered(a: Api, key: Key, copy: Object)
    requires Working(a, key, copy)
    ensures Onward(a, key, copy, EnterLease(copy))
  {
    NothingMissing(copy.conditions, Succeeded);
  }

  lemma NothingMissing(c: Conditions, t: Type)
    requires Missing(c, INITIAL_RESTORE_CONDITIONS) == map[] && t in INITIAL_RESTORE_CONDITIONS
    ensures t in c
  {
    assert t in Missing(c, INITIAL_RESTORE_CONDITIONS) <==> t !in c;
  }

  lemma ReadyEntered(a: Api, key: Key, copy: Object)
    requires Holding(a, key, copy)
    ensures Onward(a, key, copy, EnterReady(copy))
  {
  }

  lemma MaintenanceEntered(a: Api, key: Key, copy: Object)
    requires Holding(a, key, copy)
    ensures Onward(a, key, copy, EnterMaintenance(copy)) && Onward(a, key, copy, EnterPreparation(copy))
            && Onward(a, key, copy, EnterSource(copy))
  {
  }

  lemma ChildEntered(a: Api, key: Key, copy: Object)
    requires Provided(a, key, copy)
    ensures Onward(a, key, copy, EnterChild(copy)) && Onward(a, key, copy, EnterWatch(copy))
  {
  }

  lemma BarrierNext(a: Api, key: Key, copy: Object, r: Response)
    requires RestorePcOk(a, key, BarrierGet, copy)
    ensures Onward(a, key, copy, RestoreStep(BarrierGet, key, copy, r))
  {
    LeaseEntered(a, key, copy);
  }

  lemma TakeNext(a: Api, key: Key, pc: RestorePc, copy: Object, r: Response)
    requires RestorePcOk(a, key, pc, copy) && pc.Acquire?
    requires var n := AcquireStep(pc.acquire, HolderOf(key, copy), r);
             (n.Going? ==> AcquireOk(a, HolderOf(key, copy), n.pc))
             && (n == Ended(Held) ==> Names(a.lease, key, copy.uid))
    ensures Onward(a, key, copy, RestoreStep(pc, key, copy, r))
  {
    if AcquireStep(pc.acquire, HolderOf(key, copy), r) == Ended(Held) { ReadyEntered(a, key, copy); }
  }

  /** A child that carries the restore's owner reference proves that the preparation was completed. */
  lemma GateNext(a: Api, key: Key, pc: RestorePc, copy: Object, r: Response)
    requires RestorePcOk(a, key, pc, copy) && (pc.ReadyChild? || pc.ReadyAsk? || pc.SourceChild? || pc.SourceAsk?)
    requires r.FoundProviderRestore? && IsOwned(copy, r.restore) ==> IsTrue(copy.conditions, Prepared)
    ensures Onward(a, key, copy, RestoreStep(pc, key, copy, r))
  {
    MaintenanceEntered(a, key, copy);
  }

  lemma PreparationNext(a: Api, key: Key, pc: RestorePc, copy: Object, r: Response)
    requires RestorePcOk(a, key, pc, copy)
    requires pc.MaintenanceGet? || pc.MaintenanceOn? || pc.PrepareChild? || pc.PrepareScaleDown? || pc.PrepareCleanup?
    requires r.FoundProviderRestore? && IsOwned(copy, r.restore) ==> IsTrue(copy.conditions, Prepared)
    ensures Onward(a, key, copy, RestoreStep(pc, key, copy, r))
  {
    MaintenanceEntered(a, key, copy);
  }

  lemma ProviderNext(a: Api, key: Key, pc: RestorePc, copy: Object, r: Response)
    requires RestorePcOk(a, key, pc, copy) && (pc.ChildGet? || pc.ChildGetAgain? || pc.WatchGet? || pc.FailureOff?)
    ensures Onward(a, key, copy, RestoreStep(pc, key, copy, r))
  {
    ChildEntered(a, key, copy);
  }

  lemma RecoveryNext(a: Api, key: Key, pc: RestorePc, copy: Object, r: Response)
    requires RestorePcOk(a, key, pc, copy) && (pc.ScaleUpRun? || pc.ReadyObserve? || pc.FinalizeRun? || pc.MaintenanceOff?)
    ensures Onward(a, key, copy, RestoreStep(pc, key, copy, r))
  {
  }

  lemma DeletionNext(a: Api, key: Key, copy: Object, r: Response)
    requires RestorePcOk(a, key, DeleteGet, copy)
    ensures Onward(a, key, copy, RestoreStep(DeleteGet, key, copy, r))
  {
  }

  lemma ReleaseNext(a: Api, key: Key, pc: RestorePc, copy: Object, r: Response)
    requires RestorePcOk(a, key, pc, copy) && pc.Release?
    requires pc.release.ObserveOwn? && r.FoundLease? ==> r.lease in a.past
    ensures Onward(a, key, copy, RestoreStep(pc, key, copy, r))
  {
  }

  // ---- all calls of a pass

  lemma KeepsPc(a: Api, a': Api, key: Key, pc: RestorePc, copy: Object)
    requires RestorePcOk(a, key, pc, copy) && !pc.Acquire? && !pc.Release? && a'.lease == a.lease && a'.past == a.past
    ensures RestorePcOk(a', key, pc, copy)
  {
  }

  lemma OwnedIsPrepared(a: Api, key: Key, copy: Object, n: Name)
    requires ApiOk(a) && key.kind == Restore && InStep(a, key, copy) && key in a.objects
    requires n in a.restores && IsOwned(copy, a.restores[n])
    ensures IsTrue(copy.conditions, Prepared)
  {
    assert ObjectOk(a, key);
  }

  lemma AnswerNext(a: Api, key: Key, pc: RestorePc, copy: Object, r: Response)
    requires RestorePcOk(a, key, pc, copy)
    requires var q := RestoreRequest(pc, key, copy); !OnObjects(q) && !OnLease(q)
    requires r.FoundProviderRestore? && IsOwned(copy, r.restore) ==> IsTrue(copy.conditions, Prepared)
    ensures Onward(a, key, copy, RestoreStep(pc, key, copy, r))
  {
    if pc.BarrierGet? { BarrierNext(a, key, copy, r); }
    else if pc.ReadyChild? || pc.ReadyAsk? || pc.SourceChild? || pc.SourceAsk? { GateNext(a, key, pc, copy, r); }
    else if pc.MaintenanceGet? || pc.MaintenanceOn? || pc.PrepareChild? || pc.PrepareScaleDown? || pc.PrepareCleanup? {
      PreparationNext(a, key, pc, copy, r);
    }
    else if pc.ChildGet? || pc.ChildGetAgain? || pc.WatchGet? || pc.FailureOff? { ProviderNext(a, key, pc, copy, r); }
    else if pc.ScaleUpRun? || pc.ReadyObserve? || pc.FinalizeRun? || pc.MaintenanceOff? { RecoveryNext(a, key, pc, copy, r); }
    else if pc.DeleteGet? { DeletionNext(a, key, copy, r); }
  }

  /** Calls on Velero, the maintenance flag and the workloads. */
  lemma ProviderServed(a: Api, key: Key, pc: RestorePc, copy: Object, c: Choice)
    requires ApiOk(a) && RestoreLocalOk(a, key, pc, copy)
    requires var q := RestoreRequest(pc, key, copy); !OnObjects(q) && !OnLease(q)
    ensures var (a', r) := Serve(a, RestoreRequest(pc, key, copy), c);
            NextOk(a', key, RestoreStep(pc, key, copy, r))
  {
    var q := RestoreRequest(pc, key, copy);
    var (a', r) := Serve(a, q, c);
    ServeCases(a, q, c);
    assert Effect(a, q, c) == ProviderCall(a, q, c);
    ProviderFrame(a, q, c);
    KeepsPc(a, a', key, pc, copy);
    assert InStep(a', key, copy);
    ChildFound(a, key, pc, copy, c);
    AnswerNext(a', key, pc, copy, r);
    Continues(a', key, copy, RestoreStep(pc, key, copy, r));
  }

  lemma ReadIsStored(a: Api, q: Request, c: Choice)
    ensures var r := Serve(a, q, c).1;
            r.FoundProviderRestore? ==> q.GetProviderRestore? && q.name in a.restores && r.restore == a.restores[q.name]
  {
  }

  lemma ReadsOwnChild(key: Key, pc: RestorePc, copy: Object)
    ensures RestoreRequest(pc, key, copy).GetProviderRestore? ==> RestoreRequest(pc, key, copy).name == key.name
  {
  }

  lemma ChildFound(a: Api, key: Key, pc: RestorePc, copy: Object, c: Choice)
    requires ApiOk(a) && InStep(a, key, copy) && key.kind == Restore
    ensures var r := Serve(a, RestoreRequest(pc, key, copy), c).1;
            r.FoundProviderRestore? && copy.finalizer && IsOwned(copy, r.restore) ==> IsTrue(copy.conditions, Prepared)
  {
    var q := RestoreRequest(pc, key, copy);
    var r := Serve(a, q, c).1;
    ReadIsStored(a, q, c);
    ReadsOwnChild(key, pc, copy);
    if r.FoundProviderRestore? && copy.finalizer && IsOwned(copy, r.restore) { OwnedIsPrepared(a, key, copy, key.name); }
  }

  lemma AcquireServed(a: Api, key: Key, pc: RestorePc, copy: Object, c: Choice)
    requires ApiOk(a) && RestoreLocalOk(a, key, pc, copy) && pc.Acquire? && (pc.acquire.Observe? || pc.acquire.Resolve?)
    ensures var (a', r) := Serve(a, RestoreRequest(pc, key, copy), c);
            a' == a && NextOk(a, key, RestoreStep(pc, key, copy, r))
  {
    var (a', r) := Serve(a, RestoreRequest(pc, key, copy), c);
    P.AcquireNextOk(a, HolderOf(key, copy), pc.acquire, r);
    if AcquireStep(pc.acquire, HolderOf(key, copy), r) == Ended(Held) {
      assert r.lease in a.past && Names(Some(r.lease), key, copy.uid);
    }
    TakeNext(a, key, pc, copy, r);
  }

  /** The call that takes the lease ends the pass. */
  lemma TakingServed(a: Api, key: Key, pc: RestorePc, copy: Object, c: Choice)
    requires pc.Acquire? && (pc.acquire.Create? || pc.acquire.TakeOver?)
    ensures RestoreStep(pc, key, copy, Serve(a, RestoreRequest(pc, key, copy), c).1).Stop?
  {
  }

  lemma ReleaseServed(a: Api, key: Key, pc: RestorePc, copy: Object, c: Choice)
    requires ApiOk(a) && RestoreLocalOk(a, key, pc, copy) && pc.Release?
    ensures var (a', r) := Serve(a, ReleaseRequest(pc.release), c);
            NextOk(a', key, RestoreStep(pc, key, copy, r))
  {
    var (a', r) := Serve(a, ReleaseRequest(pc.release), c);
    P.ReleaseAnswer(a, pc.release, c);
    ReleaseNext(a', key, pc, copy, r);
    Continues(a', key, copy, RestoreStep(pc, key, copy, r));
  }

  /** The migration goes on with what the server stored. */
  lemma MigrateServed(a: Api, key: Key, pc: RestorePc, copy: Object, c: Choice)
    requires ApiOk(a) && RestoreLocalOk(a, key, pc, copy) && pc.MigrateWrite?
    ensures var (a', r) := Serve(a, RestoreRequest(pc, key, copy), c);
            NextOk(a', key, RestoreStep(pc, key, copy, r))
  {
    var q := RestoreRequest(pc, key, copy);
    var (a', r) := Serve(a, q, c);
    if r.FoundObject? {
      assert (a', r) == ObjectCall(a, q, c);
      WriteIsGood(a, key, pc, copy);
      MigratedInStep(a, key, pc, copy, c);
      MigratedNext(a', key, pc, copy, r.obj);
    }
  }

  lemma MigratedInStep(a: Api, key: Key, pc: RestorePc, copy: Object, c: Choice)
    requires ApiOk(a) && RestoreLocalOk(a, key, pc, copy) && pc.MigrateWrite?
    requires Guard(a, Reconciler(key), RestoreRequest(pc, key, copy)) && key in a.objects
    ensures var (a', r) := ObjectCall(a, RestoreRequest(pc, key, copy), c);
            r.FoundObject? && InStep(a', key, r.obj) && Migrated(copy, r.obj)
            && a'.lease == a.lease && a'.past == a.past
  {
    assert ObjectOk(a, key);
  }

  predicate Migrated(copy: Object, o: Object) {
    o.uid == copy.uid && LegacySucceeded(copy.legacy).Some? && o.conditions == map[Succeeded := LegacySucceeded(copy.legacy).value]
  }

  lemma MigratedNext(a: Api, key: Key, pc: RestorePc, copy: Object, o: Object)
    requires RestorePcOk(a, key, pc, copy) && pc.MigrateWrite? && Migrated(copy, o)
    ensures Onward(a, key, o, RestoreStep(pc, key, copy, FoundObject(o)))
  {
    assert Missing(o.conditions, INITIAL_RESTORE_CONDITIONS)[Prepared] == PENDING;
  }

  lemma WritesEnd(key: Key, pc: RestorePc, copy: Object, r: Response)
    requires OnObjects(RestoreRequest(pc, key, copy)) && !pc.MigrateWrite? && !pc.Acquire?
    ensures RestoreStep(pc, key, copy, r).Stop?
  {
    WritesAt(key, pc, copy);
    OthersEnd(key, pc, copy, r);
  }

  /** The calls after which a pass may go on. */
  predicate MayGoOn(pc: RestorePc) {
    pc.MigrateWrite? || pc.BarrierGet? || pc.Acquire? || pc.ReadyChild? || pc.ReadyAsk? || pc.SourceChild? || pc.SourceAsk?
    || pc.MaintenanceGet? || pc.MaintenanceOn? || pc.PrepareChild? || pc.PrepareScaleDown? || pc.PrepareCleanup?
    || pc.ChildGet? || pc.ChildGetAgain? || pc.WatchGet? || pc.FailureOff?
    || pc.ScaleUpRun? || pc.ReadyObserve? || pc.FinalizeRun? || pc.MaintenanceOff? || pc.DeleteGet? || pc.Release?
  }

  lemma WritesAt(key: Key, pc: RestorePc, copy: Object)
    requires OnObjects(RestoreRequest(pc, key, copy)) && !pc.MigrateWrite? && !pc.Acquire?
    ensures !MayGoOn(pc)
  {
  }

  lemma OthersEnd(key: Key, pc: RestorePc, copy: Object, r: Response)
    requires !MayGoOn(pc)
    ensures RestoreStep(pc, key, copy, r).Stop?
  {
  }

  lemma RestoreServed(a: Api, key: Key, pc: RestorePc, copy: Object, c: Choice)
    requires ApiOk(a) && RestoreLocalOk(a, key, pc, copy)
    ensures var (a', r) := Serve(a, RestoreRequest(pc, key, copy), c);
            NextOk(a', key, RestoreStep(pc, key, copy, r))
  {
    var q := RestoreRequest(pc, key, copy);
    if pc.MigrateWrite? { MigrateServed(a, key, pc, copy, c); }
    else if pc.Release? { ReleaseServed(a, key, pc, copy, c); }
    else if pc.Acquire? {
      if pc.acquire.Observe? || pc.acquire.Resolve? { AcquireServed(a, key, pc, copy, c); }
      else { TakingServed(a, key, pc, copy, c); }
    }
    else if OnObjects(q) { WritesEnd(key, pc, copy, Serve(a, q, c).1); }
    else { ProviderServed(a, key, pc, copy, c); }
  }

  lemma Started(a: Api, key: Key, o: Object)
    requires key.kind == Restore && BodyOk(key, o) && (IsOpen(key, o) ==> Kept(a, key, o))
    requires Took(a, key, o.uid) ==> TakerFits(key, o)
    ensures Onward(a, key, o, Start(o))
  {
  }

  lemma RestoreStarts(a: Api, key: Key)
    requires ApiOk(a) && key in a.objects && key.kind == Restore
    ensures NextOk(a, key, Start(a.objects[key]))
  {
    var o := a.objects[key];
    assert ObjectOk(a, key);
    assert InStep(a, key, o);
    Started(a, key, o);
    Continues(a, key, o, Start(o));
  }
}
