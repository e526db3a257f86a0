/** Every call of a backup pass is guarded, and leaves the pass knowing what its next step needs. */
module BackupProof {
  import opened Conditions
  import opened Cluster
  import opened Leases
  import opened System
  import opened Invariant
  import opened Rely
  import opened Stability
  import opened BackupWorkflow

  // ---- guards

  /** Which single conditions a local run may write, and when. */
  lemma PutEvolves(key: Key, o: Object, t: Type, c: Condition, start: bool)
    requires key.kind == Backup && BodyOk(key, o) && !o.synced
    requires t == Prepared || t == Deleting
             || (t == Canceled && !IsPostProcessing(o.conditions) && !Decided(o.conditions, Succeeded) && o.finalizer)
             || (t == Succeeded && c.status == Unknown && !Decided(o.conditions, Succeeded))
             || (t == Succeeded && c == RunOutcome(o.conditions) && IsPostProcessing(o.conditions))
             || (t == ProviderSucceeded && !IsPostProcessing(o.conditions) && !Decided(o.conditions, Succeeded) && o.finalizer)
    ensures var o' := WithPatched(o, o.conditions[t := c], start); Evolves(key, o, o') && BodyOk(key, o')
  {
  }

  lemma DeletingEvolves(key: Key, o: Object, c: Condition)
    requires key.kind == Backup && BodyOk(key, o)
    ensures var o' := WithPatched(o, o.conditions[Deleting := c], false); Evolves(key, o, o') && BodyOk(key, o')
  {
    if !o.synced { PutEvolves(key, o, Deleting, c, false); }
  }

  lemma SeedEvolves(key: Key, o: Object)
    requires key.kind == Backup && BodyOk(key, o) && !o.synced && !IsPostProcessing(o.conditions) && !Decided(o.conditions, Succeeded)
    ensures var o' := WithPatched(o, o.conditions + Missing(o.conditions, INITIAL_BACKUP_CONDITIONS), false);
            Evolves(key, o, o') && BodyOk(key, o')
  {
  }

  lemma SyncEvolves(key: Key, o: Object, seen: ProviderBackup)
    requires key.kind == Backup && BodyOk(key, o) && o.synced && !Decided(o.conditions, Succeeded)
    ensures var r := BackupRequest(SyncPatch(seen), key, o);
            var o' := WithPatched(o, r.conditions, r.start);
            Evolves(key, o, o') && BodyOk(key, o')
  {
  }

  lemma OpeningPatchEvolves(a: Api, key: Key, pc: BackupPc, copy: Object, mark: Option<nat>)
    requires ApiOk(a) && BackupLocalOk(a, key, pc, copy, mark) && key in a.objects
    requires pc.SyncPatch? || pc.SeedPatch? || pc.OpenPatch? || pc.CancelPatch? || pc.PreparePatch?
    ensures var r := BackupRequest(pc, key, copy);
            var o' := WithPatched(a.objects[key], r.conditions, r.start);
            Evolves(key, a.objects[key], o') && BodyOk(key, o')
  {
    var o, r := a.objects[key], BackupRequest(pc, key, copy);
    assert ObjectOk(a, key);
    match pc
    case SyncPatch(seen) => SyncEvolves(key, o, seen);
    case SeedPatch => SeedEvolves(key, o);
    case PreparePatch(_) => PutEvolves(key, o, Prepared, r.conditions[Prepared], r.start);
    case OpenPatch(why) => PutEvolves(key, o, Canceled, Condition(False, why), r.start);
    case CancelPatch(why) => PutEvolves(key, o, Canceled, Condition(True, why), r.start);
  }

  lemma RunPatchEvolves(a: Api, key: Key, pc: BackupPc, copy: Object, mark: Option<nat>)
    requires ApiOk(a) && BackupLocalOk(a, key, pc, copy, mark) && key in a.objects
    requires pc.RunningPatch? || pc.ResultPatch? || pc.MaintenancePatch? || pc.OwnPatch? || pc.DonePatch?
    ensures var r := BackupRequest(pc, key, copy);
            var o' := WithPatched(a.objects[key], r.conditions, r.start);
            Evolves(key, a.objects[key], o') && BodyOk(key, o')
  {
    var o, r := a.objects[key], BackupRequest(pc, key, copy);
    assert ObjectOk(a, key);
    if pc.RunningPatch? || pc.ResultPatch? {
      PutEvolves(key, o, ProviderSucceeded, r.conditions[ProviderSucceeded], r.start);
    } else {
      PutEvolves(key, o, Succeeded, r.conditions[Succeeded], r.start);
    }
  }

  lemma PatchEvolves(a: Api, key: Key, pc: BackupPc, copy: Object, mark: Option<nat>)
    requires ApiOk(a) && BackupLocalOk(a, key, pc, copy, mark) && key in a.objects
    requires BackupRequest(pc, key, copy).PatchStatus?
    ensures var r := BackupRequest(pc, key, copy);
            var o' := WithPatched(a.objects[key], r.conditions, r.start);
            Evolves(key, a.objects[key], o') && BodyOk(key, o')
  {
    if pc.SyncPatch? || pc.SeedPatch? || pc.OpenPatch? || pc.CancelPatch? || pc.PreparePatch? {
      OpeningPatchEvolves(a, key, pc, copy, mark);
    } else if pc.RunningPatch? || pc.ResultPatch? || pc.MaintenancePatch? || pc.OwnPatch? || pc.DonePatch? {
      RunPatchEvolves(a, key, pc, copy, mark);
    } else {
      assert ObjectOk(a, key) && a.objects[key].conditions == copy.conditions;
      DeletingEvolves(key, a.objects[key], BackupRequest(pc, key, copy).conditions[Deleting]);
    }
  }

  lemma PatchIsGood(a: Api, key: Key, pc: BackupPc, copy: Object, mark: Option<nat>)
    requires ApiOk(a) && BackupLocalOk(a, key, pc, copy, mark)
    requires BackupRequest(pc, key, copy).PatchStatus?
    ensures Guard(a, Reconciler(key), BackupRequest(pc, key, copy))
  {
    if key in a.objects { PatchEvolves(a, key, pc, copy, mark); }
  }

  lemma BackupGuard(a: Api, key: Key, pc: BackupPc, copy: Object, mark: Option<nat>)
    requires ApiOk(a) && BackupLocalOk(a, key, pc, copy, mark)
    ensures Guard(a, Reconciler(key), BackupRequest(pc, key, copy))
  {
    if BackupRequest(pc, key, copy).PatchStatus? {
      PatchIsGood(a, key, pc, copy, mark);
    } else if key in a.objects {
      assert ObjectOk(a, key);
    }
  }

  // ---- what the pass knows after its call

  ghost predicate NextOk(a: Api, key: Key, n: BackupNext, mark: Option<nat>) {
    n.Go? ==> BackupLocalOk(a, key, n.pc, n.copy, mark)
  }

  /** A step that keeps its copy. */
  ghost predicate Onward(a: Api, key: Key, copy: Object, n: BackupNext) {
    n.Go? ==> n.copy == copy && BackupPcOk(a, key, n.pc, copy) && !n.pc.OwnPatch?
  }

  lemma SetupNext(a: Api, key: Key, pc: BackupPc, copy: Object, r: Response)
    requires BackupPcOk(a, key, pc, copy) && (pc.SyncGet? || pc.SetupList? || pc.WindowAsk? || pc.WindowGet?)
    ensures Onward(a, key, copy, BackupStep(pc, key, copy, r))
  {
  }

  lemma PrepareNext(a: Api, key: Key, pc: BackupPc, copy: Object, r: Response)
    requires BackupPcOk(a, key, pc, copy) && (pc.PrepareGet? || pc.PrepareAsk? || pc.PrepareList?)
    ensures Onward(a, key, copy, BackupStep(pc, key, copy, r))
  {
  }

  lemma RunNext(a: Api, key: Key, pc: BackupPc, copy: Object, r: Response)
    requires BackupPcOk(a, key, pc, copy) && (pc.MaintenanceGet? || pc.MaintenanceOn? || pc.OwnGet? || pc.WatchGet?)
    ensures Onward(a, key, copy, BackupStep(pc, key, copy, r))
  {
  }

  lemma DeleteNext(a: Api, key: Key, pc: BackupPc, copy: Object, r: Response)
    requires BackupPcOk(a, key, pc, copy) && (pc.OrphanGet? || pc.CanceledGet? || pc.DeleteGet?)
    ensures Onward(a, key, copy, BackupStep(pc, key, copy, r))
  {
  }

  lemma RequestNext(a: Api, key: Key, pc: BackupPc, copy: Object, r: Response)
    requires BackupPcOk(a, key, pc, copy) && (pc.RequestGet? || pc.RequestCreate? || pc.DropGet? || pc.DropDelete?)
    ensures Onward(a, key, copy, BackupStep(pc, key, copy, r))
  {
  }

  lemma CloseNext(a: Api, key: Key, pc: BackupPc, copy: Object, r: Response)
    requires BackupPcOk(a, key, pc, copy) && (pc.HoldsGet? || pc.OffGet? || pc.OffSwitch?)
    requires Took(a, key, copy.uid) ==> !copy.synced && copy.finalizer
    requires pc.HoldsGet? && r.FoundLease? ==> r.lease in a.past
    ensures Onward(a, key, copy, BackupStep(pc, key, copy, r))
  {
    if pc.HoldsGet? && r.FoundLease? && IsHolder(r.lease, HolderOf(key, copy)) { assert Names(Some(r.lease), key, copy.uid); }
  }

  lemma TakerIsLocal(a: Api, key: Key, copy: Object)
    requires LeaseOk(a) && InStep(a, key, copy) && copy.finalizer && key.kind == Backup
    ensures Took(a, key, copy.uid) ==> !copy.synced
  {
    assert key in a.objects;
  }

  lemma ReleaseNext(a: Api, key: Key, pc: BackupPc, copy: Object, r: Response)
    requires BackupPcOk(a, key, pc, copy) && pc.Release?
    requires pc.release.ObserveOwn? && r.FoundLease? ==> r.lease in a.past
    ensures Onward(a, key, copy, BackupStep(pc, key, copy, r))
  {
  }

  /** The lease manager's reads; what another holder looked like decides whether its lease is stale. */
  lemma AcquireNextOk(a: Api, me: Holder, pc: AcquirePc, r: Response)
    requires ApiOk(a) && AcquireOk(a, me, pc) && me.kind in {Backup, Restore}
    requires pc.Observe? && r.FoundLease? ==> r.lease in a.past
    requires pc.Resolve? ==>
               var key := Key(pc.seen.holder.kind, pc.seen.holder.name);
               (r.NotFound? ==> key !in a.objects) && (r.FoundObject? ==> key in a.objects && a.objects[key] == r.obj)
    ensures var n := AcquireStep(pc, me, r);
            (n.Going? ==> AcquireOk(a, me, n.pc))
            && (n == Ended(Held) ==> pc.Observe? && r.FoundLease? && r.lease.holder == me)
  {
  }

  lemma TakeNext(a: Api, key: Key, pc: BackupPc, copy: Object, r: Response)
    requires ApiOk(a) && BackupPcOk(a, key, pc, copy) && pc.Acquire? && (pc.acquire.Observe? || pc.acquire.Resolve?)
    requires key.kind == Backup
    requires pc.acquire.Observe? && r.FoundLease? ==> r.lease in a.past
    requires pc.acquire.Resolve? ==>
               var k := Key(pc.acquire.seen.holder.kind, pc.acquire.seen.holder.name);
               (r.NotFound? ==> k !in a.objects) && (r.FoundObject? ==> k in a.objects && a.objects[k] == r.obj)
    ensures Onward(a, key, copy, BackupStep(pc, key, copy, r))
  {
    AcquireNextOk(a, HolderOf(key, copy), pc.acquire, r);
  }

  // ---- steps that bring a new copy

  /** What a patch hands back agrees with the server. */
  lemma PatchedInStep(a: Api, key: Key, copy: Object, q: Request, c: Choice)
    requires ApiOk(a) && InStep(a, key, copy) && q.PatchStatus? && q.key == key && key in a.objects
    requires BodyOk(key, WithPatched(a.objects[key], q.conditions, q.start))
    ensures var (a', r) := ObjectCall(a, q, c);
            r.FoundObject? && InStep(a', key, r.obj) && Patched(q, copy, r.obj)
            && a'.lease == a.lease && a'.past == a.past && a'.created == a.created
  {
    assert ObjectOk(a, key);
  }

  predicate Patched(q: Request, copy: Object, o: Object)
    requires q.PatchStatus?
  {
    o.conditions == q.conditions && o.uid == copy.uid && o.finalizer == copy.finalizer && o.synced == copy.synced
    && (copy.deleting ==> o.deleting)
  }

  lemma PatchedPc(a: Api, a': Api, key: Key, pc: BackupPc, copy: Object, o: Object)
    requires BackupPcOk(a, key, pc, copy) && BodyOk(key, o) && key.kind == Backup
    requires pc.SeedPatch? || pc.OpenPatch? || pc.PreparePatch? || pc.ResultPatch?
    requires Patched(BackupRequest(pc, key, copy), copy, o) && a'.lease == a.lease && a'.past == a.past
    ensures Onward(a', key, o, BackupStep(pc, key, copy, FoundObject(o)))
  {
  }

  lemma PatchNext(a: Api, key: Key, pc: BackupPc, copy: Object, mark: Option<nat>, c: Choice)
    requires ApiOk(a) && BackupLocalOk(a, key, pc, copy, mark) && BackupRequest(pc, key, copy).PatchStatus?
    ensures var (a', r) := Serve(a, BackupRequest(pc, key, copy), c);
            NextOk(a', key, BackupStep(pc, key, copy, r), mark)
  {
    var q := BackupRequest(pc, key, copy);
    var (a', r) := Serve(a, q, c);
    if r.FoundObject? {
      assert (a', r) == ObjectCall(a, q, c);
      PatchEvolves(a, key, pc, copy, mark);
      PatchedInStep(a, key, copy, q, c);
      if pc.SeedPatch? || pc.OpenPatch? || pc.PreparePatch? || pc.ResultPatch? {
        PatchedPc(a, a', key, pc, copy, r.obj);
      }
    }
  }

  lemma UpdatedInStep(a: Api, key: Key, copy: Object, c: Choice)
    requires ApiOk(a) && InStep(a, key, copy)
    ensures var (a', r) := ObjectCall(a, UpdateMetadata(key, copy.uid, copy.version, true), c);
            r.FoundObject? ==>
              InStep(a', key, r.obj) && r.obj == copy.(finalizer := true, labeled := true, version := r.obj.version, source := r.obj.source)
              && a'.lease == a.lease && a'.past == a.past && a'.created == a.created
  {
    if key in a.objects { assert ObjectOk(a, key); }
  }

  lemma UpdateNext(a: Api, key: Key, copy: Object, mark: Option<nat>, c: Choice)
    requires ApiOk(a) && BackupLocalOk(a, key, SetupUpdate, copy, mark)
    ensures var (a', r) := Serve(a, BackupRequest(SetupUpdate, key, copy), c);
            NextOk(a', key, BackupStep(SetupUpdate, key, copy, r), mark)
  {
    var q := UpdateMetadata(key, copy.uid, copy.version, true);
    var (a', r) := Serve(a, q, c);
    if r.FoundObject? {
      assert (a', r) == ObjectCall(a, q, c);
      UpdatedInStep(a, key, copy, c);
    }
  }

  // ---- all calls of a pass

  lemma KeepsPc(a: Api, a': Api, key: Key, pc: BackupPc, copy: Object)
    requires BackupPcOk(a, key, pc, copy) && !pc.Acquire? && a'.lease == a.lease && a'.past == a.past
    ensures BackupPcOk(a', key, pc, copy)
  {
  }

  /** Calls on Velero and the maintenance flag. */
  lemma ProviderNext(a: Api, key: Key, pc: BackupPc, copy: Object, mark: Option<nat>, c: Choice)
    requires ApiOk(a) && BackupLocalOk(a, key, pc, copy, mark)
    requires var q := BackupRequest(pc, key, copy); !OnObjects(q) && !OnLease(q)
    ensures var (a', r) := Serve(a, BackupRequest(pc, key, copy), c);
            NextOk(a', key, BackupStep(pc, key, copy, r), mark)
  {
    var q := BackupRequest(pc, key, copy);
    var (a', r) := Serve(a, q, c);
    ServeCases(a, q, c);
    assert Effect(a, q, c) == ProviderCall(a, q, c);
    ProviderFrame(a, q, c);
    if pc.OwnCreate? {
      OwnCreateNext(a, a', key, copy, mark, r);
    } else {
      assert a'.created == a.created;
      KeepsPc(a, a', key, pc, copy);
      AnswerNext(a', key, pc, copy, r);
    }
  }

  lemma AnswerNext(a: Api, key: Key, pc: BackupPc, copy: Object, r: Response)
    requires BackupPcOk(a, key, pc, copy) && !pc.OwnCreate?
    requires var q := BackupRequest(pc, key, copy); !OnObjects(q) && !OnLease(q)
    ensures Onward(a, key, copy, BackupStep(pc, key, copy, r))
  {
    if pc.SyncGet? || pc.SetupList? || pc.WindowAsk? || pc.WindowGet? { SetupNext(a, key, pc, copy, r); }
    else if pc.PrepareGet? || pc.PrepareAsk? || pc.PrepareList? { PrepareNext(a, key, pc, copy, r); }
    else if pc.MaintenanceGet? || pc.MaintenanceOn? || pc.OwnGet? || pc.WatchGet? { RunNext(a, key, pc, copy, r); }
    else if pc.OffGet? || pc.OffSwitch? { CloseNext(a, key, pc, copy, r); }
    else if pc.OrphanGet? || pc.CanceledGet? || pc.DeleteGet? { DeleteNext(a, key, pc, copy, r); }
    else { RequestNext(a, key, pc, copy, r); }
  }

  lemma OwnCreateNext(a: Api, a': Api, key: Key, copy: Object, mark: Option<nat>, r: Response)
    requires BackupLocalOk(a, key, OwnCreate, copy, mark)
    requires a'.lease == a.lease && a'.past == a.past && a'.objects == a.objects && a.counter <= a'.counter
    ensures NextOk(a', key, BackupStep(OwnCreate, key, copy, r), mark)
  {
  }

  /** Calls on the lease, and the read of another holder. */
  lemma LeaseNext(a: Api, key: Key, pc: BackupPc, copy: Object, mark: Option<nat>, c: Choice)
    requires ApiOk(a) && BackupLocalOk(a, key, pc, copy, mark) && (pc.Acquire? || pc.HoldsGet? || pc.Release?)
    ensures var (a', r) := Serve(a, BackupRequest(pc, key, copy), c);
            NextOk(a', key, BackupStep(pc, key, copy, r), mark)
  {
    var q := BackupRequest(pc, key, copy);
    var (a', r) := Serve(a, q, c);
    ServeCases(a, q, c);
    if pc.Acquire? && (pc.acquire.Create? || pc.acquire.TakeOver?) {
      TakingEnds(pc, key, copy, r);
    } else if pc.Acquire? {
      assert a' == a;
      TakeNext(a, key, pc, copy, r);
    } else if pc.HoldsGet? {
      assert a' == a;
      TakerIsLocal(a, key, copy);
      CloseNext(a, key, pc, copy, r);
    } else {
      ReleaseServed(a, key, pc, copy, mark, c);
    }
  }

  lemma TakingEnds(pc: BackupPc, key: Key, copy: Object, r: Response)
    requires pc.Acquire? && (pc.acquire.Create? || pc.acquire.TakeOver?)
    ensures BackupStep(pc, key, copy, r).Stop?
  {
  }

  lemma ReleaseAnswer(a: Api, pc: ReleasePc, c: Choice)
    requires PastOk(a)
    ensures var (a', r) := Serve(a, ReleaseRequest(pc), c);
            a'.objects == a.objects && a'.past == a.past && a'.created == a.created && a'.counter == a.counter
            && (a'.lease == a.lease || a'.lease == None)
            && (pc.ObserveOwn? ==> a' == a && (r.FoundLease? ==> r.lease in a.past))
            && (pc.Delete? && (r.Done? || r.NotFound?) ==> a'.lease.None?)
  {
  }

  lemma ReleaseServed(a: Api, key: Key, pc: BackupPc, copy: Object, mark: Option<nat>, c: Choice)
    requires ApiOk(a) && BackupLocalOk(a, key, pc, copy, mark) && pc.Release?
    ensures var (a', r) := Serve(a, ReleaseRequest(pc.release), c);
            NextOk(a', key, BackupStep(pc, key, copy, r), mark)
  {
    var (a', r) := Serve(a, ReleaseRequest(pc.release), c);
    ReleaseAnswer(a, pc.release, c);
    ReleaseNext(a', key, pc, copy, r);
  }

  lemma DeletingEnds(key: Key, pc: BackupPc, copy: Object, r: Response)
    requires pc.OrphanDelete? || pc.FinalizerDrop?
    ensures BackupStep(pc, key, copy, r).Stop?
  {
  }

  lemma BackupServed(a: Api, key: Key, pc: BackupPc, copy: Object, mark: Option<nat>, c: Choice)
    requires ApiOk(a) && BackupLocalOk(a, key, pc, copy, mark)
    ensures var (a', r) := Serve(a, BackupRequest(pc, key, copy), c);
            NextOk(a', key, BackupStep(pc, key, copy, r), mark)
  {
    var q := BackupRequest(pc, key, copy);
    if pc.Acquire? || pc.HoldsGet? || pc.Release? { LeaseNext(a, key, pc, copy, mark, c); }
    else if q.PatchStatus? { PatchNext(a, key, pc, copy, mark, c); }
    else if pc.SetupUpdate? { UpdateNext(a, key, copy, mark, c); }
    else if pc.OrphanDelete? || pc.FinalizerDrop? { DeletingEnds(key, pc, copy, Serve(a, q, c).1); }
    else { ProviderNext(a, key, pc, copy, mark, c); }
  }

  lemma BackupStarts(a: Api, key: Key)
    requires ApiOk(a) && key in a.objects && key.kind == Backup
    ensures NextOk(a, key, Start(a.objects[key]), None)
  {
    assert ObjectOk(a, key);
  }
}
