/** What each call guarantees to the shared state, and what every worker may rely on while others call. */
module Rely {
  import opened Conditions
  import opened Cluster
  import opened Leases
  import opened System
  import opened Invariant
  import B = BackupWorkflow
  import R = RestoreWorkflow

  /** A status write moves an operation forward only. */
  ghost predicate Evolves(key: Key, o: Object, o': Object) {
    o'.uid == o.uid && o'.synced == o.synced && o'.finalizer == o.finalizer && o'.deleting == o.deleting
    && (Decided(o.conditions, Succeeded) ==> Decided(o'.conditions, Succeeded))
    && (Succeeded in o.conditions ==> Succeeded in o'.conditions)
    && (key.kind == Backup && B.IsPostProcessing(o.conditions) ==> B.IsPostProcessing(o'.conditions))
    && (key.kind == Restore && IsTrue(o.conditions, Prepared) ==> IsTrue(o'.conditions, Prepared))
    && (IsOpen(key, o') ==> IsOpen(key, o))
    && (key.kind == Backup && Decided(o.conditions, ProviderSucceeded) && !IsTrue(o.conditions, Canceled) ==>
          Decided(o'.conditions, ProviderSucceeded) && !IsTrue(o'.conditions, Canceled))
  }

  ghost predicate GoodWrite(a: Api, key: Key, o': Object)
    requires key in a.objects
  {
    Evolves(key, a.objects[key], o') && BodyOk(key, o')
  }

  /** The worker's own object exists and the lease names it. */
  ghost predicate HoldsLease(a: Api, w: Worker) {
    w.Reconciler? && w.key in a.objects && Names(a.lease, w.key, a.objects[w.key].uid)
  }

  /** The worker's own object exists, has not ended, and never took the lease without having it now. */
  ghost predicate MayTake(a: Api, w: Worker, h: Holder) {
    w.Reconciler? && w.key.kind in {Backup, Restore} && w.key in a.objects
    && h == HolderOf(w.key, a.objects[w.key]) && TakerFits(w.key, a.objects[w.key])
    && !Decided(a.objects[w.key].conditions, Succeeded)
    && (Took(a, w.key, h.uid) ==> Names(a.lease, w.key, h.uid))
  }

  /** The condition under which a call keeps the shared state in order. */
  ghost predicate Guard(a: Api, w: Worker, r: Request) {
    match r
    case WriteStatus(key, changes) =>
      w == Reconciler(key) && key.kind == Restore
      && (key in a.objects ==> GoodWrite(a, key, WithMerged(a.objects[key], changes)))
    case PatchStatus(key, conditions, start) =>
      w == Reconciler(key) && key.kind == Backup
      && (key in a.objects ==> GoodWrite(a, key, WithPatched(a.objects[key], conditions, start)))
    case UpdateMetadata(key, uid, version, finalizer) =>
      w == Reconciler(key)
      && (key in a.objects && !finalizer && a.objects[key].version == version && a.objects[key].uid == uid ==>
            a.objects[key].deleting)
    case CreateLease(h) => MayTake(a, w, h)
    case UpdateLease(seen, h) =>
      MayTake(a, w, h) && seen in a.past && IsNamed(seen) && seen.holder != h
      && (a.lease == Some(seen) ==> !IsActive(a, seen.holder))
    case DeleteLease(seen) =>
      seen in a.past
      && (a.lease == Some(seen) ==> HoldsLease(a, w) && !IsOpen(w.key, a.objects[w.key]))
    case CreateProviderBackup(_) => HoldsLease(a, w)
    case CreateProviderRestore(_, owner, _) =>
      HoldsLease(a, w) && w.key.kind == Restore && a.objects[w.key].uid == owner
      && IsTrue(a.objects[w.key].conditions, Prepared)
    case DoWork(_) => HoldsLease(a, w)
    case _ => true
  }

  predicate Writes(r: Request, key: Key) { (r.WriteStatus? || r.PatchStatus? || r.UpdateMetadata?) && r.key == key }

  /** What a worker on `key` sees of the calls of others: of its own object ... */
  ghost predicate ObjectQuiet(a: Api, a': Api, key: Key) {
    a.counter <= a'.counter
    && (key in a'.objects ==>
          key in a.objects
          && (var o, o' := a.objects[key], a'.objects[key];
              o'.uid == o.uid && o'.conditions == o.conditions && o'.started == o.started && o'.legacy == o.legacy
              && o'.finalizer == o.finalizer && o'.synced == o.synced && (o.deleting ==> o'.deleting)
              && ((o'.version == o.version && o'.deleting == o.deleting) || o'.version >= a.counter)))
    && (key in a.objects && a.objects[key].finalizer ==> key in a'.objects)
  }

  /** ... and of the lease, and of the provider backups that were created. */
  ghost predicate LeaseQuiet(a: Api, a': Api, key: Key) {
    a.past <= a'.past && |a.created| <= |a'.created|
    && (forall uid :: Names(a'.lease, key, uid) ==> Names(a.lease, key, uid) && a'.created == a.created)
    && (key in a.objects && !IsTerminal(key.kind, a.objects[key]) && Names(a.lease, key, a.objects[key].uid) ==>
          Names(a'.lease, key, a.objects[key].uid))
    && (forall l, uid :: l in a'.past && Names(Some(l), key, uid) ==> l in a.past)
  }

  ghost predicate Quiet(a: Api, a': Api, key: Key) { ObjectQuiet(a, a', key) && LeaseQuiet(a, a', key) }

  /** What was decided about an old lease version stays right. */
  ghost predicate StaleStays(a: Api, a': Api) {
    forall seen :: seen in a.past && IsNamed(seen) && a'.lease == Some(seen) ==>
      a.lease == Some(seen) && (!IsActive(a, seen.holder) ==> !IsActive(a', seen.holder))
  }

  // ---- storing an object

  lemma StoreKeeps(a: Api, key: Key, o': Object)
    requires ApiOk(a) && key in a.objects
    requires a.objects[key].uid == o'.uid && BodyOk(key, o') && (IsOpen(key, o') ==> IsOpen(key, a.objects[key]))
    requires TakerFits(key, a.objects[key]) ==> TakerFits(key, o')
    requires key.kind == Restore && IsTrue(a.objects[key].conditions, Prepared) ==> IsTrue(o'.conditions, Prepared)
    ensures ApiOk(Store(a, key, o'))
  {
    var a' := Store(a, key, o');
    forall k | k in a'.objects ensures ObjectOk(a', k) {
      assert ObjectOk(a, k);
    }
    assert TakersOk(a') by {
      forall k | k in a'.objects && Took(a', k, a'.objects[k].uid) ensures TakerFits(k, a'.objects[k]) {
        assert Took(a, k, a.objects[k].uid);
      }
    }
    assert PastOk(a');
  }

  lemma RemoveKeeps(a: Api, key: Key)
    requires ApiOk(a) && key in a.objects
    ensures ApiOk(a.(objects := a.objects - {key}))
  {
    var a' := a.(objects := a.objects - {key});
    forall k | k in a'.objects ensures ObjectOk(a', k) { assert ObjectOk(a, k); }
    forall k | k in a'.objects && Took(a', k, a'.objects[k].uid) ensures TakerFits(k, a'.objects[k]) {
      assert Took(a, k, a.objects[k].uid);
    }
    assert PastOk(a');
  }

  lemma CreateKeeps(a: Api, key: Key, o: Object)
    requires ApiOk(a) && key !in a.objects && key.name != 0 && key.kind in {Backup, Restore}
    requires o.uid == a.counter && BodyOk(key, o)
    ensures ApiOk(Store(a, key, o))
  {
    var a' := Store(a, key, o);
    forall k | k in a'.objects ensures ObjectOk(a', k) {
      if k != key { assert ObjectOk(a, k); }
    }
    forall k | k in a.objects ensures a.objects[k].uid < a.counter { assert ObjectOk(a, k); }
    assert PastOk(a');
    forall k | k in a'.objects && Took(a', k, a'.objects[k].uid) ensures TakerFits(k, a'.objects[k]) {
      assert k != key && Took(a, k, a.objects[k].uid);
    }
    forall l, k | l in a'.past && k in a'.objects && Names(Some(l), k, a'.objects[k].uid) && IsOpen(k, a'.objects[k])
      ensures Names(a'.lease, k, a'.objects[k].uid)
    {
      assert l.holder.uid < a.counter;
    }
  }

  // ---- every guarded call keeps the shared state in order

  lemma ObjectCallKeeps(a: Api, w: Worker, r: Request, c: Choice)
    requires ApiOk(a) && OnObjects(r) && Guard(a, w, r)
    ensures ApiOk(ObjectCall(a, r, c).0)
  {
    match r
    case WriteStatus(key, changes) =>
      if key in a.objects && WithMerged(a.objects[key], changes) != a.objects[key] {
        StoreKeeps(a, key, WithMerged(a.objects[key], changes));
      }
    case PatchStatus(key, conditions, start) =>
      if key in a.objects { StoreKeeps(a, key, WithPatched(a.objects[key], conditions, start)); }
    case UpdateMetadata(key, uid, version, finalizer) =>
      if key in a.objects {
        var o := a.objects[key];
        assert ObjectOk(a, key);
        if o.uid != uid || o.version != version || (finalizer && !o.finalizer && o.deleting) {
        } else if o.deleting && !finalizer {
          RemoveKeeps(a, key);
        } else {
          StoreKeeps(a, key, o.(finalizer := finalizer, labeled := true));
        }
      }
    case DeleteObject(key) => DeleteKeeps(a, key);
    case CreateSynced(name) =>
      if name != 0 && Key(Backup, name) !in a.objects {
        CreateKeeps(a, Key(Backup, name), Object(a.counter, 0, false, true, true, true, 0, false, map[], NoLegacy));
      }
    case _ =>
  }

  lemma DeleteKeeps(a: Api, key: Key)
    requires ApiOk(a)
    ensures forall c :: ApiOk(ObjectCall(a, DeleteObject(key), c).0)
  {
    if key in a.objects {
      assert ObjectOk(a, key);
      if a.objects[key].finalizer {
        StoreKeeps(a, key, a.objects[key].(deleting := true));
      } else {
        RemoveKeeps(a, key);
      }
    }
  }

  /** The new version names an object that took the lease for the first time. */
  lemma NewTaker(a: Api, w: Worker, h: Holder, l': Lease)
    requires ApiOk(a) && MayTake(a, w, h) && l'.holder == h && l'.version == a.counter
    requires a.lease.Some? && IsNamed(a.lease.value) ==> !IsActive(a, a.lease.value.holder)
    ensures LeaseOk(StoreLease(a, l'))
  {
    var a' := StoreLease(a, l');
    assert ObjectOk(a, w.key);
    forall l | l in a.past ensures l.holder != h {
      if l.holder == h {
        assert Names(Some(l), w.key, h.uid);
        assert IsActive(a, h);
      }
    }
    forall k | k in a'.objects && Took(a', k, a'.objects[k].uid) ensures TakerFits(k, a'.objects[k]) {
      var l :| l in a'.past && Names(Some(l), k, a'.objects[k].uid);
      if l in a.past { assert Took(a, k, a.objects[k].uid); }
    }
  }

  lemma StoreLeaseKeeps(a: Api, w: Worker, h: Holder, uid: nat)
    requires ApiOk(a) && MayTake(a, w, h)
    requires a.lease.Some? && IsNamed(a.lease.value) ==> !IsActive(a, a.lease.value.holder)
    ensures ApiOk(StoreLease(a, Lease(uid, a.counter, h)))
  {
    var l' := Lease(uid, a.counter, h);
    var a' := StoreLease(a, l');
    assert ObjectOk(a, w.key);
    forall k | k in a'.objects ensures ObjectOk(a', k) { assert ObjectOk(a, k); }
    NewTaker(a, w, h, l');
    forall l, k | l in a'.past && k in a'.objects && Names(Some(l), k, a'.objects[k].uid) && IsOpen(k, a'.objects[k])
      ensures Names(a'.lease, k, a'.objects[k].uid)
    {
      if l in a.past {
        assert Names(a.lease, k, a.objects[k].uid);
        assert ObjectOk(a, k);
        OpenIsActive(a, k);
      }
    }
  }

  /** An operation that is still to be done and holds the lease is an active holder. */
  lemma OpenIsActive(a: Api, key: Key)
    requires ApiOk(a) && key in a.objects && IsOpen(key, a.objects[key]) && Names(a.lease, key, a.objects[key].uid)
    ensures key.kind in {Backup, Restore} ==> IsNamed(a.lease.value) && IsActive(a, a.lease.value.holder)
  {
    assert ObjectOk(a, key);
  }

  lemma LeaseCallKeeps(a: Api, w: Worker, r: Request, c: Choice)
    requires ApiOk(a) && OnLease(r) && Guard(a, w, r)
    ensures ApiOk(LeaseCall(a, r, c).0)
  {
    match r
    case CreateLease(h) => if a.lease.None? { StoreLeaseKeeps(a, w, h, a.counter); }
    case UpdateLease(seen, h) =>
      if a.lease.Some? && a.lease.value.version == seen.version {
        assert a.lease == Some(seen);
        StoreLeaseKeeps(a, w, h, seen.uid);
      }
    case DeleteLease(seen) =>
      if a.lease.Some? && a.lease.value.uid == seen.uid && a.lease.value.version == seen.version {
        assert a.lease == Some(seen);
        DropLeaseKeeps(a, w.key);
      }
    case _ =>
  }

  lemma DropLeaseKeeps(a: Api, key: Key)
    requires ApiOk(a) && key in a.objects && Names(a.lease, key, a.objects[key].uid) && !IsOpen(key, a.objects[key])
    ensures ApiOk(a.(lease := None))
  {
    var a' := a.(lease := None);
    forall k | k in a'.objects ensures ObjectOk(a', k) { assert ObjectOk(a, k); }
    SamePastKeeps(a, a');
    assert forall k :: k in a.objects && IsOpen(k, a.objects[k]) ==> !Names(a.lease, k, a.objects[k].uid);
  }

  lemma SamePastKeeps(a: Api, a': Api)
    requires LeaseOk(a) && a'.past == a.past && a'.objects == a.objects && a.counter <= a'.counter
    requires a'.lease == a.lease || a'.lease.None?
    ensures LeaseOk(a')
  {
    forall k | k in a'.objects && Took(a', k, a'.objects[k].uid) ensures TakerFits(k, a'.objects[k]) {
      assert Took(a, k, a.objects[k].uid);
    }
  }

  /** Calls on Velero, the maintenance flag and the workloads leave resources and lease alone. */
  lemma ProviderFrame(a: Api, r: Request, c: Choice)
    requires !OnObjects(r) && !OnLease(r)
    ensures var a' := ProviderCall(a, r, c).0;
            a'.objects == a.objects && a'.lease == a.lease && a'.past == a.past && a.counter <= a'.counter
            && (r.CreateProviderBackup? || a'.created == a.created)
            && (a'.created == a.created || (r.CreateProviderBackup? && a'.created == a.created + [r.name]))
            && ((a'.parents == a.parents
                 && forall n :: n in a'.restores ==> n in a.restores && a'.restores[n].owner == a.restores[n].owner)
                || (r.CreateProviderRestore? && a'.parents == a.parents + {r.owner}
                    && forall n :: n in a'.restores ==>
                         a'.restores[n].owner == r.owner || (n in a.restores && a'.restores[n].owner == a.restores[n].owner)))
  {
  }

  lemma ProviderCallKeeps(a: Api, w: Worker, r: Request, c: Choice)
    requires ApiOk(a) && !OnObjects(r) && !OnLease(r) && Guard(a, w, r)
    ensures ApiOk(ProviderCall(a, r, c).0)
  {
    ProviderFrame(a, r, c);
    ProviderChangeKeeps(a, ProviderCall(a, r, c).0, w, r);
  }

  lemma ProviderChangeKeeps(a: Api, a': Api, w: Worker, r: Request)
    requires ApiOk(a)
    requires a'.objects == a.objects && a'.lease == a.lease && a'.past == a.past && a.counter <= a'.counter
    requires (a'.parents == a.parents
              && forall n :: n in a'.restores ==> n in a.restores && a'.restores[n].owner == a.restores[n].owner)
             || (r.CreateProviderRestore? && Guard(a, w, r) && a'.parents == a.parents + {r.owner}
                 && forall n :: n in a'.restores ==>
                      a'.restores[n].owner == r.owner || (n in a.restores && a'.restores[n].owner == a.restores[n].owner))
    ensures ApiOk(a')
  {
    forall k | k in a'.objects ensures ObjectOk(a', k) {
      assert ObjectOk(a, k);
      if a'.parents != a.parents { assert ObjectOk(a, w.key); }
    }
    if a'.parents != a.parents { assert ObjectOk(a, w.key); }
    SamePastKeeps(a, a');
    assert ParentsOk(a') && KeptOk(a');
  }

  lemma EffectKeeps(a: Api, w: Worker, r: Request, c: Choice)
    requires ApiOk(a) && Guard(a, w, r)
    ensures ApiOk(Effect(a, r, c).0)
  {
    if OnObjects(r) {
      ObjectCallKeeps(a, w, r, c);
      assert Effect(a, r, c) == ObjectCall(a, r, c);
    } else if OnLease(r) {
      LeaseCallKeeps(a, w, r, c);
      assert Effect(a, r, c) == LeaseCall(a, r, c);
    } else {
      ProviderCallKeeps(a, w, r, c);
      assert Effect(a, r, c) == ProviderCall(a, r, c);
    }
  }

  lemma ServeKeeps(a: Api, w: Worker, r: Request, c: Choice)
    requires ApiOk(a) && Guard(a, w, r)
    ensures ApiOk(Serve(a, r, c).0)
  {
    EffectKeeps(a, w, r, c);
    ServeCases(a, r, c);
  }

  // ---- every guarded call is quiet for the others

  lemma LeaseStaysOnObjectCall(a: Api, r: Request, c: Choice)
    requires OnObjects(r)
    ensures var a' := ObjectCall(a, r, c).0; a'.lease == a.lease && a'.past == a.past && a'.created == a.created
  {
  }

  lemma StatusFrame(a: Api, r: Request, c: Choice, key: Key)
    requires (r.WriteStatus? || r.PatchStatus?) && r.key != key
    ensures var a' := ObjectCall(a, r, c).0;
            a.counter <= a'.counter && (key in a'.objects <==> key in a.objects)
            && (key in a.objects ==> a'.objects[key] == a.objects[key])
  {
  }

  lemma MetadataFrame(a: Api, r: Request, c: Choice, key: Key)
    requires r.UpdateMetadata? && r.key != key
    ensures var a' := ObjectCall(a, r, c).0;
            a.counter <= a'.counter && (key in a'.objects <==> key in a.objects)
            && (key in a.objects ==> a'.objects[key] == a.objects[key])
  {
  }

  lemma OtherFrame(a: Api, r: Request, c: Choice, key: Key)
    requires OnObjects(r) && !r.WriteStatus? && !r.PatchStatus? && !r.UpdateMetadata?
    requires r != DeleteObject(key) && r != CreateSynced(key.name)
    ensures var a' := ObjectCall(a, r, c).0;
            a.counter <= a'.counter && (key in a'.objects <==> key in a.objects)
            && (key in a.objects ==> a'.objects[key] == a.objects[key])
  {
  }

  /** Another worker's object is touched only to delete it. */
  lemma ObjectFrame(a: Api, r: Request, c: Choice, key: Key)
    requires OnObjects(r) && !Writes(r, key) && r != DeleteObject(key) && r != CreateSynced(key.name)
    ensures var a' := ObjectCall(a, r, c).0;
            a.counter <= a'.counter && (key in a'.objects <==> key in a.objects)
            && (key in a.objects ==> a'.objects[key] == a.objects[key])
  {
    if r.WriteStatus? || r.PatchStatus? { StatusFrame(a, r, c, key); }
    else if r.UpdateMetadata? { MetadataFrame(a, r, c, key); }
    else { OtherFrame(a, r, c, key); }
  }

  lemma ObjectCallIsQuiet(a: Api, w: Worker, r: Request, c: Choice, key: Key)
    requires OnObjects(r) && Guard(a, w, r) && w != Reconciler(key)
    requires r.CreateSynced? ==> key != Key(Backup, r.name)
    ensures Quiet(a, ObjectCall(a, r, c).0, key)
  {
    LeaseStaysOnObjectCall(a, r, c);
    if r == DeleteObject(key) || r == CreateSynced(key.name) {
    } else {
      ObjectFrame(a, r, c, key);
    }
  }

  /** A lease call by another worker: nothing, a new version that names the caller, or no lease any more. */
  lemma LeaseFrame(a: Api, w: Worker, r: Request, c: Choice)
    requires ApiOk(a) && OnLease(r) && Guard(a, w, r)
    ensures var a' := LeaseCall(a, r, c).0;
            a' == a
            || (w.Reconciler? && w.key in a.objects && MayTake(a, w, HolderOf(w.key, a.objects[w.key]))
                && (a.lease.Some? && IsNamed(a.lease.value) ==> !IsActive(a, a.lease.value.holder))
                && exists uid :: a' == StoreLease(a, Lease(uid, a.counter, HolderOf(w.key, a.objects[w.key]))))
            || (HoldsLease(a, w) && a' == a.(lease := None))
  {
    if r.UpdateLease? && a.lease.Some? && a.lease.value.version == r.seen.version { assert a.lease == Some(r.seen); }
    if r.DeleteLease? && a.lease.Some? && a.lease.value.version == r.seen.version { assert a.lease == Some(r.seen); }
  }

  lemma LeaseCallIsQuiet(a: Api, w: Worker, r: Request, c: Choice, key: Key)
    requires ApiOk(a) && OnLease(r) && Guard(a, w, r) && w != Reconciler(key) && key.kind in {Backup, Restore} && key.name != 0
    ensures Quiet(a, LeaseCall(a, r, c).0, key)
  {
    LeaseFrame(a, w, r, c);
    LeaseChangeIsQuiet(a, LeaseCall(a, r, c).0, w, key);
  }

  lemma LeaseChangeIsQuiet(a: Api, a': Api, w: Worker, key: Key)
    requires ApiOk(a) && w != Reconciler(key) && key.kind in {Backup, Restore} && key.name != 0
    requires a' == a
             || (w.Reconciler? && w.key in a.objects && MayTake(a, w, HolderOf(w.key, a.objects[w.key]))
                 && (a.lease.Some? && IsNamed(a.lease.value) ==> !IsActive(a, a.lease.value.holder))
                 && exists uid :: a' == StoreLease(a, Lease(uid, a.counter, HolderOf(w.key, a.objects[w.key]))))
             || (HoldsLease(a, w) && a' == a.(lease := None))
    ensures Quiet(a, a', key)
  {
    if key in a.objects && Names(a.lease, key, a.objects[key].uid) && !IsTerminal(key.kind, a.objects[key]) {
      assert ObjectOk(a, key);
      assert IsActive(a, a.lease.value.holder);
    }
  }

  lemma ProviderCallIsQuiet(a: Api, w: Worker, r: Request, c: Choice, key: Key)
    requires !OnObjects(r) && !OnLease(r) && Guard(a, w, r) && w != Reconciler(key)
    ensures Quiet(a, ProviderCall(a, r, c).0, key)
  {
    ProviderFrame(a, r, c);
    if r.CreateProviderBackup? { assert HoldsLease(a, w); }
  }

  lemma EffectIsQuiet(a: Api, w: Worker, r: Request, c: Choice, key: Key)
    requires ApiOk(a) && Guard(a, w, r) && w != Reconciler(key) && key.kind in {Backup, Restore} && key.name != 0
    requires r.CreateSynced? ==> key != Key(Backup, r.name)
    ensures Quiet(a, Effect(a, r, c).0, key)
  {
    if OnObjects(r) {
      ObjectCallIsQuiet(a, w, r, c, key);
      assert Effect(a, r, c) == ObjectCall(a, r, c);
    } else if OnLease(r) {
      LeaseCallIsQuiet(a, w, r, c, key);
      assert Effect(a, r, c) == LeaseCall(a, r, c);
    } else {
      ProviderCallIsQuiet(a, w, r, c, key);
      assert Effect(a, r, c) == ProviderCall(a, r, c);
    }
  }

  lemma ServeCases(a: Api, r: Request, c: Choice)
    ensures Serve(a, r, c).0 == a || Serve(a, r, c).0 == Effect(a, r, c).0
  {
  }

  lemma StayingIsQuiet(a: Api, key: Key)
    ensures Quiet(a, a, key) && StaleStays(a, a)
  {
  }

  lemma ServeIsQuiet(a: Api, w: Worker, r: Request, c: Choice, key: Key)
    requires ApiOk(a) && Guard(a, w, r) && w != Reconciler(key) && key.kind in {Backup, Restore} && key.name != 0
    requires r.CreateSynced? ==> key != Key(Backup, r.name)
    ensures Quiet(a, Serve(a, r, c).0, key)
  {
    EffectIsQuiet(a, w, r, c, key);
    StayingIsQuiet(a, key);
    ServeCases(a, r, c);
  }

  // ---- a decision about an old lease version stays right

  lemma SameObjectsKeepStale(a: Api, a': Api)
    requires ApiOk(a) && a'.objects == a.objects
    requires a'.lease == a.lease || a'.lease.None? || a'.lease.value !in a.past
    ensures StaleStays(a, a')
  {
  }

  lemma EffectKeepsStale(a: Api, w: Worker, r: Request, c: Choice)
    requires ApiOk(a) && Guard(a, w, r)
    ensures StaleStays(a, Effect(a, r, c).0)
  {
    if OnLease(r) {
      LeaseFrame(a, w, r, c);
      SameObjectsKeepStale(a, LeaseCall(a, r, c).0);
      assert Effect(a, r, c) == LeaseCall(a, r, c);
    } else if OnObjects(r) {
      ObjectCallKeepsStale(a, w, r, c);
      assert Effect(a, r, c) == ObjectCall(a, r, c);
    } else {
      ProviderFrame(a, r, c);
      SameObjectsKeepStale(a, ProviderCall(a, r, c).0);
      assert Effect(a, r, c) == ProviderCall(a, r, c);
    }
  }

  lemma ServeKeepsStale(a: Api, w: Worker, r: Request, c: Choice)
    requires ApiOk(a) && Guard(a, w, r)
    ensures StaleStays(a, Serve(a, r, c).0)
  {
    EffectKeepsStale(a, w, r, c);
    StayingIsQuiet(a, Key(NoKind, 0));
    ServeCases(a, r, c);
  }

  lemma ObjectCallKeepsStale(a: Api, w: Worker, r: Request, c: Choice)
    requires ApiOk(a) && OnObjects(r) && Guard(a, w, r)
    ensures StaleStays(a, ObjectCall(a, r, c).0)
  {
    var a' := ObjectCall(a, r, c).0;
    forall seen | seen in a.past && IsNamed(seen) && a'.lease == Some(seen)
      ensures a.lease == Some(seen) && (!IsActive(a, seen.holder) ==> !IsActive(a', seen.holder))
    {
      var key := Key(seen.holder.kind, seen.holder.name);
      LeaseStaysOnObjectCall(a, r, c);
      if key in a.objects && a.objects[key].uid == seen.holder.uid {
        assert Names(Some(seen), key, seen.holder.uid) && Took(a, key, a.objects[key].uid) && TakerFits(key, a.objects[key]);
        if !IsActive(a, seen.holder) { ObjectStaysEnded(a, w, r, c, key); }
      } else if key in a'.objects {
        OthersAreNew(a, r, c, key);
      }
    }
  }

  /** The object that is stored under this key afterwards was there before, or is a new one. */
  lemma OthersAreNew(a: Api, r: Request, c: Choice, key: Key)
    requires OnObjects(r) && key in ObjectCall(a, r, c).0.objects
    ensures var uid := ObjectCall(a, r, c).0.objects[key].uid; uid == a.counter || (key in a.objects && uid == a.objects[key].uid)
  {
  }

  lemma ObjectStaysEnded(a: Api, w: Worker, r: Request, c: Choice, key: Key)
    requires OnObjects(r) && Guard(a, w, r) && key in a.objects && Decided(a.objects[key].conditions, Succeeded)
    ensures var a' := ObjectCall(a, r, c).0;
            key in a'.objects && a'.objects[key].uid == a.objects[key].uid ==> Decided(a'.objects[key].conditions, Succeeded)
  {
  }
}
