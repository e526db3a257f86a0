/** What a worker knows stays true while others call. */
module Stability {
  import opened Conditions
  import opened Cluster
  import opened Leases
  import opened System
  import opened Invariant
  import opened Rely
  import B = BackupWorkflow
  import R = RestoreWorkflow

  lemma InStepStays(a: Api, a': Api, key: Key, copy: Object)
    requires InStep(a, key, copy) && ObjectQuiet(a, a', key)
    ensures InStep(a', key, copy)
  {
  }

  /** A lease that names this object keeps naming it as long as the operation has not ended. */
  lemma NameStays(a: Api, a': Api, key: Key, copy: Object)
    requires ApiOk(a) && InStep(a, key, copy) && Quiet(a, a', key) && key.kind in {Backup, Restore} && key.name != 0
    requires Names(a.lease, key, copy.uid) && copy.finalizer && !IsTerminal(key.kind, copy)
    ensures Names(a'.lease, key, copy.uid)
  {
    assert key in a.objects;
  }

  lemma KeptStays(a: Api, a': Api, key: Key, copy: Object)
    requires ApiOk(a) && InStep(a, key, copy) && Quiet(a, a', key) && key.kind in {Backup, Restore} && key.name != 0
    requires Kept(a, key, copy) && !IsTerminal(key.kind, copy)
    ensures Kept(a', key, copy)
  {
    TookStays(a, a', key, copy.uid);
    if Took(a', key, copy.uid) { NameStays(a, a', key, copy); }
  }

  /** Only the object's own worker makes a version that names it. */
  lemma TookStays(a: Api, a': Api, key: Key, uid: nat)
    requires LeaseQuiet(a, a', key)
    ensures Took(a', key, uid) <==> Took(a, key, uid)
  {
    if Took(a, key, uid) {
      var l :| l in a.past && Names(Some(l), key, uid);
      assert l in a'.past;
    }
    if Took(a', key, uid) {
      var l :| l in a'.past && Names(Some(l), key, uid);
      assert l in a.past;
    }
  }

  lemma BackupStays(a: Api, a': Api, key: Key, pc: B.BackupPc, copy: Object, mark: Option<nat>)
    requires ApiOk(a) && BackupLocalOk(a, key, pc, copy, mark) && Quiet(a, a', key) && StaleStays(a, a')
    ensures BackupLocalOk(a', key, pc, copy, mark)
  {
    InStepStays(a, a', key, copy);
    TookStays(a, a', key, copy.uid);
    if Names(a.lease, key, copy.uid) && copy.finalizer && !IsTerminal(Backup, copy) { NameStays(a, a', key, copy); }
    if Kept(a, key, copy) && !IsTerminal(Backup, copy) { KeptStays(a, a', key, copy); }
    if pc.Acquire? { AcquireStays(a, a', HolderOf(key, copy), pc.acquire); }
    BackupPcStays(a, a', key, pc, copy);
  }

  lemma BackupPcStays(a: Api, a': Api, key: Key, pc: B.BackupPc, copy: Object)
    requires BackupPcOk(a, key, pc, copy) && a.past <= a'.past && (Took(a', key, copy.uid) <==> Took(a, key, copy.uid))
    requires Names(a.lease, key, copy.uid) && copy.finalizer && !Decided(copy.conditions, Succeeded) ==> Names(a'.lease, key, copy.uid)
    requires Kept(a, key, copy) && !Decided(copy.conditions, Succeeded) ==> Kept(a', key, copy)
    requires pc.Acquire? ==> AcquireOk(a', HolderOf(key, copy), pc.acquire)
    ensures BackupPcOk(a', key, pc, copy)
  {
  }

  lemma AcquireStays(a: Api, a': Api, me: Holder, pc: AcquirePc)
    requires AcquireOk(a, me, pc) && a.past <= a'.past && StaleStays(a, a')
    ensures AcquireOk(a', me, pc)
  {
  }

  lemma RestoreStays(a: Api, a': Api, key: Key, pc: R.RestorePc, copy: Object)
    requires ApiOk(a) && RestoreLocalOk(a, key, pc, copy) && Quiet(a, a', key) && StaleStays(a, a')
    ensures RestoreLocalOk(a', key, pc, copy)
  {
    InStepStays(a, a', key, copy);
    TookStays(a, a', key, copy.uid);
    if !IsTerminal(Restore, copy) {
      if Names(a.lease, key, copy.uid) && copy.finalizer { NameStays(a, a', key, copy); }
      if Kept(a, key, copy) { KeptStays(a, a', key, copy); }
    }
    if pc.Acquire? { AcquireStays(a, a', HolderOf(key, copy), pc.acquire); }
  }

  // ---- a judged victim stays judged

  lemma VictimStays(a: Api, w: Worker, r: Request, c: Choice, v: Victim)
    requires ApiOk(a) && Guard(a, w, r) && VictimOk(a, v)
    ensures VictimOk(Serve(a, r, c).0, v)
  {
    ServeCases(a, r, c);
    var key := Key(Backup, v.name);
    if OnObjects(r) {
      assert Effect(a, r, c) == ObjectCall(a, r, c);
      VictimStaysOnObjectCall(a, w, r, c, v);
    } else if OnLease(r) {
      assert Effect(a, r, c) == LeaseCall(a, r, c);
      LeaseFrame(a, w, r, c);
    } else {
      assert Effect(a, r, c) == ProviderCall(a, r, c);
      ProviderFrame(a, r, c);
    }
  }

  lemma VictimStaysOnObjectCall(a: Api, w: Worker, r: Request, c: Choice, v: Victim)
    requires ApiOk(a) && OnObjects(r) && Guard(a, w, r) && VictimOk(a, v)
    ensures VictimOk(ObjectCall(a, r, c).0, v)
  {
    var key := Key(Backup, v.name);
    if Writes(r, key) {
    } else if r == DeleteObject(key) || r == CreateSynced(key.name) {
    } else {
      ObjectFrame(a, r, c, key);
    }
  }
}
