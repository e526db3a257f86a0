/** The lease manager as it is called by the stages of both controllers. */
module LeaseManager {
  import opened Conditions
  import opened Cluster
  import opened Leases
  import opened System
  import opened Sessions
  import B = BackupWorkflow
  import R = RestoreWorkflow

  datatype Inspection = InspectionFailed | ActiveHolder | Stale

  class Manager {
    const session: Session

    constructor (session: Session)
      ensures this.session == session
    {
      this.session := session;
    }

    /** A pass that is about to make this call of Acquire. */
    ghost predicate Acquires(pc: AcquirePc, copy: Object)
      reads session
    {
      session.InBackup(B.Go(B.Acquire(pc), copy)) || session.InRestore(R.Go(R.Acquire(pc), copy))
    }

    /** A pass that goes on with this outcome of Acquire. */
    ghost predicate Acquired(state: LeaseState, copy: Object)
      reads session
    {
      session.InBackup(B.AfterAcquire(state, copy)) || session.InRestore(R.AfterAcquire(state, copy))
    }

    method AcquireCall(ghost pc: AcquirePc, copy: Object, q: Request) returns (r: Response)
      requires session.Valid() && Acquires(pc, copy) && q == AcquireRequest(pc, HolderOf(session.worker.key, copy))
      modifies session
      ensures session.Valid() && session.began == old(session.began)
      ensures match AcquireStep(pc, HolderOf(session.worker.key, copy), r)
              case Going(pc') => Acquires(pc', copy)
              case Ended(state) => Acquired(state, copy)
    {
      if session.worker.key.kind == Backup {
        r := session.BackupCall(B.Acquire(pc), copy, q);
      } else {
        r := session.RestoreCall(R.Acquire(pc), copy, q);
      }
    }

    /** Looks up the object that the lease names: gone, finished or replaced means stale. */
    method Inspect(lease: Lease, holder: Object) returns (inspection: Inspection)
      requires session.Valid() && Acquires(Resolve(lease), holder)
      modifies session
      ensures session.Valid() && session.began == old(session.began)
      ensures match inspection
              case InspectionFailed => Acquired(LeaseFailed, holder)
              case ActiveHolder => Acquired(Waiting, holder)
              case Stale => Acquires(TakeOver(lease), holder)
    {
      var resolved := AcquireCall(Resolve(lease), holder, GetObject(Key(lease.holder.kind, lease.holder.name)));
      if resolved.NotFound? { return Stale; }
      if !resolved.FoundObject? { return InspectionFailed; }
      if IsTerminal(lease.holder.kind, resolved.obj) { return Stale; }
      if resolved.obj.uid != lease.holder.uid { return Stale; }
      return ActiveHolder;
    }

    /** Takes the lease if it is free, or if its holder is gone, replaced or finished; never from anybody else. */
    method Acquire(holder: Object) returns (state: LeaseState)
      requires session.Valid() && Acquires(Observe, holder)
      modifies session
      ensures session.Valid() && session.began == old(session.began) && Acquired(state, holder)
    {
      var me := HolderOf(session.worker.key, holder);
      var found := AcquireCall(Observe, holder, GetLease);
      if found.NotFound? {
        var created := AcquireCall(Create, holder, CreateLease(me));
        return TakingOutcome(created);
      }
      if !found.FoundLease? { return LeaseFailed; }
      if IsHolder(found.lease, me) { return Held; }
      if found.lease.holder.kind != NoKind && found.lease.holder.kind != me.kind { return Waiting; }
      if IsMalformed(found.lease) { return Invalid; }
      state := TakeOverIfStale(found.lease, holder);
    }

    method TakeOverIfStale(lease: Lease, holder: Object) returns (state: LeaseState)
      requires session.Valid() && Acquires(Resolve(lease), holder)
      modifies session
      ensures session.Valid() && session.began == old(session.began) && Acquired(state, holder)
    {
      var inspection := Inspect(lease, holder);
      if inspection == InspectionFailed { return LeaseFailed; }
      if inspection == ActiveHolder { return Waiting; }
      var taken := AcquireCall(TakeOver(lease), holder, UpdateLease(lease, HolderOf(session.worker.key, holder)));
      return TakingOutcome(taken);
    }

    /** Only backups ask whether they hold the lease; the answer decides what the closing stage does next. */
    method Holds(ghost op: B.Operation, holder: Object) returns (ok: bool, holds: bool)
      requires session.Valid() && session.InBackup(B.Go(B.HoldsGet(op), holder))
      modifies session
      ensures session.Valid() && session.began == old(session.began)
      ensures session.InBackup(if !ok then B.Stop else if holds then B.Go(B.OffGet(op), holder) else B.EnterRelease(op, holder))
    {
      var found := session.BackupCall(B.HoldsGet(op), holder, GetLease);
      if found.NotFound? { return true, false; }
      if !found.FoundLease? { return false, false; }
      return true, IsHolder(found.lease, HolderOf(session.worker.key, holder));
    }

    ghost predicate Releases(bop: B.Operation, rop: R.Operation, pc: ReleasePc, copy: Object)
      reads session
    {
      session.InBackup(B.Go(B.Release(bop, pc), copy)) || session.InRestore(R.Go(R.Release(rop, pc), copy))
    }

    /** A pass that goes on with this outcome of Release. */
    ghost predicate Released(bop: B.Operation, rop: R.Operation, state: ReleaseState, copy: Object)
      reads session
    {
      session.InBackup(if state == ReleaseFailed then B.Stop else B.AfterRelease(bop, copy))
      || session.InRestore(if state == ReleaseFailed then R.Stop else R.AfterRelease(rop, copy))
    }

    method ReleaseCall(ghost bop: B.Operation, ghost rop: R.Operation, ghost pc: ReleasePc, copy: Object, q: Request) returns (r: Response)
      requires session.Valid() && Releases(bop, rop, pc, copy) && q == ReleaseRequest(pc)
      modifies session
      ensures session.Valid() && session.began == old(session.began)
      ensures match ReleaseStep(pc, HolderOf(session.worker.key, copy), r)
              case Releasing(pc') => Releases(bop, rop, pc', copy)
              case ReleaseEnded(state) => Released(bop, rop, state, copy)
    {
      if session.worker.key.kind == Backup {
        r := session.BackupCall(B.Release(bop, pc), copy, q);
      } else {
        r := session.RestoreCall(R.Release(rop, pc), copy, q);
      }
    }

    /** Deletes the very version of the lease that was read, if that is the holder's own. */
    method Release(ghost bop: B.Operation, ghost rop: R.Operation, holder: Object) returns (state: ReleaseState)
      requires session.Valid() && Releases(bop, rop, ObserveOwn, holder)
      modifies session
      ensures session.Valid() && session.began == old(session.began) && Released(bop, rop, state, holder)
    {
      var found := ReleaseCall(bop, rop, ObserveOwn, holder, GetLease);
      if found.NotFound? { return NotHeld; }
      if !found.FoundLease? { return ReleaseFailed; }
      if !IsHolder(found.lease, HolderOf(session.worker.key, holder)) { return NotHeld; }
      var deleted := ReleaseCall(bop, rop, Delete(found.lease), holder, DeleteLease(found.lease));
      return if deleted.Done? then ReleaseState.Released else if deleted.NotFound? then NotHeld else ReleaseFailed;
    }
  }
}
