/** The lease manager: Acquire, Holds and Release as small machines that make one API call at a time,
    so that anything may happen between two calls. */
module Leases {
  import opened Conditions
  import opened Cluster

  /** The outcome of Acquire; LeaseFailed is the error return. */
  datatype LeaseState = Held | Waiting | Invalid | Conflict | Acquired | LeaseFailed

  datatype AcquirePc = Observe | Create | Resolve(seen: Lease) | TakeOver(seen: Lease)

  datatype AcquireNext = Going(pc: AcquirePc) | Ended(state: LeaseState)

  datatype ReleasePc = ObserveOwn | Delete(seen: Lease)

  datatype ReleaseState = Released | NotHeld | ReleaseFailed

  datatype ReleaseNext = Releasing(pc: ReleasePc) | ReleaseEnded(state: ReleaseState)

  function HolderOf(key: Key, o: Object): Holder { Holder(o.uid, key.name, key.kind) }

  predicate IsHolder(lease: Lease, me: Holder) {
    lease.holder.uid == me.uid && lease.holder.name == me.name && lease.holder.kind == me.kind
  }

  /** Claim writes uid, name and kind together; a lease that lacks one was not written by this manager. */
  predicate IsMalformed(lease: Lease) {
    lease.holder.uid == 0 || lease.holder.name == 0 || lease.holder.kind == NoKind
  }

  /** IsTerminal of the two holder resolvers. */
  predicate IsTerminal(kind: Kind, o: Object) {
    if kind == Restore then
      var succeeded := EffectiveSucceeded(o.conditions, o.legacy);
      succeeded.Some? && succeeded.value.status != Unknown
    else Decided(o.conditions, Succeeded)
  }

  function AcquireRequest(pc: AcquirePc, me: Holder): Request {
    match pc
    case Observe => GetLease
    case Create => CreateLease(me)
    case Resolve(seen) => GetObject(Key(seen.holder.kind, seen.holder.name))
    case TakeOver(seen) => UpdateLease(seen, me)
  }

  function TakingOutcome(r: Response): LeaseState {
    if r.Done? then Acquired else if r.Rejected? then Conflict else LeaseFailed
  }

  /** Each manager resolves holders of its own kind only; every other kind counts as active. */
  function AcquireStep(pc: AcquirePc, me: Holder, r: Response): AcquireNext {
    match pc
    case Observe =>
      if r.NotFound? then Going(Create)
      else if !r.FoundLease? then Ended(LeaseFailed)
      else if IsHolder(r.lease, me) then Ended(Held)
      else if r.lease.holder.kind != NoKind && r.lease.holder.kind != me.kind then Ended(Waiting)
      else if IsMalformed(r.lease) then Ended(Invalid)
      else Going(Resolve(r.lease))
    case Create =>
      Ended(TakingOutcome(r))
    case Resolve(seen) =>
      if r.NotFound? then Going(TakeOver(seen))
      else if !r.FoundObject? then Ended(LeaseFailed)
      else if IsTerminal(seen.holder.kind, r.obj) then Going(TakeOver(seen))
      else if r.obj.uid != seen.holder.uid then Going(TakeOver(seen))
      else Ended(Waiting)
    case TakeOver(seen) =>
      Ended(TakingOutcome(r))
  }

  function ReleaseRequest(pc: ReleasePc): Request {
    match pc
    case ObserveOwn => GetLease
    case Delete(seen) => DeleteLease(seen)
  }

  function ReleaseStep(pc: ReleasePc, me: Holder, r: Response): ReleaseNext {
    match pc
    case ObserveOwn =>
      if r.NotFound? then ReleaseEnded(NotHeld)
      else if !r.FoundLease? then ReleaseEnded(ReleaseFailed)
      else if !IsHolder(r.lease, me) then ReleaseEnded(NotHeld)
      else Releasing(Delete(r.lease))
    case Delete(seen) =>
      ReleaseEnded(if r.Done? then Released else if r.NotFound? then NotHeld else ReleaseFailed)
  }
}
