/** What a call of Acquire comes to when nobody interferes, and what the scalar status stands for. */
module LeaseLaws {
  import opened Conditions
  import opened Cluster
  import opened Leases
  import opened System
  import opened Invariant
  import opened Termination

  /** At most this many undisturbed calls of Acquire: what the server looks like afterwards, and the outcome. */
  function Undisturbed(a: Api, pc: AcquirePc, me: Holder, calls: nat): (Api, LeaseState)
    decreases calls
  {
    if calls == 0 then (a, LeaseFailed)
    else
      var (a', r) := Serve(a, AcquireRequest(pc, me), CALM);
      match AcquireStep(pc, me, r)
      case Ended(state) => (a', state)
      case Going(pc') => Undisturbed(a', pc', me, calls - 1)
  }

  /** The lease lets nobody in: it has a holder of another kind, or one of this kind that exists and has not ended. */
  ghost predicate IsTaken(a: Api, lease: Lease, me: Holder) {
    (lease.holder.kind != NoKind && lease.holder.kind != me.kind) || (!IsMalformed(lease) && IsActive(a, lease.holder))
  }

  /** Held, waiting, invalid and acquired are told apart exactly by whose lease it is, and whether that one is active. */
  lemma AcquireOutcomes(a: Api, me: Holder)
    requires ApiOk(a) && me.uid != 0 && me.name != 0 && me.kind in {Backup, Restore}
    ensures var (a', state) := Undisturbed(a, Observe, me, 3);
            (state == Held <==> a.lease.Some? && a.lease.value.holder == me)
            && (state == Waiting <==> a.lease.Some? && a.lease.value.holder != me && IsTaken(a, a.lease.value, me))
            && (state == Invalid <==> a.lease.Some? && a.lease.value.holder != me && !IsTaken(a, a.lease.value, me) && IsMalformed(a.lease.value))
            && (state == Acquired <==> a.lease.None? || (a.lease.value.holder != me && !IsTaken(a, a.lease.value, me) && !IsMalformed(a.lease.value)))
            && (state == Acquired ==> a'.lease.Some? && a'.lease.value.holder == me && a'.lease.value !in a.past)
            && (state != Acquired ==> a' == a)
  {
    assert LeaseOk(a);
  }

  /** A former holder that deletes with an outdated version never gets the lease of somebody else deleted. */
  lemma OutdatedDeletionIsHarmless(a: Api, outdated: Lease, c: Choice)
    requires LeaseOk(a) && outdated in a.past && a.lease != Some(outdated)
    ensures Serve(a, DeleteLease(outdated), c).0 == a && !Serve(a, DeleteLease(outdated), c).1.Done?
  {
  }

  // ---- the scalar status

  /** What the migration writes stands for the same scalar again. */
  lemma MigrationKeepsTheScalar(legacy: Legacy)
    requires LegacySucceeded(legacy).Some?
    ensures var conditions := map[Succeeded := LegacySucceeded(legacy).value];
            LegacyRestoreStatusFor(false, conditions, legacy) == legacy
            && EffectiveSucceeded(conditions, legacy) == EffectiveSucceeded(map[], legacy)
  {
  }

  /** The deleting status overwrites the scalar: a terminal restore stays terminal exactly if it carries the Succeeded
      condition, and one that an older operator finished does not. */
  lemma DeletingStatusKeepsTheEndIff(o: Object)
    requires o.deleting && IsTerminal(Restore, o)
    ensures IsTerminal(Restore, WithMerged(o, map[])) <==> Succeeded in o.conditions
  {
    assert o.conditions + map[] == o.conditions;
  }
}
