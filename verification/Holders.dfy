/** Whom the lease names, and who acts without it, in every run. With a cache that is up to date the lease names an existing
    operation that has not ended, and nobody else acts; outdated reads are the only way out of that, and these are the
    reads. */
module Holders {
  import opened Conditions
  import opened Cluster
  import opened Leases
  import opened System
  import opened Invariant
  import opened Rely
  import opened Preservation
  import opened History
  import opened Progress
  import opened Safety
  import opened LeaseReads
  import opened Outcomes
  import opened Removal
  import B = BackupWorkflow
  import R = RestoreWorkflow

  /** The operation has come to its end: its object is gone, or it is a backup with a result. */
  ghost predicate IsOver(a: Api, h: Holder) {
    var key := HolderKey(h);
    IsGone(a, key, h.uid) || (h.kind == Backup && Decided(a.objects[key].conditions, Succeeded))
  }

  /** Before state n, a release of this holder missed its own lease. */
  ghost predicate MissedBefore(run: seq<World>, actions: seq<Action>, n: nat, h: Holder)
    requires n < |run| == |actions| + 1
  {
    exists k: nat :: k < n && MissesOwnLease(run[k], actions[k], Reconciler(HolderKey(h)), h.uid)
  }

  lemma MisledMissed(run: seq<World>, actions: seq<Action>, n: nat, h: Holder)
    requires n < |run| == |actions| + 1 && Misled(run, actions, n, Reconciler(HolderKey(h)), h.uid)
    ensures MissedBefore(run, actions, n, h)
  {
    var k: nat :| MissedAt(run, actions, k, n, Reconciler(HolderKey(h)), h.uid);
  }

  lemma MissedBeforeToo(run: seq<World>, actions: seq<Action>, n: nat, m: nat, h: Holder)
    requires n <= m < |run| == |actions| + 1 && MissedBefore(run, actions, n, h)
    ensures MissedBefore(run, actions, m, h)
  {
  }

  /** Whoever takes the lease is not over. */
  lemma TakersAreNotOver(s: World, action: Action)
    requires Inv(s) && Step(s, action).api.lease.Some? && IsNamed(Step(s, action).api.lease.value)
    requires Step(s, action).api.lease != s.api.lease
    ensures !IsOver(Step(s, action).api, Step(s, action).api.lease.value.holder)
  {
    StepMovesLease(s, action);
    TakingKeepsObjects(s, action);
  }

  lemma TakingKeepsObjects(s: World, action: Action)
    requires Inv(s) && Step(s, action).api.lease != s.api.lease
    ensures Step(s, action).api.objects == s.api.objects
  {
    match action
    case Call(w, c) => LeaseCallsKeepObjects(s.api, Asked(s, w), c);
    case Crash(_) =>
    case Outside(h) =>
      if OnProvider(h) { ProviderHappens(s, h); }
      else if h.UserDeletes? { LeaseStaysOnObjectCall(s.api, DeleteObject(h.key), Choice(Fine, false, None, [])); }
  }

  lemma LeaseCallsKeepObjects(a: Api, q: Request, c: Choice)
    ensures var a' := Serve(a, q, c).0; a'.lease == a.lease || a'.objects == a.objects
  {
    ServeCases(a, q, c);
    if OnLease(q) { assert Effect(a, q, c) == LeaseCall(a, q, c); } else { LeaseFreeCall(a, q, c); }
  }

  /** An operation ends while the lease names it only in a pass that missed that. */
  lemma EndingWasMisled(run: seq<World>, actions: seq<Action>, n: nat)
    requires IsRun(run, actions) && n < |actions|
    requires run[n].api.lease.Some? && IsNamed(run[n].api.lease.value) && run[n + 1].api.lease == run[n].api.lease
    requires !IsOver(run[n].api, run[n].api.lease.value.holder) && IsOver(run[n + 1].api, run[n].api.lease.value.holder)
    ensures var h := run[n].api.lease.value.holder; Misled(run, actions, n, Reconciler(HolderKey(h)), h.uid)
  {
    InvHolds(run, actions, n);
    var h := run[n].api.lease.value.holder;
    var key := HolderKey(h);
    NamedFits(run[n].api, key);
    assert run[n].api.objects[key].finalizer;
    if IsGone(run[n + 1].api, key, h.uid) {
      FinalizerGoesLast(run, actions, n, key);
    } else {
      EndFollowsResult(run, actions, n, key);
      StepIsOnwards(run[n], actions[n], key);
    }
  }

  lemma {:induction false} OverWasMissed(run: seq<World>, actions: seq<Action>, n: nat)
    requires IsRun(run, actions) && n < |run| && run[n].api.lease.Some? && IsNamed(run[n].api.lease.value)
    requires IsOver(run[n].api, run[n].api.lease.value.holder)
    ensures MissedBefore(run, actions, n, run[n].api.lease.value.holder)
  {
    assert n > 0;
    var h := run[n].api.lease.value.holder;
    if run[n - 1].api.lease == run[n].api.lease && IsOver(run[n - 1].api, h) {
      OverWasMissed(run, actions, n - 1);
      MissedBeforeToo(run, actions, n - 1, n, h);
    } else {
      BecomesOver(run, actions, n - 1);
    }
  }

  lemma BecomesOver(run: seq<World>, actions: seq<Action>, n: nat)
    requires IsRun(run, actions) && n < |actions| && run[n + 1].api.lease.Some? && IsNamed(run[n + 1].api.lease.value)
    requires IsOver(run[n + 1].api, run[n + 1].api.lease.value.holder)
    requires run[n].api.lease != run[n + 1].api.lease || !IsOver(run[n].api, run[n + 1].api.lease.value.holder)
    ensures MissedBefore(run, actions, n + 1, run[n + 1].api.lease.value.holder)
  {
    var h := run[n + 1].api.lease.value.holder;
    if run[n].api.lease == run[n + 1].api.lease {
      EndingWasMisled(run, actions, n);
      MisledMissed(run, actions, n, h);
      MissedBeforeToo(run, actions, n, n + 1, h);
    } else {
      InvHolds(run, actions, n);
      TakersAreNotOver(run[n], actions[n]);
    }
  }

  /** The lease always names an existing object with that UID that still carries the finalizer, unless a release of that
      very object missed its own lease before. */
  lemma NamedHolderExists(run: seq<World>, actions: seq<Action>, n: nat)
    requires IsRun(run, actions) && n < |run| && run[n].api.lease.Some? && IsNamed(run[n].api.lease.value)
    ensures var a, h := run[n].api, run[n].api.lease.value.holder;
            (HolderKey(h) in a.objects && a.objects[HolderKey(h)].uid == h.uid && a.objects[HolderKey(h)].finalizer)
            || MissedBefore(run, actions, n, h)
  {
    InvHolds(run, actions, n);
    var a, h := run[n].api, run[n].api.lease.value.holder;
    if IsGone(a, HolderKey(h), h.uid) { OverWasMissed(run, actions, n); } else { NamedFits(a, HolderKey(h)); }
  }

  /** Once it has a terminal result, a backup never holds the lease again, unless one of its releases missed its own lease
      before. */
  lemma EndedBackupHasNoLease(run: seq<World>, actions: seq<Action>, n: nat, m: nat, key: Key)
    requires IsRun(run, actions) && n <= m < |run| && key.kind == Backup && key in run[n].api.objects
    requires Decided(run[n].api.objects[key].conditions, Succeeded)
    ensures var uid := run[n].api.objects[key].uid;
            Names(run[m].api.lease, key, uid) ==> MissedBefore(run, actions, m, Holder(uid, key.name, key.kind))
  {
    InvHolds(run, actions, n);
    assert ObjectOk(run[n].api, key);
    var uid := run[n].api.objects[key].uid;
    if Names(run[m].api.lease, key, uid) {
      if key in run[m].api.objects && run[m].api.objects[key].uid == uid { NothingGoesBack(run, actions, n, m, key); }
      OverWasMissed(run, actions, m);
    }
  }

  // ---- who acts without the lease

  /** The closing stage at state n holds the lease exactly if the version its pass read in Holds was the stored one. The only
      other case is a backup that had ended already although the lease named it. */
  ghost predicate HoldsIffCurrent(run: seq<World>, actions: seq<Action>, k: nat, n: nat, w: Worker, seen: Lease)
    requires n < |run| == |actions| + 1
  {
    GoesOnFrom(run, actions, k, n, w, seen)
    && (HoldsLease(run[n].api, w) ==> run[k].api.lease == Some(seen))
    && ((HoldsLease(run[n].api, w) <==> run[k].api.lease == Some(seen))
        || (Decided(At(run[n], w).copy.conditions, Succeeded) && MissedBefore(run, actions, k, HolderOf(w.key, At(run[n], w).copy))))
  }

  ghost predicate IsMisguided(run: seq<World>, actions: seq<Action>, n: nat, w: Worker)
    requires n < |run| == |actions| + 1
  {
    w.Reconciler? && IsClosingDown(At(run[n], w)) && exists k: nat, seen :: IsMisguidedBy(run, actions, k, n, w, seen)
  }

  /** The closing stage goes on from a version that was no longer stored when it was read, or the backup had ended before
      with its lease missed. */
  ghost predicate IsMisguidedBy(run: seq<World>, actions: seq<Action>, k: nat, n: nat, w: Worker, seen: Lease)
    requires n < |run| == |actions| + 1
  {
    GoesOnFrom(run, actions, k, n, w, seen)
    && (run[k].api.lease != Some(seen) || MissedBefore(run, actions, k, HolderOf(w.key, At(run[n], w).copy)))
  }

  lemma ReadOfEnded(run: seq<World>, actions: seq<Action>, k: nat, n: nat, w: Worker, seen: Lease)
    requires IsRun(run, actions) && n < |run| && GoesOnFrom(run, actions, k, n, w, seen) && Decided(At(run[n], w).copy.conditions, Succeeded)
    requires run[k].api.lease == Some(seen)
    ensures MissedBefore(run, actions, k, HolderOf(w.key, At(run[n], w).copy))
  {
    InvHolds(run, actions, k);
    assert LocalOk(run[k].api, w, At(run[k], w));
    OverWasMissed(run, actions, k);
  }

  lemma ClosingDownAsks(s: World, w: Worker)
    requires Inv(s) && w.Reconciler? && IsClosingDown(At(s, w))
    ensures Asked(s, w) == SwitchMaintenance(false) && w.key in s.api.objects && s.api.objects[w.key].uid == At(s, w).copy.uid
  {
    assert LocalOk(s.api, w, At(s, w));
  }

  /** A worker that switches maintenance mode off in a backup's closing stage does so without holding the lease exactly if
      the read of Holds in that pass returned a version that was not stored any more. */
  lemma SwitchWithoutLeaseIff(run: seq<World>, actions: seq<Action>, n: nat, w: Worker)
    requires IsRun(run, actions) && n < |run| && w.Reconciler? && IsClosingDown(At(run[n], w))
    ensures Asked(run[n], w) == SwitchMaintenance(false) && w.key in run[n].api.objects
    ensures exists k: nat, seen :: HoldsIffCurrent(run, actions, k, n, w, seen)
  {
    InvHolds(run, actions, n);
    ClosingDownAsks(run[n], w);
    ClosingDependsOnRead(run, actions, n, w);
    var k: nat, seen :| DependsOn(run, actions, k, n, w, seen);
    if Decided(At(run[n], w).copy.conditions, Succeeded) && run[k].api.lease == Some(seen) { ReadOfEnded(run, actions, k, n, w, seen); }
    assert HoldsIffCurrent(run, actions, k, n, w, seen);
  }

  /** Of two workers that are about to do what needs the lease, one is a closing stage that was misguided. */
  lemma OneActsAtATime(run: seq<World>, actions: seq<Action>, n: nat, w1: Worker, w2: Worker)
    requires IsRun(run, actions) && n < |run| && NeedsLease(Asked(run[n], w1)) && NeedsLease(Asked(run[n], w2))
    ensures w1 == w2 || IsMisguided(run, actions, n, w1) || IsMisguided(run, actions, n, w2)
  {
    WithoutLeaseIsMisguided(run, actions, n, w1);
    WithoutLeaseIsMisguided(run, actions, n, w2);
  }

  lemma WithoutLeaseIsMisguided(run: seq<World>, actions: seq<Action>, n: nat, w: Worker)
    requires IsRun(run, actions) && n < |run| && NeedsLease(Asked(run[n], w))
    ensures w.Reconciler? && (HoldsLease(run[n].api, w) || IsMisguided(run, actions, n, w))
  {
    OnlyTheHolderActs(run, actions, n, w);
    if !HoldsLease(run[n].api, w) {
      SwitchWithoutLeaseIff(run, actions, n, w);
      var k: nat, seen :| HoldsIffCurrent(run, actions, k, n, w, seen);
      assert IsMisguidedBy(run, actions, k, n, w, seen);
    }
  }
}
