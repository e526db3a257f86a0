/** What a pass concludes from reading the lease, when the read may be outdated. `Acquire` is safe whatever it reads; the
    reads of `Holds` and at the start of `Release` are not, and this module says what exactly they can miss. */
module LeaseReads {
  import opened Conditions
  import opened Cluster
  import opened Leases
  import opened System
  import opened Invariant
  import opened Rely
  import opened Stability
  import opened Preservation
  import opened Progress
  import opened Safety
  import B = BackupWorkflow
  import R = RestoreWorkflow

  /** What the call that reads the lease is answered. */
  function Read(a: Api, c: Choice): Response { Serve(a, GetLease, c).1 }

  // ---- nobody else disturbs

  lemma OthersAreQuiet(s: World, action: Action, key: Key)
    requires Inv(s) && At(s, Reconciler(key)).Busy? && !IsOwn(action, Reconciler(key))
    ensures At(Step(s, action), Reconciler(key)) == At(s, Reconciler(key)) && Quiet(s.api, Step(s, action).api, key)
    ensures key.kind in {Backup, Restore} && key.name != 0
  {
    assert LocalOk(s.api, Reconciler(key), At(s, Reconciler(key)));
    match action
    case Call(w, c) =>
      if Blocked(s, Asked(s, w)) {
        StayingIsQuiet(s.api, key);
      } else {
        CallIsGuarded(s, w);
        ServeIsQuiet(s.api, w, Asked(s, w), c, key);
      }
    case Crash(_) => StayingIsQuiet(s.api, key);
    case Outside(h) => HappeningIsQuiet(s, h, key);
  }

  /** While another one acts, the lease does not begin to name the object of a busy worker, nor cease to before the end. */
  lemma OthersKeepName(s: World, action: Action, key: Key)
    requires Inv(s) && At(s, Reconciler(key)).Busy? && !IsOwn(action, Reconciler(key))
    ensures var l, a, a' := At(s, Reconciler(key)), s.api, Step(s, action).api;
            At(Step(s, action), Reconciler(key)) == l
            && (Names(a'.lease, key, l.copy.uid) ==> Names(a.lease, key, l.copy.uid))
            && (Names(a.lease, key, l.copy.uid) && l.copy.finalizer && !IsTerminal(key.kind, l.copy) ==> Names(a'.lease, key, l.copy.uid))
  {
    var l := At(s, Reconciler(key));
    OthersAreQuiet(s, action, key);
    assert LocalOk(s.api, Reconciler(key), l);
    if Names(s.api.lease, key, l.copy.uid) && l.copy.finalizer && !IsTerminal(key.kind, l.copy) {
      NameStays(s.api, Step(s, action).api, key, l.copy);
    }
  }

  // ---- the read at the start of Release

  predicate IsReleasing(l: Local) {
    l.Busy?
    && ((l.pc.BackupAt? && l.pc.b.Release? && l.pc.b.release.ObserveOwn?) || (l.pc.RestoreAt? && l.pc.r.Release? && l.pc.r.release.ObserveOwn?))
  }

  /** Release reads the lease and does not see that it names the worker's own object: the version it gets, or that there is
      none, is outdated. */
  ghost predicate Misses(a: Api, c: Choice, key: Key, uid: nat) {
    Names(a.lease, key, uid)
    && (Read(a, c).NotFound? || (Read(a, c).FoundLease? && !Names(Some(Read(a, c).lease), key, uid)))
  }

  ghost predicate MissesOwnLease(s: World, action: Action, w: Worker, uid: nat) {
    w.Reconciler? && action.Call? && action.worker == w && IsReleasing(At(s, w)) && At(s, w).copy.uid == uid
    && Misses(s.api, action.choice, w.key, uid)
  }

  /** The pass the worker is in missed its own lease at step k. */
  ghost predicate MissedAt(run: seq<World>, actions: seq<Action>, k: nat, n: nat, w: Worker, uid: nat)
    requires n < |run| == |actions| + 1
  {
    k < n && MissesOwnLease(run[k], actions[k], w, uid) && InOnePass(run, w, k, n)
  }

  ghost predicate Misled(run: seq<World>, actions: seq<Action>, n: nat, w: Worker, uid: nat)
    requires n < |run| == |actions| + 1
  {
    exists k: nat :: MissedAt(run, actions, k, n, w, uid)
  }

  /** The pass is behind Release. */
  predicate HasReleased(l: Local) {
    l.Busy?
    && ((l.pc.BackupAt? && (l.pc.b.DonePatch? || l.pc.b.DeleteGet? || l.pc.b.FinalizerDrop?)) || (l.pc.RestoreAt? && l.pc.r.FinalizerDrop?))
  }

  predicate LeadsBehind(n: B.BackupNext) { n.Go? && (n.pc.DonePatch? || n.pc.DeleteGet? || n.pc.FinalizerDrop?) }

  lemma BackupReleases(pc: B.BackupPc, key: Key, copy: Object, r: Response)
    requires LeadsBehind(B.BackupStep(pc, key, copy, r))
    ensures B.BackupStep(pc, key, copy, r).copy == copy
    ensures pc.DeleteGet? || (pc.Release? && B.BackupRequest(pc, key, copy) == ReleaseRequest(pc.release)
                              && ReleaseStep(pc.release, HolderOf(key, copy), r).ReleaseEnded?
                              && ReleaseStep(pc.release, HolderOf(key, copy), r).state != ReleaseFailed)
  {
    if pc.Release? { ReleaseLeads(pc, key, copy, r); }
    else if pc.OrphanGet? || pc.CanceledGet? || pc.DeleteGet? { DeletionLeads(pc, key, copy, r); }
    else if pc.HoldsGet? || pc.OffGet? || pc.OffSwitch? || pc.ResultPatch? { ClosingLeads(pc, key, copy, r); }
    else { OthersLead(pc, key, copy, r); }
  }

  lemma ReleaseLeads(pc: B.BackupPc, key: Key, copy: Object, r: Response)
    requires LeadsBehind(B.BackupStep(pc, key, copy, r)) && pc.Release?
    ensures B.BackupStep(pc, key, copy, r).copy == copy
    ensures B.BackupRequest(pc, key, copy) == ReleaseRequest(pc.release)
            && ReleaseStep(pc.release, HolderOf(key, copy), r).ReleaseEnded?
            && ReleaseStep(pc.release, HolderOf(key, copy), r).state != ReleaseFailed
  {
  }

  lemma DeletionLeads(pc: B.BackupPc, key: Key, copy: Object, r: Response)
    requires LeadsBehind(B.BackupStep(pc, key, copy, r)) && (pc.OrphanGet? || pc.CanceledGet? || pc.DeleteGet?)
    ensures pc.DeleteGet? && B.BackupStep(pc, key, copy, r).copy == copy
  {
    assert B.BackupStep(pc, key, copy, r) == B.DeleteStep(pc, copy, r);
  }

  lemma ClosingLeads(pc: B.BackupPc, key: Key, copy: Object, r: Response)
    requires pc.HoldsGet? || pc.OffGet? || pc.OffSwitch? || pc.ResultPatch?
    ensures !LeadsBehind(B.BackupStep(pc, key, copy, r))
  {
  }

  lemma OthersLead(pc: B.BackupPc, key: Key, copy: Object, r: Response)
    requires !pc.Release? && !pc.OrphanGet? && !pc.CanceledGet? && !pc.DeleteGet?
    requires !pc.HoldsGet? && !pc.OffGet? && !pc.OffSwitch? && !pc.ResultPatch?
    ensures !LeadsBehind(B.BackupStep(pc, key, copy, r))
  {
  }

  lemma RestoreReleases(pc: R.RestorePc, key: Key, copy: Object, r: Response)
    requires R.RestoreStep(pc, key, copy, r).Go? && R.RestoreStep(pc, key, copy, r).pc.FinalizerDrop?
    ensures pc.Release?
  {
  }

  lemma RestoreReleaseStep(pc: R.RestorePc, key: Key, copy: Object, r: Response)
    requires pc.Release? && R.RestoreStep(pc, key, copy, r).Go? && R.RestoreStep(pc, key, copy, r).pc.FinalizerDrop?
    ensures R.RestoreStep(pc, key, copy, r).copy == copy
    ensures R.RestoreRequest(pc, key, copy) == ReleaseRequest(pc.release)
            && ReleaseStep(pc.release, HolderOf(key, copy), r).ReleaseEnded?
            && ReleaseStep(pc.release, HolderOf(key, copy), r).state != ReleaseFailed
  {
    assert R.RestoreStep(pc, key, copy, r) == R.DeletionStep(pc, key, copy, r);
  }

  /** A release that did not fail leaves no lease that names the caller, unless it missed it. */
  lemma ReleaseEnds(a: Api, key: Key, copy: Object, pc: ReleasePc, c: Choice)
    requires ReleaseOk(a, key, copy, pc)
    requires var n := ReleaseStep(pc, HolderOf(key, copy), Serve(a, ReleaseRequest(pc), c).1); n.ReleaseEnded? && n.state != ReleaseFailed
    ensures Names(Serve(a, ReleaseRequest(pc), c).0.lease, key, copy.uid) ==> pc.ObserveOwn? && Misses(a, c, key, copy.uid)
  {
  }

  /** What the worker's own call, answered, says about a lease that still names it behind Release. */
  ghost predicate Excused(a: Api, a': Api, c: Choice, key: Key, l: Local, l': Local) {
    HasReleased(l') ==>
      l.Busy? && l'.copy == l.copy
      && (Names(a'.lease, key, l.copy.uid) ==>
            (HasReleased(l) && Names(a.lease, key, l.copy.uid)) || (IsReleasing(l) && Misses(a, c, key, l.copy.uid)))
  }

  lemma BackupCallReleases(a: Api, key: Key, l: Local, c: Choice)
    requires ApiOk(a) && l.Busy? && l.pc.BackupAt? && BackupLocalOk(a, key, l.pc.b, l.copy, l.mark)
    ensures var q := NextCall(Reconciler(key), l);
            var (a', r) := Serve(a, q, c);
            Excused(a, a', c, key, l, Marked(React(Reconciler(key), l, r), q, a))
  {
    BackupStepReleases(a, key, l.pc.b, l.copy, c);
  }

  lemma BackupStepReleases(a: Api, key: Key, pc: B.BackupPc, copy: Object, c: Choice)
    requires BackupPcOk(a, key, pc, copy)
    ensures var (a', r) := Serve(a, B.BackupRequest(pc, key, copy), c);
            var n := B.BackupStep(pc, key, copy, r);
            LeadsBehind(n) ==>
              n.copy == copy
              && (Names(a'.lease, key, copy.uid) ==>
                    (pc.DeleteGet? && Names(a.lease, key, copy.uid)) || (pc.Release? && pc.release.ObserveOwn? && Misses(a, c, key, copy.uid)))
  {
    var r := Serve(a, B.BackupRequest(pc, key, copy), c).1;
    if LeadsBehind(B.BackupStep(pc, key, copy, r)) {
      BackupReleases(pc, key, copy, r);
      if pc.Release? { ReleaseEnds(a, key, copy, pc.release, c); } else { DeleteGetReads(a, key, copy, c); }
    }
  }

  lemma DeleteGetReads(a: Api, key: Key, copy: Object, c: Choice)
    ensures Serve(a, B.BackupRequest(B.DeleteGet, key, copy), c).0 == a
  {
  }

  lemma RestoreCallReleases(a: Api, key: Key, l: Local, c: Choice)
    requires ApiOk(a) && l.Busy? && l.pc.RestoreAt? && RestoreLocalOk(a, key, l.pc.r, l.copy)
    ensures var q := NextCall(Reconciler(key), l);
            var (a', r) := Serve(a, q, c);
            Excused(a, a', c, key, l, Marked(React(Reconciler(key), l, r), q, a))
  {
    var q := NextCall(Reconciler(key), l);
    var (a', r) := Serve(a, q, c);
    var n := R.RestoreStep(l.pc.r, key, l.copy, r);
    if n.Go? && n.pc.FinalizerDrop? {
      RestoreReleases(l.pc.r, key, l.copy, r);
      RestoreReleaseStep(l.pc.r, key, l.copy, r);
      ReleaseEnds(a, key, l.copy, l.pc.r.release, c);
    }
  }

  lemma StartIsNotBehind(key: Key, r: Response, q: Request, a: Api)
    ensures !HasReleased(Marked(React(Reconciler(key), Idle, r), q, a))
  {
  }

  /** The worker's own step takes it behind Release, or further. */
  lemma OwnStepReleases(s: World, key: Key, c: Choice)
    requires Inv(s)
    ensures Excused(s.api, StepCall(s, Reconciler(key), c).api, c, key, At(s, Reconciler(key)), At(StepCall(s, Reconciler(key), c), Reconciler(key)))
  {
    var w, l := Reconciler(key), At(s, Reconciler(key));
    var q := Asked(s, w);
    OnlyTheMirrorCreates(s, w);
    if l.Idle? {
      StartIsNotBehind(key, Serve(s.api, q, c).1, q, s.api);
    } else {
      assert LocalOk(s.api, w, l);
      if l.pc.BackupAt? { BackupCallReleases(s.api, key, l, c); } else { RestoreCallReleases(s.api, key, l, c); }
    }
  }

  /** Any step: a lease that still names the object behind Release was named there before, or is missed by this step. */
  lemma StepReleases(s: World, action: Action, key: Key, uid: nat)
    requires Inv(s) && HasReleased(At(Step(s, action), Reconciler(key))) && At(Step(s, action), Reconciler(key)).copy.uid == uid
    requires Names(Step(s, action).api.lease, key, uid)
    ensures var l := At(s, Reconciler(key));
            (HasReleased(l) && l.copy.uid == uid && Names(s.api.lease, key, uid)) || MissesOwnLease(s, action, Reconciler(key), uid)
  {
    if IsOwn(action, Reconciler(key)) {
      assert action.Call?;
      OwnStepReleases(s, key, action.choice);
    } else {
      OthersKeepName(s, action, key);
    }
  }

  /** A lease that still names the object of a pass behind Release was missed by that pass. */
  lemma {:induction false} StillNamedWasMissed(run: seq<World>, actions: seq<Action>, n: nat, w: Worker, uid: nat)
    requires IsRun(run, actions) && n < |run| && w.Reconciler? && HasReleased(At(run[n], w)) && At(run[n], w).copy.uid == uid
    requires Names(run[n].api.lease, w.key, uid)
    ensures Misled(run, actions, n, w, uid)
  {
    assert n > 0;
    InvHolds(run, actions, n - 1);
    StepReleases(run[n - 1], actions[n - 1], w.key, uid);
    if MissesOwnLease(run[n - 1], actions[n - 1], w, uid) {
      assert MissedAt(run, actions, n - 1, n, w, uid);
    } else {
      StillNamedWasMissed(run, actions, n - 1, w, uid);
      MissedLonger(run, actions, n - 1, w, uid);
    }
  }

  lemma MissedLonger(run: seq<World>, actions: seq<Action>, n: nat, w: Worker, uid: nat)
    requires n + 1 < |run| == |actions| + 1 && Misled(run, actions, n, w, uid) && At(run[n + 1], w).Busy?
    ensures Misled(run, actions, n + 1, w, uid)
  {
    var k: nat :| MissedAt(run, actions, k, n, w, uid);
    assert MissedAt(run, actions, k, n + 1, w, uid);
  }

  // ---- what was missed stays

  /** Where a pass can be after its Release ended. */
  predicate IsBehindRelease(l: Local) {
    HasReleased(l)
    || (l.Busy? && l.pc.BackupAt?
        && (l.pc.b.RequestGet? || l.pc.b.RequestCreate? || l.pc.b.DropGet? || l.pc.b.DropDelete? || l.pc.b.DeletingPatch?))
  }

  ghost predicate StaysBehind(a: Api, a': Api, l: Local, l': Local) {
    l.Busy? && a'.lease == a.lease && (l'.Busy? ==> IsBehindRelease(l') && l'.copy == l.copy)
  }

  lemma LeaseFreeCall(a: Api, q: Request, c: Choice)
    requires !OnLease(q)
    ensures Serve(a, q, c).0.lease == a.lease
  {
    ServeCases(a, q, c);
    if OnObjects(q) { assert Effect(a, q, c) == ObjectCall(a, q, c); LeaseStaysOnObjectCall(a, q, c); }
    else { assert Effect(a, q, c) == ProviderCall(a, q, c); ProviderFrame(a, q, c); }
  }

  lemma BackupStaysBehind(a: Api, key: Key, l: Local, r: Response)
    requires IsBehindRelease(l) && l.pc.BackupAt?
    ensures var q := NextCall(Reconciler(key), l); !OnLease(q) && StaysBehind(a, a, l, Marked(React(Reconciler(key), l, r), q, a))
  {
  }

  lemma RestoreStaysBehind(a: Api, key: Key, l: Local, r: Response)
    requires IsBehindRelease(l) && l.pc.RestoreAt?
    ensures var q := NextCall(Reconciler(key), l); !OnLease(q) && StaysBehind(a, a, l, Marked(React(Reconciler(key), l, r), q, a))
  {
  }

  lemma OwnStepBehind(s: World, key: Key, c: Choice)
    requires Inv(s) && IsBehindRelease(At(s, Reconciler(key)))
    ensures StaysBehind(s.api, StepCall(s, Reconciler(key), c).api, At(s, Reconciler(key)), At(StepCall(s, Reconciler(key), c), Reconciler(key)))
  {
    var w, l := Reconciler(key), At(s, Reconciler(key));
    var q := Asked(s, w);
    OnlyTheMirrorCreates(s, w);
    var r := Serve(s.api, q, c).1;
    if l.pc.BackupAt? { BackupStaysBehind(s.api, key, l, r); } else { RestoreStaysBehind(s.api, key, l, r); }
    LeaseFreeCall(s.api, q, c);
  }

  /** The read that misses the lease leads behind Release, or ends the pass. */
  lemma BackupMisses(a: Api, key: Key, l: Local, c: Choice)
    requires IsReleasing(l) && l.pc.BackupAt? && Misses(a, c, key, l.copy.uid)
    ensures var q := NextCall(Reconciler(key), l);
            var (a', r) := Serve(a, q, c);
            StaysBehind(a, a', l, Marked(React(Reconciler(key), l, r), q, a))
  {
    assert NextCall(Reconciler(key), l) == GetLease;
  }

  lemma RestoreMisses(a: Api, key: Key, l: Local, c: Choice)
    requires IsReleasing(l) && l.pc.RestoreAt? && Misses(a, c, key, l.copy.uid)
    ensures var q := NextCall(Reconciler(key), l);
            var (a', r) := Serve(a, q, c);
            StaysBehind(a, a', l, Marked(React(Reconciler(key), l, r), q, a))
  {
    assert NextCall(Reconciler(key), l) == GetLease;
  }

  lemma MissingStep(s: World, key: Key, c: Choice, uid: nat)
    requires Inv(s) && MissesOwnLease(s, Call(Reconciler(key), c), Reconciler(key), uid)
    ensures StaysBehind(s.api, StepCall(s, Reconciler(key), c).api, At(s, Reconciler(key)), At(StepCall(s, Reconciler(key), c), Reconciler(key)))
  {
    var w, l := Reconciler(key), At(s, Reconciler(key));
    OnlyTheMirrorCreates(s, w);
    if l.pc.BackupAt? { BackupMisses(s.api, key, l, c); } else { RestoreMisses(s.api, key, l, c); }
  }

  /** Behind Release a pass that missed the lease of an operation that has not ended leaves it named. */
  ghost predicate LeftNamed(s: World, w: Worker, uid: nat) {
    var l := At(s, w);
    w.Reconciler? && IsBehindRelease(l) && l.copy.uid == uid
    && (l.copy.finalizer && !IsTerminal(w.key.kind, l.copy) ==> Names(s.api.lease, w.key, uid))
  }

  lemma MissingLeaves(s: World, action: Action, w: Worker, uid: nat)
    requires Inv(s) && MissesOwnLease(s, action, w, uid) && At(Step(s, action), w).Busy?
    ensures LeftNamed(Step(s, action), w, uid)
  {
    MissingStep(s, w.key, action.choice, uid);
  }

  lemma LeavingLasts(s: World, action: Action, w: Worker, uid: nat)
    requires Inv(s) && LeftNamed(s, w, uid) && At(Step(s, action), w).Busy?
    ensures LeftNamed(Step(s, action), w, uid)
  {
    if IsOwn(action, w) {
      assert action.Call?;
      OwnStepBehind(s, w.key, action.choice);
    } else {
      OthersKeepName(s, action, w.key);
    }
  }

  lemma {:induction false} MissedStays(run: seq<World>, actions: seq<Action>, k: nat, n: nat, w: Worker, uid: nat)
    requires IsRun(run, actions) && n < |run| && MissedAt(run, actions, k, n, w, uid)
    ensures LeftNamed(run[n], w, uid)
  {
    if k < n - 1 {
      assert MissedAt(run, actions, k, n - 1, w, uid);
      MissedStays(run, actions, k, n - 1, w, uid);
    }
    LeftNext(run, actions, n - 1, w, uid);
  }

  lemma LeftNext(run: seq<World>, actions: seq<Action>, n: nat, w: Worker, uid: nat)
    requires IsRun(run, actions) && n < |actions| && At(run[n + 1], w).Busy?
    requires LeftNamed(run[n], w, uid) || MissesOwnLease(run[n], actions[n], w, uid)
    ensures LeftNamed(run[n + 1], w, uid)
  {
    InvHolds(run, actions, n);
    if MissesOwnLease(run[n], actions[n], w, uid) { MissingLeaves(run[n], actions[n], w, uid); }
    else { LeavingLasts(run[n], actions[n], w, uid); }
  }

  /** Behind Release the lease names the pass's object only if the pass missed it; and as long as the operation has not
      ended, exactly then. */
  lemma StillNamedIff(run: seq<World>, actions: seq<Action>, n: nat, w: Worker)
    requires IsRun(run, actions) && n < |run| && w.Reconciler? && HasReleased(At(run[n], w))
    ensures var l := At(run[n], w);
            (Names(run[n].api.lease, w.key, l.copy.uid) ==> Misled(run, actions, n, w, l.copy.uid))
            && (Misled(run, actions, n, w, l.copy.uid) && l.copy.finalizer && !IsTerminal(w.key.kind, l.copy) ==>
                  Names(run[n].api.lease, w.key, l.copy.uid))
  {
    var uid := At(run[n], w).copy.uid;
    if Names(run[n].api.lease, w.key, uid) { StillNamedWasMissed(run, actions, n, w, uid); }
    if Misled(run, actions, n, w, uid) {
      var k: nat :| MissedAt(run, actions, k, n, w, uid);
      MissedStays(run, actions, k, n, w, uid);
    }
  }

  // ---- the read of Holds

  /** The step is the read of Holds, and gets this version, which names the worker's own object. */
  ghost predicate ReadsOwn(s: World, action: Action, w: Worker, seen: Lease) {
    w.Reconciler? && action.Call? && action.worker == w && At(s, w).Busy? && At(s, w).pc.BackupAt? && At(s, w).pc.b.HoldsGet?
    && seen.holder == HolderOf(w.key, At(s, w).copy) && Read(s.api, action.choice) == FoundLease(seen)
  }

  /** The closing stage at state n goes on from the read at step k. */
  ghost predicate GoesOnFrom(run: seq<World>, actions: seq<Action>, k: nat, n: nat, w: Worker, seen: Lease)
    requires n < |run| == |actions| + 1
  {
    k < n && ReadsOwn(run[k], actions[k], w, seen) && InOnePass(run, w, k, n) && At(run[n], w).Busy? && At(run[k], w).copy == At(run[n], w).copy
  }

  /** The lease names the backup now only if the version that was read was stored, and if the backup has not ended also when
      it was. */
  ghost predicate DependsOn(run: seq<World>, actions: seq<Action>, k: nat, n: nat, w: Worker, seen: Lease)
    requires n < |run| == |actions| + 1
  {
    GoesOnFrom(run, actions, k, n, w, seen)
    && var copy := At(run[n], w).copy;
       (Names(run[n].api.lease, w.key, copy.uid) ==> run[k].api.lease == Some(seen))
       && (run[k].api.lease == Some(seen) && !Decided(copy.conditions, Succeeded) ==> Names(run[n].api.lease, w.key, copy.uid))
  }

  ghost predicate Depends(run: seq<World>, actions: seq<Action>, n: nat, w: Worker)
    requires n < |run| == |actions| + 1
  {
    exists k: nat, seen :: DependsOn(run, actions, k, n, w, seen)
  }

  predicate IsClosing(l: Local) { l.Busy? && l.pc.BackupAt? && (l.pc.b.OffGet? || l.pc.b.OffSwitch?) }

  predicate AsksHolds(l: Local) { l.Busy? && l.pc.BackupAt? && l.pc.b.HoldsGet? }

  predicate LeadsToClosing(n: B.BackupNext) { n.Go? && (n.pc.OffGet? || n.pc.OffSwitch?) }

  lemma ClosingFollows(pc: B.BackupPc, key: Key, copy: Object, r: Response)
    requires LeadsToClosing(B.BackupStep(pc, key, copy, r))
    ensures B.BackupStep(pc, key, copy, r).copy == copy
    ensures (pc.OffGet? && B.BackupRequest(pc, key, copy) == GetMaintenance)
            || (pc.HoldsGet? && B.BackupRequest(pc, key, copy) == GetLease && r.FoundLease? && r.lease.holder == HolderOf(key, copy))
  {
    if pc.HoldsGet? || pc.OffGet? || pc.OffSwitch? { ClosingStageFollows(pc, key, copy, r); }
    else if pc.Release? || pc.ResultPatch? { NotFromRelease(pc, key, copy, r); }
    else { NotFromOthers(pc, key, copy, r); }
  }

  lemma ClosingStageFollows(pc: B.BackupPc, key: Key, copy: Object, r: Response)
    requires LeadsToClosing(B.BackupStep(pc, key, copy, r)) && (pc.HoldsGet? || pc.OffGet? || pc.OffSwitch?)
    ensures B.BackupStep(pc, key, copy, r).copy == copy
    ensures (pc.OffGet? && B.BackupRequest(pc, key, copy) == GetMaintenance)
            || (pc.HoldsGet? && B.BackupRequest(pc, key, copy) == GetLease && r.FoundLease? && r.lease.holder == HolderOf(key, copy))
  {
    assert B.BackupStep(pc, key, copy, r) == B.CloseStep(pc, key, copy, r);
  }

  lemma NotFromRelease(pc: B.BackupPc, key: Key, copy: Object, r: Response)
    requires pc.Release? || pc.ResultPatch?
    ensures !LeadsToClosing(B.BackupStep(pc, key, copy, r))
  {
  }

  lemma NotFromOthers(pc: B.BackupPc, key: Key, copy: Object, r: Response)
    requires !pc.Release? && !pc.ResultPatch? && !pc.HoldsGet? && !pc.OffGet? && !pc.OffSwitch?
    ensures !LeadsToClosing(B.BackupStep(pc, key, copy, r))
  {
  }

  /** The worker's own call that keeps it in the closing stage: it changes nothing, and comes from the read of Holds or from
      within the stage. */
  ghost predicate Closes(a: Api, a': Api, c: Choice, key: Key, l: Local, l': Local) {
    IsClosing(l') ==>
      l.Busy? && l'.copy == l.copy && a' == a
      && (IsClosing(l)
          || (AsksHolds(l) && Read(a, c).FoundLease? && Read(a, c).lease.holder == HolderOf(key, l.copy) && Read(a, c).lease in a.past))
  }

  lemma BackupCallCloses(a: Api, key: Key, l: Local, c: Choice)
    requires ApiOk(a) && l.Busy? && l.pc.BackupAt? && BackupLocalOk(a, key, l.pc.b, l.copy, l.mark)
    ensures var q := NextCall(Reconciler(key), l);
            var (a', r) := Serve(a, q, c);
            Closes(a, a', c, key, l, Marked(React(Reconciler(key), l, r), q, a))
  {
    var r := Serve(a, NextCall(Reconciler(key), l), c).1;
    var n := B.BackupStep(l.pc.b, key, l.copy, r);
    if LeadsToClosing(n) { ClosingFollows(l.pc.b, key, l.copy, r); }
  }

  lemma OtherCallsCloseNothing(key: Key, l: Local, r: Response, q: Request, a: Api)
    requires l.Idle? || l.pc.RestoreAt?
    ensures !IsClosing(Marked(React(Reconciler(key), l, r), q, a))
  {
  }

  lemma OwnStepCloses(s: World, key: Key, c: Choice)
    requires Inv(s)
    ensures Closes(s.api, StepCall(s, Reconciler(key), c).api, c, key, At(s, Reconciler(key)), At(StepCall(s, Reconciler(key), c), Reconciler(key)))
  {
    var w, l := Reconciler(key), At(s, Reconciler(key));
    var q := Asked(s, w);
    OnlyTheMirrorCreates(s, w);
    if l.Busy? { assert LocalOk(s.api, w, l); }
    if l.Idle? || l.pc.RestoreAt? { OtherCallsCloseNothing(key, l, Serve(s.api, q, c).1, q, s.api); }
    else { BackupCallCloses(s.api, key, l, c); }
  }

  /** A version that names the object is the stored one exactly if the lease names the object. */
  lemma OneVersion(a: Api, key: Key, uid: nat, seen: Lease)
    requires PastOk(a) && seen in a.past && Names(Some(seen), key, uid) && key.kind in {Backup, Restore} && key.name != 0 && uid != 0
    ensures Names(a.lease, key, uid) <==> a.lease == Some(seen)
  {
  }

  /** How the closing stage is entered, or goes on. */
  ghost predicate ClosesOn(s: World, s': World, action: Action, w: Worker, seen: Lease) {
    var l, l' := At(s, w), At(s', w);
    w.Reconciler? && l.Busy? && l'.Busy? && l'.copy == l.copy
    && (if IsClosing(l) then
          (Names(s'.api.lease, w.key, l.copy.uid) ==> Names(s.api.lease, w.key, l.copy.uid))
          && (Names(s.api.lease, w.key, l.copy.uid) && !Decided(l.copy.conditions, Succeeded) ==> Names(s'.api.lease, w.key, l.copy.uid))
        else ReadsOwn(s, action, w, seen) && (Names(s'.api.lease, w.key, l.copy.uid) <==> s.api.lease == Some(seen)))
  }

  lemma StepCloses(s: World, action: Action, w: Worker) returns (seen: Lease)
    requires Inv(s) && w.Reconciler? && IsClosing(At(Step(s, action), w))
    ensures ClosesOn(s, Step(s, action), action, w, seen)
  {
    if IsOwn(action, w) {
      assert action.Call?;
      OwnStepCloses(s, w.key, action.choice);
      seen := OwnCallClosesOn(s, Step(s, action), action, w);
    } else {
      seen := Lease(0, 0, Holder(0, 0, NoKind));
      OthersStepCloses(s, action, w, seen);
    }
  }

  lemma OthersStepCloses(s: World, action: Action, w: Worker, seen: Lease)
    requires Inv(s) && w.Reconciler? && IsClosing(At(Step(s, action), w)) && !IsOwn(action, w)
    ensures ClosesOn(s, Step(s, action), action, w, seen)
  {
    OthersKeepName(s, action, w.key);
    OthersLeaveClosing(s, Step(s, action), action, w, seen);
  }

  lemma OwnCallClosesOn(s: World, s': World, action: Action, w: Worker) returns (seen: Lease)
    requires Inv(s) && w.Reconciler? && action.Call? && action.worker == w && IsClosing(At(s', w))
    requires Closes(s.api, s'.api, action.choice, w.key, At(s, w), At(s', w))
    ensures ClosesOn(s, s', action, w, seen)
  {
    var r := Read(s.api, action.choice);
    seen := if r.FoundLease? then r.lease else Lease(0, 0, Holder(0, 0, NoKind));
    if !IsClosing(At(s, w)) {
      assert LocalOk(s.api, w, At(s, w));
      OneVersion(s.api, w.key, At(s, w).copy.uid, seen);
    }
  }

  lemma OthersLeaveClosing(s: World, s': World, action: Action, w: Worker, seen: Lease)
    requires Inv(s) && w.Reconciler? && IsClosing(At(s, w)) && At(s', w) == At(s, w)
    requires var l := At(s, w);
             (Names(s'.api.lease, w.key, l.copy.uid) ==> Names(s.api.lease, w.key, l.copy.uid))
             && (Names(s.api.lease, w.key, l.copy.uid) && l.copy.finalizer && !IsTerminal(w.key.kind, l.copy) ==> Names(s'.api.lease, w.key, l.copy.uid))
    ensures ClosesOn(s, s', action, w, seen)
  {
    ClosingIsLocal(s, w);
  }

  lemma ClosingIsLocal(s: World, w: Worker)
    requires Inv(s) && w.Reconciler? && IsClosing(At(s, w))
    ensures w.key.kind == Backup && At(s, w).copy.finalizer
  {
    assert LocalOk(s.api, w, At(s, w));
  }

  lemma {:induction false} ClosingDependsOnRead(run: seq<World>, actions: seq<Action>, n: nat, w: Worker)
    requires IsRun(run, actions) && n < |run| && w.Reconciler? && IsClosing(At(run[n], w))
    ensures Depends(run, actions, n, w)
  {
    assert n > 0;
    InvHolds(run, actions, n - 1);
    var read := StepCloses(run[n - 1], actions[n - 1], w);
    if IsClosing(At(run[n - 1], w)) { ClosingDependsOnRead(run, actions, n - 1, w); }
    DependsNext(run, actions, n - 1, w, read);
  }

  lemma DependsNext(run: seq<World>, actions: seq<Action>, n: nat, w: Worker, read: Lease)
    requires n + 1 < |run| == |actions| + 1 && ClosesOn(run[n], run[n + 1], actions[n], w, read)
    requires IsClosing(At(run[n], w)) ==> Depends(run, actions, n, w)
    ensures Depends(run, actions, n + 1, w)
  {
    if IsClosing(At(run[n], w)) {
      var k: nat, seen :| DependsOn(run, actions, k, n, w, seen);
      assert GoesOnFrom(run, actions, k, n + 1, w, seen);
      assert DependsOn(run, actions, k, n + 1, w, seen);
    } else {
      assert GoesOnFrom(run, actions, n, n + 1, w, read);
      assert DependsOn(run, actions, n, n + 1, w, read);
    }
  }
}
