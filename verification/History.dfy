/** What the calls a pass has made so far, and their answers, say about the call it is about to make. */
module History {
  import opened Conditions
  import opened Cluster
  import opened Leases
  import opened System
  import opened Invariant
  import opened Rely
  import opened Preservation
  import B = BackupWorkflow
  import R = RestoreWorkflow

  // ---- order within a pass

  /** The wanted exchanges occur in the trail in this order, with anything in between. */
  predicate Follows(trail: seq<Exchange>, wanted: seq<Exchange>) {
    wanted == []
    || (trail != []
        && (Follows(trail[..|trail| - 1], wanted)
            || (trail[|trail| - 1] == wanted[|wanted| - 1] && Follows(trail[..|trail| - 1], wanted[..|wanted| - 1]))))
  }

  lemma Longer(trail: seq<Exchange>, wanted: seq<Exchange>, e: Exchange)
    requires Follows(trail, wanted)
    ensures Follows(trail + [e], wanted) && Follows(trail + [e], wanted + [e])
  {
    assert (trail + [e])[..|trail|] == trail && (wanted + [e])[..|wanted|] == wanted;
  }

  ghost predicate Increasing(at: seq<nat>, bound: nat) {
    (forall i :: 0 <= i < |at| ==> at[i] < bound) && (forall i, j :: 0 <= i < j < |at| ==> at[i] < at[j])
  }

  /** `wanted` is read off `trail` at these positions. */
  ghost predicate Picks(trail: seq<Exchange>, wanted: seq<Exchange>, at: seq<nat>) {
    |at| == |wanted| && Increasing(at, |trail|) && forall i :: 0 <= i < |at| ==> trail[at[i]] == wanted[i]
  }

  /** The same said with positions: Follows is the usual notion of a subsequence. */
  lemma {:induction false} FollowsAtPositions(trail: seq<Exchange>, wanted: seq<Exchange>)
    ensures Follows(trail, wanted) <==> exists at: seq<nat> :: Picks(trail, wanted, at)
  {
    if Follows(trail, wanted) { var at := Positions(trail, wanted); }
    if at: seq<nat> :| Picks(trail, wanted, at) { PickedFollows(trail, wanted, at); }
  }

  lemma {:induction false} Positions(trail: seq<Exchange>, wanted: seq<Exchange>) returns (at: seq<nat>)
    requires Follows(trail, wanted)
    ensures Picks(trail, wanted, at)
  {
    if wanted == [] {
      at := [];
    } else {
      var t, w := trail[..|trail| - 1], wanted[..|wanted| - 1];
      if Follows(t, wanted) {
        at := Positions(t, wanted);
      } else {
        at := Positions(t, w);
        at := at + [|t|];
      }
    }
  }

  lemma {:induction false} PickedFollows(trail: seq<Exchange>, wanted: seq<Exchange>, at: seq<nat>)
    requires Picks(trail, wanted, at)
    ensures Follows(trail, wanted)
  {
    if wanted != [] {
      var last := |at| - 1;
      assert at[last] < |trail|;
      var t := trail[..|trail| - 1];
      if at[last] == |t| {
        assert Picks(t, wanted[..last], at[..last]);
        PickedFollows(t, wanted[..last], at[..last]);
      } else {
        assert Picks(t, wanted, at);
        PickedFollows(t, wanted, at);
      }
    }
  }

  // ---- restores

  const PREPARATION: seq<Exchange> := [Exchange(DoWork(ScaleDown), Done), Exchange(DoWork(Cleanup), Done)]

  /** Scaled up, every workload found ready, saved counts removed, maintenance mode off. */
  const RECOVERY: seq<Exchange> :=
    [Exchange(DoWork(ScaleUp), Done), Exchange(Ask, Answer(true)),
     Exchange(DoWork(FinalizeScaleUp), Done), Exchange(SwitchMaintenance(false), Done)]

  /** The lease manager found the lease absent or another's, or deleted its own. */
  predicate GivenUp(e: Exchange, me: Holder) {
    (e.request.GetLease? && (e.response.NotFound? || (e.response.FoundLease? && !IsHolder(e.response.lease, me))))
    || (e.request.DeleteLease? && (e.response.Done? || e.response.NotFound?))
  }

  predicate Ends(trail: seq<Exchange>, request: Request, responses: set<Response>) {
    trail != [] && trail[|trail| - 1].request == request && trail[|trail| - 1].response in responses
  }

  /** The last call read a child in this state. */
  predicate SawChild(trail: seq<Exchange>, name: Name, state: RestoreState) {
    trail != []
    && (var e := trail[|trail| - 1];
        e.request == GetProviderRestore(name) && e.response.FoundProviderRestore? && e.response.restore.state == state)
  }

  predicate RestoreTrail(key: Key, pc: R.RestorePc, copy: Object, trail: seq<Exchange>) {
    match pc
    case ChildCreate => Ends(trail, GetProviderRestore(key.name), {NotFound})
    case ObservedWrite(observed) => observed.status == True ==> SawChild(trail, key.name, RestoreSucceeded)
    case FailureOff => SawChild(trail, key.name, RestoreFailed)
    case FailureWrite => trail != [] && SawChild(trail[..|trail| - 1], key.name, RestoreFailed)
    case PrepareCleanup => Follows(trail, PREPARATION[..1])
    case PreparedWrite => Follows(trail, PREPARATION)
    case ScaleUpWrite => Follows(trail, RECOVERY[..1])
    case ReadyObserve => Follows(trail, RECOVERY[..1])
    case NotReadyWrite => Follows(trail, RECOVERY[..1])
    case ReadyWrite => Follows(trail, RECOVERY[..2])
    case FinalizeRun => Follows(trail, RECOVERY[..2])
    case FinalizeWrite => Follows(trail, RECOVERY[..3])
    case MaintenanceOff => Follows(trail, RECOVERY[..3])
    case MaintenanceOffWrite => Follows(trail, RECOVERY)
    case CompletedWrite => Follows(trail, RECOVERY)
    case FinalizerDrop => trail != [] && GivenUp(trail[|trail| - 1], HolderOf(key, copy))
    case _ => true
  }

  predicate IsMilestone(pc: R.RestorePc) {
    pc.PrepareScaleDown? || pc.PrepareCleanup? || pc.ScaleUpRun? || pc.ReadyObserve? || pc.FinalizeRun? || pc.MaintenanceOff?
  }

  predicate IsOpening(pc: R.RestorePc) {
    pc.MigrateWrite? || pc.BarrierGet? || pc.Acquire? || pc.ReadyChild? || pc.ReadyAsk? || pc.SourceChild? || pc.SourceAsk?
  }

  predicate IsMiddle(pc: R.RestorePc) {
    pc.MaintenanceGet? || pc.MaintenanceOn? || pc.PrepareChild? || pc.ChildGet? || pc.ChildGetAgain? || pc.WatchGet? || pc.FailureOff?
  }

  lemma MilestoneSteps(key: Key, pc: R.RestorePc, copy: Object, trail: seq<Exchange>, r: Response)
    requires RestoreTrail(key, pc, copy, trail) && IsMilestone(pc)
    ensures var n := R.RestoreStep(pc, key, copy, r);
            n.Go? ==> RestoreTrail(key, n.pc, n.copy, trail + [Exchange(R.RestoreRequest(pc, key, copy), r)])
  {
    var e := Exchange(R.RestoreRequest(pc, key, copy), r);
    assert PREPARATION[..1] == [] + [PREPARATION[0]] && PREPARATION == PREPARATION[..1] + [PREPARATION[1]];
    assert RECOVERY[..1] == [] + [RECOVERY[0]] && RECOVERY[..2] == RECOVERY[..1] + [RECOVERY[1]]
           && RECOVERY[..3] == RECOVERY[..2] + [RECOVERY[2]] && RECOVERY == RECOVERY[..3] + [RECOVERY[3]];
    match pc
    case PrepareScaleDown => Longer(trail, [], e);
    case PrepareCleanup => Longer(trail, PREPARATION[..1], e);
    case ScaleUpRun => Longer(trail, [], e);
    case ReadyObserve => Longer(trail, RECOVERY[..1], e);
    case FinalizeRun => Longer(trail, RECOVERY[..2], e);
    case MaintenanceOff => Longer(trail, RECOVERY[..3], e);
  }

  lemma OpeningSteps(key: Key, pc: R.RestorePc, copy: Object, trail: seq<Exchange>, r: Response)
    requires IsOpening(pc)
    ensures var n := R.RestoreStep(pc, key, copy, r);
            n.Go? ==> RestoreTrail(key, n.pc, n.copy, trail + [Exchange(R.RestoreRequest(pc, key, copy), r)])
  {
  }

  lemma MiddleSteps(key: Key, pc: R.RestorePc, copy: Object, trail: seq<Exchange>, r: Response)
    requires IsMiddle(pc) && RestoreTrail(key, pc, copy, trail)
    ensures var n := R.RestoreStep(pc, key, copy, r);
            n.Go? ==> RestoreTrail(key, n.pc, n.copy, trail + [Exchange(R.RestoreRequest(pc, key, copy), r)])
  {
    var e := Exchange(R.RestoreRequest(pc, key, copy), r);
    assert (trail + [e])[|trail|] == e && (trail + [e])[..|trail|] == trail;
  }

  lemma DeletionSteps(key: Key, pc: R.RestorePc, copy: Object, trail: seq<Exchange>, r: Response)
    requires pc.DeleteGet? || pc.Release?
    ensures var n := R.RestoreStep(pc, key, copy, r);
            n.Go? ==> RestoreTrail(key, n.pc, n.copy, trail + [Exchange(R.RestoreRequest(pc, key, copy), r)])
  {
  }

  lemma RestoreTrailStep(key: Key, pc: R.RestorePc, copy: Object, trail: seq<Exchange>, r: Response)
    requires RestoreTrail(key, pc, copy, trail)
    ensures var n := R.RestoreStep(pc, key, copy, r);
            n.Go? ==> RestoreTrail(key, n.pc, n.copy, trail + [Exchange(R.RestoreRequest(pc, key, copy), r)])
  {
    if IsMilestone(pc) { MilestoneSteps(key, pc, copy, trail, r); }
    else if IsOpening(pc) { OpeningSteps(key, pc, copy, trail, r); }
    else if IsMiddle(pc) { MiddleSteps(key, pc, copy, trail, r); }
    else if pc.DeleteGet? || pc.Release? { DeletionSteps(key, pc, copy, trail, r); }
  }

  lemma RestoreTrailStarts(key: Key, o: Object, trail: seq<Exchange>)
    ensures R.Start(o).Go? ==> RestoreTrail(key, R.Start(o).pc, R.Start(o).copy, trail)
  {
  }

  // ---- backups

  /** The pass found no other provider backup running. */
  predicate Looked(trail: seq<Exchange>) {
    exists e <- trail :: e.request.ListProviderBackups? && e.response == Answer(false)
  }

  predicate SawOwn(trail: seq<Exchange>) {
    exists e <- trail :: e.request.GetProviderBackup? && e.response.FoundProviderBackup?
  }

  /** The pass has not come to the check yet, and has read its own provider backup only if the run had started. */
  predicate HasNotLooked(copy: Object, trail: seq<Exchange>) { !Looked(trail) && (SawOwn(trail) ==> copy.started) }

  /** The pass made the check exactly if the run had not started and the pass has not seen its own provider backup. */
  predicate MayCreate(copy: Object, mark: Option<nat>, trail: seq<Exchange>) {
    (Looked(trail) <==> !copy.started && !SawOwn(trail)) && (Looked(trail) ==> mark.Some?)
  }

  /** The last answer was a provider backup that is running, or one that is not. */
  predicate SawPhase(trail: seq<Exchange>, name: Name, running: bool) {
    trail != []
    && (var e := trail[|trail| - 1];
        e.request == GetProviderBackup(name) && e.response.FoundProviderBackup? && IsRunning(e.response.backup.phase) == running)
  }

  predicate NoRequestLeft(trail: seq<Exchange>, name: Name) {
    Ends(trail, GetDeleteRequest(name), {NotFound}) || Ends(trail, DropDeleteRequest(name), {Done, NotFound})
  }

  predicate SawMaintenance(trail: seq<Exchange>) {
    exists e <- trail :: e.request == GetMaintenance && e.response == Answer(true)
  }

  /** The last call read the own provider backup. */
  predicate SawBackup(trail: seq<Exchange>, name: Name, seen: ProviderBackup) {
    Ends(trail, GetProviderBackup(name), {FoundProviderBackup(seen)})
  }

  /** The last observation of the own provider backup was this result. */
  predicate SawResult(trail: seq<Exchange>, name: Name, succeeded: bool) {
    trail != [] && trail[|trail| - 1].response.FoundProviderBackup?
    && SawBackup(trail, name, trail[|trail| - 1].response.backup)
    && (if succeeded then trail[|trail| - 1].response.backup.phase == BackupCompleted else HasFailed(trail[|trail| - 1].response.backup.phase))
  }

  /** The time window was found closed; the run had not started, or its provider backup is missing, untouched or running. */
  predicate SawExpiry(trail: seq<Exchange>, name: Name, started: bool) {
    if !started then Ends(trail, Ask, {Answer(false)})
    else
      |trail| > 1 && Ends(trail[..|trail| - 1], Ask, {Answer(false)})
      && var e := trail[|trail| - 1];
         e.request == GetProviderBackup(name)
         && (e.response.NotFound? || (e.response.FoundProviderBackup? && (IsBlank(e.response.backup) || IsRunning(e.response.backup.phase))))
  }

  predicate BackupTrail(key: Key, pc: B.BackupPc, copy: Object, mark: Option<nat>, trail: seq<Exchange>) {
    match pc
    case SyncPatch(seen) => SawBackup(trail, key.name, seen)
    case SeedPatch => HasNotLooked(copy, trail)
    case SetupList => HasNotLooked(copy, trail)
    case SetupUpdate => HasNotLooked(copy, trail)
    case WindowAsk => HasNotLooked(copy, trail)
    case WindowGet => HasNotLooked(copy, trail) && copy.started && Ends(trail, Ask, {Answer(false)})
    case OpenPatch(_) => HasNotLooked(copy, trail)
    case PrepareGet => HasNotLooked(copy, trail)
    case PrepareAsk => HasNotLooked(copy, trail)
    case PrepareList => HasNotLooked(copy, trail) && !copy.started
    case CancelPatch(_) => SawExpiry(trail, key.name, copy.started)
    case ResultPatch(succeeded) => SawResult(trail, key.name, succeeded)
    case PreparePatch(ready) => ready ==> MayCreate(copy, mark, trail)
    case Acquire(_) => MayCreate(copy, mark, trail)
    case MaintenanceGet => MayCreate(copy, mark, trail)
    case OwnGet => MayCreate(copy, mark, trail) && SawMaintenance(trail)
    case OwnCreate => MayCreate(copy, mark, trail) && SawMaintenance(trail)
    case DeleteGet => trail != [] && GivenUp(trail[|trail| - 1], HolderOf(key, copy))
    case FinalizerDrop =>
      |trail| > 1 && GivenUp(trail[|trail| - 2], HolderOf(key, copy)) && Ends(trail, GetProviderBackup(key.name), {NotFound})
    case RequestGet(_) => SawPhase(trail, key.name, false)
    case RequestCreate(_) =>
      |trail| > 1 && SawPhase(trail[..|trail| - 1], key.name, false) && Ends(trail, GetDeleteRequest(key.name), {NotFound})
    case DropGet(_, why) =>
      if why == WaitingForProviderBackupCompletion then SawPhase(trail, key.name, true)
      else why == ProviderBackupDeletionRetried && Ends(trail, GetDeleteRequest(key.name), {Answer(true)})
    case DropDelete(_, why) => why in {WaitingForProviderBackupCompletion, ProviderBackupDeletionRetried}
    case DeletingPatch(_, why) =>
      if why == BackupDeleting then
        Ends(trail, GetDeleteRequest(key.name), {Answer(false)}) || Ends(trail, CreateDeleteRequest(key.name), {Done})
      else NoRequestLeft(trail, key.name)
    case _ => true
  }

  lemma LongerLook(trail: seq<Exchange>, e: Exchange)
    ensures Looked(trail + [e]) <==> Looked(trail) || (e.request.ListProviderBackups? && e.response == Answer(false))
    ensures SawOwn(trail + [e]) <==> SawOwn(trail) || (e.request.GetProviderBackup? && e.response.FoundProviderBackup?)
    ensures SawMaintenance(trail) || (e.request == GetMaintenance && e.response == Answer(true)) ==> SawMaintenance(trail + [e])
  {
    assert (trail + [e])[|trail|] == e;
    if x :| x in trail && x.request.ListProviderBackups? && x.response == Answer(false) { assert x in trail + [e]; }
    if x :| x in trail && x.request.GetProviderBackup? && x.response.FoundProviderBackup? { assert x in trail + [e]; }
    if x :| x in trail && x.request == GetMaintenance && x.response == Answer(true) { assert x in trail + [e]; }
  }

  predicate IsCheck(pc: B.BackupPc) {
    pc.PrepareGet? || pc.PrepareAsk? || pc.PrepareList? || pc.PreparePatch? || pc.Acquire? || pc.MaintenanceGet? || pc.OwnGet?
  }

  predicate IsBeforeCheck(pc: B.BackupPc) {
    pc.SeedPatch? || pc.SetupList? || pc.SetupUpdate? || pc.WindowAsk? || pc.OpenPatch?
  }

  /** The calls before the check hand back a copy that has started exactly if it had before. */
  predicate KeepsStart(pc: B.BackupPc) { pc.SeedPatch? || pc.SetupUpdate? || pc.OpenPatch? || pc.PreparePatch? }

  predicate IsRemoval(pc: B.BackupPc) {
    pc.CanceledGet? || pc.DeleteGet? || pc.RequestGet? || pc.RequestCreate? || pc.DropGet? || pc.DropDelete? || pc.OrphanGet?
  }

  predicate IsClosing(pc: B.BackupPc) {
    pc.HoldsGet? || pc.OffGet? || pc.OffSwitch? || pc.Release? || pc.ResultPatch?
  }

  lemma CheckStep(key: Key, pc: B.BackupPc, copy: Object, mark: Option<nat>, now: nat, trail: seq<Exchange>, r: Response)
    requires BackupTrail(key, pc, copy, mark, trail)
    requires IsCheck(pc)
    requires KeepsStart(pc) && r.FoundObject? ==> r.obj.started == copy.started
    ensures var n := B.BackupStep(pc, key, copy, r);
            var e := Exchange(B.BackupRequest(pc, key, copy), r);
            n.Go? ==> BackupTrail(key, n.pc, n.copy, if pc.PrepareList? then Some(now) else mark, trail + [e])
  {
    LongerLook(trail, Exchange(B.BackupRequest(pc, key, copy), r));
  }

  lemma BeforeCheckStep(key: Key, pc: B.BackupPc, copy: Object, mark: Option<nat>, trail: seq<Exchange>, r: Response)
    requires BackupTrail(key, pc, copy, mark, trail) && IsBeforeCheck(pc)
    requires KeepsStart(pc) && r.FoundObject? ==> r.obj.started == copy.started
    ensures var n := B.BackupStep(pc, key, copy, r);
            var e := Exchange(B.BackupRequest(pc, key, copy), r);
            n.Go? ==> BackupTrail(key, n.pc, n.copy, mark, trail + [e])
  {
    var e := Exchange(B.BackupRequest(pc, key, copy), r);
    LongerLook(trail, e);
    assert (trail + [e])[|trail|] == e && (trail + [e])[..|trail|] == trail;
  }

  predicate IsObservation(pc: B.BackupPc) { pc.SyncGet? || pc.WindowGet? || pc.WatchGet? }

  lemma ObservationStep(key: Key, pc: B.BackupPc, copy: Object, mark: Option<nat>, trail: seq<Exchange>, r: Response)
    requires BackupTrail(key, pc, copy, mark, trail) && IsObservation(pc)
    ensures var n := B.BackupStep(pc, key, copy, r);
            var e := Exchange(B.BackupRequest(pc, key, copy), r);
            n.Go? ==> BackupTrail(key, n.pc, n.copy, mark, trail + [e])
  {
    var e := Exchange(B.BackupRequest(pc, key, copy), r);
    LongerLook(trail, e);
    assert (trail + [e])[|trail|] == e && (trail + [e])[..|trail|] == trail;
  }

  lemma DeleteTrailStep(key: Key, pc: B.BackupPc, copy: Object, mark: Option<nat>, trail: seq<Exchange>, r: Response)
    requires BackupTrail(key, pc, copy, mark, trail)
    requires IsRemoval(pc)
    ensures var n := B.BackupStep(pc, key, copy, r);
            var e := Exchange(B.BackupRequest(pc, key, copy), r);
            n.Go? ==> BackupTrail(key, n.pc, n.copy, mark, trail + [e])
  {
    var e := Exchange(B.BackupRequest(pc, key, copy), r);
    assert (trail + [e])[|trail|] == e && (trail + [e])[..|trail|] == trail;
  }

  lemma CloseTrailStep(key: Key, pc: B.BackupPc, copy: Object, mark: Option<nat>, trail: seq<Exchange>, r: Response)
    requires IsClosing(pc)
    ensures var n := B.BackupStep(pc, key, copy, r);
            var e := Exchange(B.BackupRequest(pc, key, copy), r);
            n.Go? ==> BackupTrail(key, n.pc, n.copy, mark, trail + [e])
  {
  }

  lemma OtherTrailStep(key: Key, pc: B.BackupPc, copy: Object, mark: Option<nat>, trail: seq<Exchange>, r: Response)
    requires !IsCheck(pc) && !IsRemoval(pc) && !IsClosing(pc) && !IsObservation(pc) && !IsBeforeCheck(pc)
    ensures var n := B.BackupStep(pc, key, copy, r);
            n.Go? ==> BackupTrail(key, n.pc, n.copy, mark, trail)
  {
  }

  lemma BackupTrailStarts(key: Key, o: Object, trail: seq<Exchange>)
    requires !Looked(trail) && !SawOwn(trail)
    ensures B.Start(o).Go? ==> BackupTrail(key, B.Start(o).pc, B.Start(o).copy, None, trail)
  {
  }

  // ---- in every reachable state

  predicate TrailOk(w: Worker, l: Local) {
    l.Busy? ==>
      match l.pc
      case BackupAt(pc) => w.Reconciler? ==> BackupTrail(w.key, pc, l.copy, l.mark, l.trail)
      case RestoreAt(pc) => w.Reconciler? ==> RestoreTrail(w.key, pc, l.copy, l.trail)
      case MirrorAt(pc, seen) => pc.MirrorDelete? ==> seen.Some? && !IsTrue(seen.value.conditions, Canceled)
      case CollectAt(_) => true
  }

  predicate Remembered(s: World) { forall w :: w in s.locals ==> TrailOk(w, s.locals[w]) }

  lemma BackupStepRemembers(a: Api, key: Key, l: Local, c: Choice)
    requires l.Busy? && l.pc.BackupAt? && BackupLocalOk(a, key, l.pc.b, l.copy, l.mark) && BackupTrail(key, l.pc.b, l.copy, l.mark, l.trail)
    ensures var q := NextCall(Reconciler(key), l);
            var r := Serve(a, q, c).1;
            TrailOk(Reconciler(key), Marked(React(Reconciler(key), l, r), q, a))
  {
    var q := NextCall(Reconciler(key), l);
    var r := Serve(a, q, c).1;
    var pc := l.pc.b;
    if KeepsStart(pc) && r.FoundObject? { StartIsKept(a, key, pc, l.copy, c); }
    BackupTrailStep(key, pc, l.copy, l.mark, |a.created|, l.trail, r);
  }

  lemma StartIsKept(a: Api, key: Key, pc: B.BackupPc, copy: Object, c: Choice)
    requires InStep(a, key, copy) && KeepsStart(pc)
    ensures var r := Serve(a, B.BackupRequest(pc, key, copy), c).1;
            r.FoundObject? ==> r.obj.started == copy.started
  {
  }

  lemma BackupTrailStep(key: Key, pc: B.BackupPc, copy: Object, mark: Option<nat>, now: nat, trail: seq<Exchange>, r: Response)
    requires BackupTrail(key, pc, copy, mark, trail)
    requires KeepsStart(pc) && r.FoundObject? ==> r.obj.started == copy.started
    ensures var n := B.BackupStep(pc, key, copy, r);
            var q := B.BackupRequest(pc, key, copy);
            n.Go? ==> BackupTrail(key, n.pc, n.copy, if q.ListProviderBackups? then Some(now) else mark, trail + [Exchange(q, r)])
  {
    if IsCheck(pc) { CheckStep(key, pc, copy, mark, now, trail, r); }
    else if IsRemoval(pc) { DeleteTrailStep(key, pc, copy, mark, trail, r); }
    else if IsClosing(pc) { CloseTrailStep(key, pc, copy, mark, trail, r); }
    else if IsBeforeCheck(pc) { BeforeCheckStep(key, pc, copy, mark, trail, r); }
    else if IsObservation(pc) { ObservationStep(key, pc, copy, mark, trail, r); }
    else { OtherTrailStep(key, pc, copy, mark, trail + [Exchange(B.BackupRequest(pc, key, copy), r)], r); }
  }

  lemma StepRemembers(s: World, action: Action)
    requires Inv(s) && Remembered(s)
    ensures Remembered(Step(s, action))
  {
    if action.Call? {
      CallRemembers(s, action.worker, action.choice);
    }
  }

  lemma CallRemembers(s: World, w: Worker, c: Choice)
    requires Inv(s) && Remembered(s)
    ensures Remembered(StepCall(s, w, c))
  {
    var l := At(s, w);
    var q := NextCall(w, l);
    if Blocked(s, q) {
      OnlyTheMirrorCreates(s, w);
    } else if l.Idle? {
      StartRemembers(s.api, w, c);
    } else if w.Reconciler? {
      assert LocalOk(s.api, w, l) && TrailOk(w, l);
      if l.pc.BackupAt? { BackupStepRemembers(s.api, w.key, l, c); }
      else { RestoreTrailStep(w.key, l.pc.r, l.copy, l.trail, Serve(s.api, q, c).1); }
    }
  }

  lemma StartRemembers(a: Api, w: Worker, c: Choice)
    ensures var q := NextCall(w, Idle);
            var r := Serve(a, q, c).1;
            TrailOk(w, Marked(React(w, Idle, r), q, a))
  {
    var q := NextCall(w, Idle);
    var r := Serve(a, q, c).1;
    if r.FoundObject? && w.Reconciler? {
      BackupTrailStarts(w.key, r.obj, [Exchange(q, r)]);
      RestoreTrailStarts(w.key, r.obj, [Exchange(q, r)]);
    }
  }

  lemma {:induction false} AllRemember(run: seq<World>, actions: seq<Action>, n: nat)
    requires IsRun(run, actions) && n < |run|
    ensures Inv(run[n]) && Remembered(run[n])
  {
    InvHolds(run, actions, n);
    if n > 0 {
      AllRemember(run, actions, n - 1);
      StepRemembers(run[n - 1], actions[n - 1]);
    }
  }
}
