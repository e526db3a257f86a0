/** One worker's connection to the cluster. Between any two of its calls the other workers and the world may do
    anything, and the calls it makes are steps of the operator's runs: a method that makes exactly the calls of a pass
    has no other executions than those the theorems are about. */
module Sessions {
  import opened Conditions
  import opened Cluster
  import opened Leases
  import opened System
  import B = BackupWorkflow
  import R = RestoreWorkflow
  import Y = SyncWorkflows

  /** All that happened since the initial state; `world` is what it led to. */
  datatype History = Initially(world: World) | Then(before: History, action: Action, world: World)

  /** What worker `w` did after `from`: nothing, if it has not called; otherwise one pass, which began with its first call and
      was never lost: that call was made by the idle worker, and all others where the transition system made the worker
      busy. */
  ghost predicate IsPass(from: History, h: History, w: Worker, called: bool) {
    if h == from then !called
    else
      h.Then?
      && if IsOwn(h.action, w) then called && h.action.Call? && IsPass(from, h.before, w, At(h.before.world, w).Busy?)
         else IsPass(from, h.before, w, called)
  }

  ghost predicate Includes(h: History, earlier: History) {
    earlier == h || (h.Then? && Includes(h.before, earlier))
  }

  ghost predicate StepsRight(h: History) {
    match h
    case Initially(world) => Init(world)
    case Then(before, action, world) => world == Step(before.world, action)
  }

  /** It starts in an initial state, and every world follows from the one before. */
  ghost predicate IsSound(h: History) {
    forall earlier {:trigger Includes(h, earlier)} :: Includes(h, earlier) ==> StepsRight(earlier)
  }

  ghost function Worlds(h: History): (run: seq<World>)
    ensures |run| > 0 && run[|run| - 1] == h.world
  {
    match h
    case Initially(world) => [world]
    case Then(before, _, world) => Worlds(before) + [world]
  }

  ghost function Actions(h: History): seq<Action> {
    match h
    case Initially(_) => []
    case Then(before, action, _) => Actions(before) + [action]
  }

  /** A sound history is a run of the operator, so that everything proved about runs holds for it. */
  lemma {:induction false} HistoryIsRun(h: History)
    requires IsSound(h)
    ensures IsRun(Worlds(h), Actions(h))
  {
    assert Includes(h, h);
    if h.Then? {
      forall earlier | Includes(h.before, earlier) ensures StepsRight(earlier) { assert Includes(h, earlier); }
      HistoryIsRun(h.before);
      ExtendRun(Worlds(h.before), Actions(h.before), h.action);
    }
  }

  lemma SoundGoesOn(h: History, action: Action)
    requires IsSound(h)
    ensures IsSound(Then(h, action, Step(h.world, action)))
  {
  }

  class Session {
    const worker: Worker
    var world: World
    ghost var history: History
    ghost var began: History             // the history up to where the pass began
    ghost var called: bool               // has the pass made a call?

    /** The world is what the history made of it, and since the pass began the worker did nothing but this pass. */
    ghost predicate Valid()
      reads this
    {
      IsSound(history) && world == history.world && IsPass(began, history, worker, called) && (At(world, worker).Busy? ==> called)
    }

    /** The pass that began there is over: the worker made at least one call, and the transition system ended the pass. */
    ghost predicate IsDone(from: History)
      reads this
    {
      Valid() && At(world, worker).Idle? && called && began == from
    }

    ghost predicate IsIdle()
      reads this
    {
      At(world, worker).Idle?
    }

    constructor (worker: Worker, world: World)
      requires Init(world)
      ensures Valid() && IsIdle() && this.worker == worker && this.world == world && history == Initially(world)
    {
      this.worker, this.world, history, began, called := worker, world, Initially(world), Initially(world), false;
    }

    /** A new pass begins here. */
    ghost method Begin()
      requires Valid() && IsIdle()
      modifies this`began, this`called
      ensures Valid() && began == history && !called
    {
      began, called := history, false;
    }

    /** Somebody else acts. */
    method Advance(action: Action)
      requires Valid() && !IsOwn(action, worker)
      modifies this
      ensures Valid() && began == old(began) && called == old(called) && At(world, worker) == old(At(world, worker))
    {
      SoundGoesOn(history, action);
      OthersKeepLocal(world, action, worker);
      OthersKeepPass(began, history, action, worker, called);
      world := Step(world, action);
      history := Then(history, action, world);
    }

    /** Others act, any number of times. */
    method Others()
      requires Valid()
      modifies this
      ensures Valid() && began == old(began) && called == old(called) && At(world, worker) == old(At(world, worker))
    {
      var times: nat :| true;
      for n := 0 to times
        invariant Valid() && began == old(began) && called == old(called) && At(world, worker) == old(At(world, worker))
      {
        var action: Action := *;
        if !IsOwn(action, worker) { Advance(action); }
      }
    }

    /** The worker's own step, with what the world decides about it. */
    method Take(q: Request, c: Choice) returns (r: Response)
      requires Valid() && NextCall(worker, At(world, worker)) == q && (IsIdle() ==> !called)
      modifies this
      ensures Valid() && began == old(began) && called
      ensures IsReaction(At(world, worker), old(At(world, worker)), r)
      ensures q.DoWork? && c.answer ==> !r.More?
    {
      r := if Blocked(world, q) then Rejected else Serve(world.api, q, c).1;
      OwnCallReacts(world, worker, c);
      FinishedWork(world.api, q, c);
      var action := Action.Call(worker, c);
      SoundGoesOn(history, action);
      OwnCallGoesOn(began, history, action, worker, called);
      world, called := Step(world, action), true;
      history := Then(history, action, world);
    }

    /** The worker's next call, after whatever the others do before. It may be refused, or lose its answer. An idle worker
        begins its pass with it, and a second pass only after that is over. */
    method Request(q: Request) returns (r: Response)
      requires Valid() && NextCall(worker, At(world, worker)) == q && (IsIdle() ==> !called)
      modifies this
      ensures Valid() && began == old(began) && called
      ensures IsReaction(At(world, worker), old(At(world, worker)), r)
    {
      Others();
      var c: Choice := *;
      r := Take(q, c);
    }

    /** A piece of work that is finished with this call, or fails. */
    method LastPiece(q: Request) returns (r: Response)
      requires Valid() && NextCall(worker, At(world, worker)) == q && q.DoWork? && (IsIdle() ==> !called)
      modifies this
      ensures Valid() && began == old(began) && called
      ensures IsReaction(At(world, worker), old(At(world, worker)), r) && !r.More?
    {
      Others();
      var c: Choice := *;
      r := Take(q, c.(answer := true));
    }

    /** The worker's local state after this answer, up to what the pass remembers about its check. */
    ghost predicate IsReaction(now: Local, before: Local, r: Response) {
      var expected := React(worker, before, r);
      now == expected || (now.Busy? && expected.Busy? && now == expected.(mark := now.mark))
    }

    // ---- where the pass that was begun is

    ghost predicate InBackup(n: B.BackupNext)
      reads this
    {
      called && worker.Reconciler? && worker.key.kind == Backup
      && var l := At(world, worker);
         if n.Stop? then l.Idle? else l.Busy? && l.pc == BackupAt(n.pc) && l.copy == n.copy
    }

    ghost predicate InRestore(n: R.RestoreNext)
      reads this
    {
      called && worker.Reconciler? && worker.key.kind == Restore
      && var l := At(world, worker);
         if n.Stop? then l.Idle? else l.Busy? && l.pc == RestoreAt(n.pc) && l.copy == n.copy
    }

    ghost predicate InMirror(n: Y.MirrorNext)
      reads this
    {
      called && worker.Mirror?
      && var l := At(world, worker);
         if n.MirrorStop? then l.Idle? else l.Busy? && l.pc == MirrorAt(n.pc, n.copy)
    }

    /** The victims that are still to be deleted; None before the listing and after the last one. */
    ghost predicate InCollection(victims: Option<seq<Victim>>)
      reads this
    {
      worker.Collector?
      && var l := At(world, worker);
         if victims.None? then l.Idle? else l.Busy? && l.pc == CollectAt(victims.value)
    }

    // ---- the calls of a pass

    method CollectCall(ghost victims: Option<seq<Victim>>, q: Request) returns (r: Response)
      requires Valid() && InCollection(victims) && q == Y.CollectRequest(victims) && (IsIdle() ==> !called)
      modifies this
      ensures Valid() && began == old(began) && called && InCollection(Y.CollectStep(victims, r))
    {
      r := Request(q);
    }

    method GetOwn() returns (r: Response)
      requires Valid() && IsIdle() && !called && worker.Reconciler?
      modifies this
      ensures Valid() && began == old(began) && called
      ensures worker.key.kind == Backup ==> InBackup(if r.FoundObject? then B.Start(r.obj) else B.Stop)
      ensures worker.key.kind == Restore ==> InRestore(if r.FoundObject? then R.Start(r.obj) else R.Stop)
    {
      r := Request(GetObject(worker.key));
    }

    method BackupCall(ghost pc: B.BackupPc, copy: Object, q: Request) returns (r: Response)
      requires Valid() && InBackup(B.Go(pc, copy)) && q == B.BackupRequest(pc, worker.key, copy)
      modifies this
      ensures Valid() && began == old(began) && InBackup(B.BackupStep(pc, worker.key, copy, r))
    {
      r := Request(q);
    }

    method RestoreCall(ghost pc: R.RestorePc, copy: Object, q: Request) returns (r: Response)
      requires Valid() && InRestore(R.Go(pc, copy)) && q == R.RestoreRequest(pc, worker.key, copy)
      modifies this
      ensures Valid() && began == old(began) && InRestore(R.RestoreStep(pc, worker.key, copy, r))
    {
      r := Request(q);
    }

    method RestoreLastPiece(ghost pc: R.RestorePc, copy: Object, q: Request) returns (r: Response)
      requires Valid() && InRestore(R.Go(pc, copy)) && q == R.RestoreRequest(pc, worker.key, copy) && q.DoWork?
      modifies this
      ensures Valid() && began == old(began) && InRestore(R.RestoreStep(pc, worker.key, copy, r)) && !r.More?
    {
      r := LastPiece(q);
    }

    method MirrorCall(ghost pc: Y.MirrorPc, ghost seen: Option<Object>, q: Request) returns (r: Response)
      requires Valid() && worker.Mirror? && q == Y.MirrorRequest(pc, worker.name)
      requires if IsIdle() then !called && pc == Y.VeleroGet && seen == None else InMirror(Y.MirrorGo(pc, seen))
      modifies this
      ensures Valid() && began == old(began) && InMirror(Y.MirrorStep(pc, seen, r))
    {
      r := Request(q);
    }
  }

  lemma OthersKeepLocal(s: World, action: Action, w: Worker)
    requires !IsOwn(action, w)
    ensures At(Step(s, action), w) == At(s, w)
  {
  }

  lemma OthersKeepPass(from: History, h: History, action: Action, w: Worker, called: bool)
    requires IsPass(from, h, w, called) && !IsOwn(action, w)
    ensures IsPass(from, Then(h, action, Step(h.world, action)), w, called)
  {
    LaterIsNotEarlier(from, h, Then(h, action, Step(h.world, action)), w, called);
  }

  lemma OwnCallGoesOn(from: History, h: History, action: Action, w: Worker, called: bool)
    requires IsPass(from, h, w, called) && action.Call? && action.worker == w && (called <==> At(h.world, w).Busy?)
    ensures IsPass(from, Then(h, action, Step(h.world, action)), w, true)
  {
    LaterIsNotEarlier(from, h, Then(h, action, Step(h.world, action)), w, called);
  }

  ghost function Length(h: History): nat { if h.Then? then Length(h.before) + 1 else 0 }

  lemma {:induction false} LongerThan(from: History, h: History, w: Worker, called: bool)
    requires IsPass(from, h, w, called)
    ensures Length(from) <= Length(h)
  {
    if h != from { LongerThan(from, h.before, w, if IsOwn(h.action, w) then At(h.before.world, w).Busy? else called); }
  }

  lemma LaterIsNotEarlier(from: History, h: History, later: History, w: Worker, called: bool)
    requires IsPass(from, h, w, called) && later.Then? && later.before == h
    ensures later != from
  {
    LongerThan(from, h, w, called);
  }

  /** Whoever has called since began with the call of an idle worker: a controller reads its own resource first. */
  lemma {:induction false} FirstCall(from: History, h: History, w: Worker) returns (first: History)
    requires IsPass(from, h, w, true)
    ensures Includes(h, first) && first.Then? && first.action.Call? && first.action.worker == w && At(first.before.world, w).Idle?
    ensures IsPass(from, first.before, w, false)
    ensures w.Reconciler? ==> NextCall(w, At(first.before.world, w)) == GetObject(w.key)
  {
    if IsOwn(h.action, w) && At(h.before.world, w).Idle? { first := h; } else { first := FirstCall(from, h.before, w); }
  }

  lemma FinishedWork(a: Api, q: Request, c: Choice)
    ensures q.DoWork? && c.answer ==> !Serve(a, q, c).1.More?
  {
  }

  lemma OwnCallReacts(s: World, w: Worker, c: Choice)
    ensures var l := At(s, w);
            var q := NextCall(w, l);
            var r := if Blocked(s, q) then Rejected else Serve(s.api, q, c).1;
            At(Step(s, Call(w, c)), w) == Marked(React(w, l, r), q, s.api)
  {
  }
}
