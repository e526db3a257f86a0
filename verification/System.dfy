/** The whole operator as one transition system. Every worker makes one API call per step, workers and
    the world interleave in any order, a call may fail before or after it took effect, and a worker may
    lose its pass at any point and start over from what is stored. */
module System {
  import opened Conditions
  import opened Cluster
  import opened Leases
  import B = BackupWorkflow
  import R = RestoreWorkflow
  import Y = SyncWorkflows

  datatype Worker = Reconciler(key: Key) | Mirror(name: Name) | Collector

  datatype Pc =
    | BackupAt(b: B.BackupPc)
    | RestoreAt(r: R.RestorePc)
    | MirrorAt(m: Y.MirrorPc, seen: Option<Object>)
    | CollectAt(victims: seq<Victim>)

  datatype Exchange = Exchange(request: Request, response: Response)

  /** A worker between two calls. `copy` is the resource as the pass last saw it, `trail` the calls of this
      pass with their answers, `mark` how many provider backups the operator had created when this pass
      found no other one running. */
  datatype Local = Idle | Busy(pc: Pc, copy: Object, mark: Option<nat>, trail: seq<Exchange>)

  datatype World = World(api: Api, locals: map<Worker, Local>)

  /** What happens outside the operator. */
  datatype Happening =
    | UserCreates(key: Key, source: Name, legacy: Legacy, synced: bool)
    | UserEdits(key: Key, source: Name)
    | UserDeletes(key: Key)
    | VeleroBackupIs(name: Name, backup: ProviderBackup)
    | VeleroBackupGone(name: Name)
    | RequestIs(name: Name, processed: bool)
    | RequestGone(name: Name)
    | ChildIs(name: Name, state: RestoreState)
    | ChildGone(name: Name)
    | ForeignChild(name: Name, source: Name)
    | MaintenanceIs(on: bool)
    | AdminDropsLease

  datatype Action = Call(worker: Worker, choice: Choice) | Crash(worker: Worker) | Outside(happening: Happening)

  /** The worker itself does it: makes its next call, or loses its pass. */
  predicate IsOwn(action: Action, w: Worker) { (action.Call? || action.Crash?) && action.worker == w }

  function At(s: World, w: Worker): Local { if w in s.locals then s.locals[w] else Idle }

  // ---- one call of one worker

  function NextCall(w: Worker, l: Local): Request {
    if l.Idle? then
      match w
      case Reconciler(key) => GetObject(key)
      case Mirror(name) => Y.MirrorRequest(Y.VeleroGet, name)
      case Collector => ListCompleted
    else
      match l.pc
      case BackupAt(pc) => if w.Reconciler? then B.BackupRequest(pc, w.key, l.copy) else Ask
      case RestoreAt(pc) => if w.Reconciler? then R.RestoreRequest(pc, w.key, l.copy) else Ask
      case MirrorAt(pc, seen) => if w.Mirror? then Y.MirrorRequest(pc, w.name) else Ask
      case CollectAt(victims) => Y.CollectRequest(Some(victims))
  }

  const NO_OBJECT := Object(0, 0, false, false, false, false, 0, false, map[], NoLegacy)

  function OfBackup(n: B.BackupNext, l: Local, trail: seq<Exchange>): Local {
    if n.Stop? then Idle else Busy(BackupAt(n.pc), n.copy, if l.Busy? then l.mark else None, trail)
  }

  function OfRestore(n: R.RestoreNext, trail: seq<Exchange>): Local {
    if n.Stop? then Idle else Busy(RestoreAt(n.pc), n.copy, None, trail)
  }

  function OfMirror(n: Y.MirrorNext, trail: seq<Exchange>): Local {
    if n.MirrorStop? then Idle else Busy(MirrorAt(n.pc, n.copy), NO_OBJECT, None, trail)
  }

  function OfCollector(victims: Option<seq<Victim>>, trail: seq<Exchange>): Local {
    if victims.None? then Idle else Busy(CollectAt(victims.value), NO_OBJECT, None, trail)
  }

  function React(w: Worker, l: Local, r: Response): Local {
    var said := Exchange(NextCall(w, l), r);
    if l.Idle? then
      match w
      case Reconciler(key) =>
        if !r.FoundObject? then Idle
        else if key.kind == Backup then OfBackup(B.Start(r.obj), l, [said])
        else if key.kind == Restore then OfRestore(R.Start(r.obj), [said])
        else Idle
      case Mirror(name) => OfMirror(Y.MirrorStep(Y.VeleroGet, None, r), [said])
      case Collector => OfCollector(Y.CollectStep(None, r), [said])
    else
      var trail := l.trail + [said];
      match l.pc
      case BackupAt(pc) => if w.Reconciler? then OfBackup(B.BackupStep(pc, w.key, l.copy, r), l, trail) else Idle
      case RestoreAt(pc) => if w.Reconciler? then OfRestore(R.RestoreStep(pc, w.key, l.copy, r), trail) else Idle
      case MirrorAt(pc, seen) => OfMirror(Y.MirrorStep(pc, seen, r), trail)
      case CollectAt(victims) => OfCollector(Y.CollectStep(Some(victims), r), trail)
  }

  /** The pass remembers when it looked for running provider backups. */
  function Marked(l: Local, request: Request, api: Api): Local {
    if l.Busy? && request.ListProviderBackups? then l.(mark := Some(|api.created|)) else l
  }

  /** A name is given away again only between two passes over its old object. */
  predicate Blocked(s: World, request: Request) {
    request.CreateSynced? && At(s, Reconciler(Key(Backup, request.name))).Busy?
  }

  function StepCall(s: World, w: Worker, c: Choice): World {
    var l := At(s, w);
    var request := NextCall(w, l);
    var served := if Blocked(s, request) then (s.api, Rejected) else Serve(s.api, request, c);
    World(served.0, s.locals[w := Marked(React(w, l, served.1), request, s.api)])
  }

  // ---- the world

  function Happen(s: World, h: Happening): Api {
    var a := s.api;
    match h
    case UserCreates(key, source, legacy, synced) =>
      if key in a.objects || key.name == 0 || key.kind !in {Backup, Restore} || At(s, Reconciler(key)).Busy? then a
      else Store(a, key, Object(a.counter, 0, false, false, false, synced && key.kind == Backup, source, false, map[], legacy))
    case UserEdits(key, source) =>
      if key !in a.objects then a else Store(a, key, a.objects[key].(source := source, labeled := false))
    case UserDeletes(key) => ObjectCall(a, DeleteObject(key), Choice(Fine, false, None, [])).0
    case VeleroBackupIs(name, backup) => a.(backups := a.backups[name := backup])
    case VeleroBackupGone(name) => a.(backups := a.backups - {name})
    case RequestIs(name, processed) => a.(requests := a.requests[name := processed])
    case RequestGone(name) => a.(requests := a.requests - {name})
    case ChildIs(name, state) =>
      if name in a.restores then a.(restores := a.restores[name := a.restores[name].(state := state)]) else a
    case ChildGone(name) => a.(restores := a.restores - {name})
    case ForeignChild(name, source) =>
      if name in a.restores then a
      else a.(restores := a.restores[name := ProviderRestore(a.counter, 0, source, false, RestorePending)],
              counter := a.counter + 1)
    case MaintenanceIs(on) => a.(maintenance := on)
    case AdminDropsLease => if a.lease.Some? && !IsNamed(a.lease.value) then a.(lease := None) else a
  }

  /** A lease that names a resource of a kind this operator reconciles. */
  predicate IsNamed(l: Lease) { !IsMalformed(l) && l.holder.kind != OtherKind }

  function Step(s: World, action: Action): World {
    match action
    case Call(w, c) => StepCall(s, w, c)
    case Crash(w) => s.(locals := s.locals - {w})
    case Outside(h) => s.(api := Happen(s, h))
  }

  /** No pass is running, resources are untouched by this operator, and no lease names one of them. A
      malformed lease or one of a foreign kind may be there. */
  predicate Init(s: World) {
    var a := s.api;
    s.locals == map[] && a.counter > 0
    && (forall key :: key in a.objects ==>
          key.kind in {Backup, Restore} && key.name != 0 && 0 < a.objects[key].uid < a.counter && a.objects[key].version < a.counter
          && !a.objects[key].deleting && (a.objects[key].synced ==> key.kind == Backup) && a.objects[key].conditions == map[])
    && (forall k1, k2 :: k1 in a.objects && k2 in a.objects && a.objects[k1].uid == a.objects[k2].uid ==> k1 == k2)
    && (a.lease.Some? ==> a.lease.value.version < a.counter && a.lease.value.holder.uid < a.counter && !IsNamed(a.lease.value) && a.past == {a.lease.value})
    && (a.lease.None? ==> a.past == {})
    && a.created == [] && a.parents == {}
    && forall n :: n in a.restores ==> a.restores[n].owner == 0 && a.restores[n].uid < a.counter
  }

  /** A whole run: it starts in an initial state, and every action makes the next state of the last one. */
  ghost predicate IsRun(run: seq<World>, actions: seq<Action>) {
    |run| == |actions| + 1 && Init(run[0])
    && forall i {:trigger actions[i]} :: 0 <= i < |actions| ==> run[i + 1] == Step(run[i], actions[i])
  }

  lemma ExtendRun(run: seq<World>, actions: seq<Action>, action: Action)
    requires IsRun(run, actions)
    ensures IsRun(run + [Step(run[|run| - 1], action)], actions + [action])
  {
  }

  ghost function Play(s: World, actions: seq<Action>): (run: seq<World>)
    ensures |run| == |actions| + 1
  {
    if actions == [] then [s]
    else
      var before := Play(s, actions[..|actions| - 1]);
      before + [Step(before[|before| - 1], actions[|actions| - 1])]
  }

  /** Every choice of actions gives a run from every initial state. */
  lemma {:induction false} PlayIsRun(s: World, actions: seq<Action>)
    requires Init(s)
    ensures IsRun(Play(s, actions), actions) && Play(s, actions)[0] == s
  {
    if actions != [] {
      var n := |actions| - 1;
      PlayIsRun(s, actions[..n]);
      ExtendRun(Play(s, actions[..n]), actions[..n], actions[n]);
      assert actions == actions[..n] + [actions[n]];
    }
  }
}
