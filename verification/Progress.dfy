/** How a stored resource changes from step to step, and what therefore never goes back in any run. */
module Progress {
  import opened Conditions
  import opened Cluster
  import opened System
  import opened Invariant
  import opened Rely
  import opened Preservation
  import opened History
  import B = BackupWorkflow
  import R = RestoreWorkflow

  /** The call that worker `w` makes when it is next given a turn. */
  function Asked(s: World, w: Worker): Request { NextCall(w, At(s, w)) }

  /** Nothing changed but what a user or the metadata stage may change. */
  predicate SameStatus(o: Object, o': Object) {
    o'.uid == o.uid && o'.conditions == o.conditions && o'.started == o.started && o'.legacy == o.legacy
    && o'.synced == o.synced && (o.deleting ==> o'.deleting)
  }

  /** The resource's own worker writes its status. */
  predicate WritesStatus(s: World, action: Action, key: Key) {
    action.Call? && action.worker == Reconciler(key)
    && var q := Asked(s, action.worker);
       (q.WriteStatus? || q.PatchStatus?) && q.key == key
  }

  function Written(o: Object, q: Request): Object {
    match q
    case WriteStatus(_, changes) => WithMerged(o, changes)
    case PatchStatus(_, conditions, start) => WithPatched(o, conditions, start)
    case _ => o
  }

  lemma ServedObject(a: Api, q: Request, c: Choice, key: Key)
    requires key in Serve(a, q, c).0.objects
    ensures var o' := Serve(a, q, c).0.objects[key];
            (q == CreateSynced(key.name) && o'.uid >= a.counter)
            || (key in a.objects
                && (SameStatus(a.objects[key], o')
                    || ((q.WriteStatus? || q.PatchStatus?) && q.key == key && SameStatus(Written(a.objects[key], q), o'))))
  {
    ServeCases(a, q, c);
    if OnObjects(q) {
      assert Effect(a, q, c) == ObjectCall(a, q, c);
      if !Writes(q, key) && q != DeleteObject(key) && q != CreateSynced(key.name) { ObjectFrame(a, q, c, key); }
    } else if OnLease(q) {
      assert Effect(a, q, c) == LeaseCall(a, q, c);
      assert Effect(a, q, c).0.objects == a.objects;
    } else {
      assert Effect(a, q, c) == ProviderCall(a, q, c);
      ProviderFrame(a, q, c);
    }
  }

  /** A resource is new, or keeps its status, or gets the status that its own worker asked for. */
  lemma StepOnObject(s: World, action: Action, key: Key)
    requires Inv(s) && key in Step(s, action).api.objects
    ensures var a, o' := s.api, Step(s, action).api.objects[key];
            o'.uid >= a.counter
            || (key in a.objects
                && (SameStatus(a.objects[key], o')
                    || (WritesStatus(s, action, key) && SameStatus(Written(a.objects[key], Asked(s, action.worker)), o'))))
  {
    match action
    case Call(w, c) =>
      var q := Asked(s, w);
      if !Blocked(s, q) {
        ServedObject(s.api, q, c, key);
        CallIsGuarded(s, w);
      }
    case Crash(_) =>
    case Outside(h) => HappenedObject(s, h, key);
  }

  lemma HappenedObject(s: World, h: Happening, key: Key)
    requires key in Happen(s, h).objects
    ensures var o' := Happen(s, h).objects[key];
            o'.uid >= s.api.counter || (key in s.api.objects && SameStatus(s.api.objects[key], o'))
  {
    if OnProvider(h) { ProviderHappens(s, h); }
    else if h.UserDeletes? { DeletedObject(s.api, h.key, key); }
  }

  lemma DeletedObject(a: Api, gone: Key, key: Key)
    requires key in ObjectCall(a, DeleteObject(gone), Choice(Fine, false, None, [])).0.objects
    ensures key in a.objects && SameStatus(a.objects[key], ObjectCall(a, DeleteObject(gone), Choice(Fine, false, None, [])).0.objects[key])
  {
  }

  /** How far an operation has come. */
  function Rank(key: Key, o: Object): nat {
    if key.kind == Backup then
      match B.RequiredOperation(o)
      case OperationCreate => 0
      case OperationFinalize => 1
      case OperationIgnore => 2
      case OperationDelete => 3
    else
      match R.RequiredOperation(o)
      case OperationCreate => 0
      case OperationIgnore => 2
      case OperationDelete => 3
  }

  predicate Onwards(key: Key, o: Object, o': Object) {
    o'.synced == o.synced && Rank(key, o) <= Rank(key, o')
    && (key.kind == Backup && B.IsPostProcessing(o.conditions) ==> B.IsPostProcessing(o'.conditions))
    && (Decided(o.conditions, Succeeded) ==> Decided(o'.conditions, Succeeded))
    && (key.kind == Restore && IsTrue(o.conditions, Prepared) ==> IsTrue(o'.conditions, Prepared))
  }

  lemma EvolvingIsOnwards(key: Key, o: Object, o': Object)
    requires Evolves(key, o, o') && key.kind in {Backup, Restore}
    requires key.kind == Restore ==> !(o.deleting && !o'.deleting)
    ensures Onwards(key, o, o')
  {
  }

  lemma SameIsOnwards(key: Key, o: Object, o': Object)
    requires SameStatus(o, o')
    ensures Onwards(key, o, o')
  {
  }

  lemma StepIsOnwards(s: World, action: Action, key: Key)
    requires Inv(s) && key in s.api.objects && key in Step(s, action).api.objects
    requires s.api.objects[key].uid == Step(s, action).api.objects[key].uid
    ensures Onwards(key, s.api.objects[key], Step(s, action).api.objects[key])
  {
    var o, o' := s.api.objects[key], Step(s, action).api.objects[key];
    assert ObjectOk(s.api, key);
    StepOnObject(s, action, key);
    if SameStatus(o, o') {
      SameIsOnwards(key, o, o');
    } else {
      var q := Asked(s, action.worker);
      CallIsGuarded(s, action.worker);
      EvolvingIsOnwards(key, o, Written(o, q));
      SameIsOnwards(key, Written(o, q), o');
    }
  }

  lemma StepCounts(s: World, action: Action)
    requires Inv(s)
    ensures s.api.counter <= Step(s, action).api.counter && s.api.past <= Step(s, action).api.past
            && s.api.created <= Step(s, action).api.created && s.api.parents <= Step(s, action).api.parents
  {
    match action
    case Call(w, c) => if !Blocked(s, Asked(s, w)) { ServeCounts(s.api, Asked(s, w), c); }
    case Crash(_) =>
    case Outside(h) => HappenCounts(s, h);
  }

  lemma ServeCounts(a: Api, q: Request, c: Choice)
    ensures var a' := Serve(a, q, c).0;
            a.counter <= a'.counter && a.past <= a'.past && a.created <= a'.created && a.parents <= a'.parents
  {
    ServeCases(a, q, c);
    if OnObjects(q) { assert Effect(a, q, c) == ObjectCall(a, q, c); ObjectCounts(a, q, c); }
    else if OnLease(q) { assert Effect(a, q, c) == LeaseCall(a, q, c); }
    else { assert Effect(a, q, c) == ProviderCall(a, q, c); ProviderFrame(a, q, c); }
  }

  lemma ObjectCounts(a: Api, q: Request, c: Choice)
    requires OnObjects(q)
    ensures var a' := ObjectCall(a, q, c).0;
            a.counter <= a'.counter && a'.past == a.past && a'.created == a.created && a'.parents == a.parents
  {
  }

  lemma HappenCounts(s: World, h: Happening)
    ensures var a, a' := s.api, Happen(s, h);
            a.counter <= a'.counter && a'.past == a.past && a'.created == a.created && a'.parents == a.parents
  {
    if OnProvider(h) { ProviderHappens(s, h); }
    else if h.UserDeletes? { ObjectCounts(s.api, DeleteObject(h.key), Choice(Fine, false, None, [])); }
  }

  // ---- over whole runs

  ghost predicate Counts(a: Api, a': Api) {
    a.counter <= a'.counter && a.past <= a'.past && a.created <= a'.created && a.parents <= a'.parents
  }

  /** The resource that is stored under this key after the step was there before, or is new. */
  ghost predicate Continues(a: Api, a': Api, key: Key) {
    key in a'.objects ==>
      a'.objects[key].uid >= a.counter
      || (key in a.objects && a'.objects[key].uid == a.objects[key].uid && Onwards(key, a.objects[key], a'.objects[key]))
  }

  lemma StepContinues(s: World, action: Action, key: Key)
    requires Inv(s)
    ensures Continues(s.api, Step(s, action).api, key)
  {
    if key in Step(s, action).api.objects {
      StepOnObject(s, action, key);
      if Step(s, action).api.objects[key].uid < s.api.counter { StepIsOnwards(s, action, key); }
    }
  }

  lemma LastStep(run: seq<World>, actions: seq<Action>, m: nat, key: Key)
    requires IsRun(run, actions) && 0 < m < |run|
    ensures Counts(run[m - 1].api, run[m].api) && Continues(run[m - 1].api, run[m].api, key)
  {
    InvHolds(run, actions, m - 1);
    StepCounts(run[m - 1], actions[m - 1]);
    StepContinues(run[m - 1], actions[m - 1], key);
  }

  lemma {:induction false} RunCounts(run: seq<World>, actions: seq<Action>, n: nat, m: nat)
    requires IsRun(run, actions) && n <= m < |run|
    ensures Counts(run[n].api, run[m].api)
  {
    if n < m {
      RunCounts(run, actions, n, m - 1);
      LastStep(run, actions, m, Key(NoKind, 0));
    }
  }

  lemma OnwardsIsTransitive(key: Key, o1: Object, o2: Object, o3: Object)
    requires Onwards(key, o1, o2) && Onwards(key, o2, o3)
    ensures Onwards(key, o1, o3)
  {
  }

  /** Create, finalize, ignore, delete: an operation never goes back, whatever fails in between. */
  lemma {:induction false} NothingGoesBack(run: seq<World>, actions: seq<Action>, n: nat, m: nat, key: Key)
    requires IsRun(run, actions) && n <= m < |run|
    requires key in run[n].api.objects && key in run[m].api.objects
    requires run[n].api.objects[key].uid == run[m].api.objects[key].uid
    ensures Onwards(key, run[n].api.objects[key], run[m].api.objects[key])
  {
    if n < m {
      InvHolds(run, actions, n);
      assert ObjectOk(run[n].api, key);
      RunCounts(run, actions, n, m - 1);
      LastStep(run, actions, m, key);
      NothingGoesBack(run, actions, n, m - 1, key);
      OnwardsIsTransitive(key, run[n].api.objects[key], run[m - 1].api.objects[key], run[m].api.objects[key]);
    }
  }
}
