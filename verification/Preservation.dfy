/** The invariant holds initially and is kept by every step: of a worker, of a crash, of the world. */
module Preservation {
  import opened Conditions
  import opened Cluster
  import opened System
  import opened Invariant
  import opened Rely
  import opened Stability
  import B = BackupWorkflow
  import R = RestoreWorkflow
  import Y = SyncWorkflows
  import BP = BackupProof
  import RP = RestoreProof

  // ---- one call

  lemma CallIsGuarded(s: World, w: Worker)
    requires Inv(s)
    ensures Guard(s.api, w, NextCall(w, At(s, w)))
  {
    var l := At(s, w);
    if l.Busy? {
      assert LocalOk(s.api, w, l);
      match w
      case Reconciler(key) =>
        if l.pc.BackupAt? { BP.BackupGuard(s.api, key, l.pc.b, l.copy, l.mark); }
        else { RP.RestoreGuard(s.api, key, l.pc.r, l.copy); }
      case Mirror(_) =>
      case Collector =>
    }
  }

  lemma BackupCallKeeps(a: Api, key: Key, l: Local, c: Choice)
    requires ApiOk(a) && l.Busy? && l.pc.BackupAt? && BackupLocalOk(a, key, l.pc.b, l.copy, l.mark)
    ensures var q := NextCall(Reconciler(key), l);
            var (a', r) := Serve(a, q, c);
            LocalOk(a', Reconciler(key), Marked(React(Reconciler(key), l, r), q, a))
  {
    var q := NextCall(Reconciler(key), l);
    var (a', r) := Serve(a, q, c);
    BP.BackupServed(a, key, l.pc.b, l.copy, l.mark, c);
    if q.ListProviderBackups? { ListingMarks(a, key, l.pc.b, l.copy, l.mark, c); }
  }

  lemma ListingMarks(a: Api, key: Key, pc: B.BackupPc, copy: Object, mark: Option<nat>, c: Choice)
    requires ApiOk(a) && BackupLocalOk(a, key, pc, copy, mark) && B.BackupRequest(pc, key, copy).ListProviderBackups?
    ensures var (a', r) := Serve(a, B.BackupRequest(pc, key, copy), c);
            BP.NextOk(a', key, B.BackupStep(pc, key, copy, r), Some(|a.created|))
  {
    BP.BackupServed(a, key, pc, copy, mark, c);
    assert pc.PrepareList?;
  }

  lemma RestoreCallKeeps(a: Api, key: Key, l: Local, c: Choice)
    requires ApiOk(a) && l.Busy? && l.pc.RestoreAt? && RestoreLocalOk(a, key, l.pc.r, l.copy)
    ensures var q := NextCall(Reconciler(key), l);
            var (a', r) := Serve(a, q, c);
            LocalOk(a', Reconciler(key), React(Reconciler(key), l, r)) && !q.ListProviderBackups?
  {
    RP.RestoreServed(a, key, l.pc.r, l.copy, c);
  }

  /** A listed backup that carries conditions has succeeded. */
  lemma ListedIsOk(a: Api, picked: seq<Name>)
    requires ApiOk(a)
    ensures forall v :: v in Victims(a, picked) ==> VictimOk(a, v)
  {
    forall v | v in Victims(a, picked) ensures VictimOk(a, v) {
      assert ObjectOk(a, Key(Backup, v.name));
    }
  }

  lemma StartKeeps(a: Api, w: Worker, c: Choice)
    requires ApiOk(a)
    ensures var q := NextCall(w, Idle);
            var (a', r) := Serve(a, q, c);
            LocalOk(a', w, Marked(React(w, Idle, r), q, a))
  {
    var q := NextCall(w, Idle);
    var (a', r) := Serve(a, q, c);
    if r.FoundObject? && w.Reconciler? {
      assert a' == a;
      assert ObjectOk(a, w.key);
      if w.key.kind == Backup { BP.BackupStarts(a, w.key); } else { RP.RestoreStarts(a, w.key); }
    }
    if r.FoundVictims? { ListedIsOk(a, c.picked); }
  }

  lemma CollectorKeeps(a: Api, l: Local, c: Choice)
    requires ApiOk(a) && l.Busy? && LocalOk(a, Collector, l)
    ensures var q := NextCall(Collector, l);
            var (a', r) := Serve(a, q, c);
            LocalOk(a', Collector, React(Collector, l, r)) && !q.ListProviderBackups?
  {
    var q := NextCall(Collector, l);
    var (a', r) := Serve(a, q, c);
    forall v | v in l.pc.victims ensures VictimOk(a', v) { VictimStays(a, Collector, q, c, v); }
  }

  lemma OwnCallKeeps(s: World, w: Worker, c: Choice)
    requires Inv(s) && !Blocked(s, NextCall(w, At(s, w)))
    ensures var l := At(s, w);
            var q := NextCall(w, l);
            var (a', r) := Serve(s.api, q, c);
            LocalOk(a', w, Marked(React(w, l, r), q, s.api))
  {
    var l := At(s, w);
    if l.Idle? {
      StartKeeps(s.api, w, c);
    } else {
      assert LocalOk(s.api, w, l);
      match w
      case Reconciler(key) =>
        if l.pc.BackupAt? { BackupCallKeeps(s.api, key, l, c); } else { RestoreCallKeeps(s.api, key, l, c); }
      case Mirror(_) =>
      case Collector => CollectorKeeps(s.api, l, c);
    }
  }

  lemma OtherLocalStays(a: Api, a': Api, w: Worker, l: Local)
    requires ApiOk(a) && LocalOk(a, w, l) && StaleStays(a, a')
    requires l.Busy? && w.Reconciler? && w.key.kind in {Backup, Restore} && w.key.name != 0 ==> Quiet(a, a', w.key)
    requires l.Busy? && w == Collector && l.pc.CollectAt? ==> forall v :: v in l.pc.victims && VictimOk(a, v) ==> VictimOk(a', v)
    ensures LocalOk(a', w, l)
  {
    if l.Busy? && w.Reconciler? {
      if l.pc.BackupAt? { BackupStays(a, a', w.key, l.pc.b, l.copy, l.mark); }
      else { RestoreStays(a, a', w.key, l.pc.r, l.copy); }
    }
  }

  lemma OtherCallKeeps(s: World, w: Worker, c: Choice, w2: Worker)
    requires Inv(s) && !Blocked(s, NextCall(w, At(s, w))) && w2 in s.locals && w2 != w
    ensures LocalOk(Serve(s.api, NextCall(w, At(s, w)), c).0, w2, s.locals[w2])
  {
    var q, l2 := NextCall(w, At(s, w)), s.locals[w2];
    var a' := Serve(s.api, q, c).0;
    CallIsGuarded(s, w);
    ServeKeepsStale(s.api, w, q, c);
    assert LocalOk(s.api, w2, l2);
    if l2.Busy? && w2.Reconciler? && w2.key.kind in {Backup, Restore} && w2.key.name != 0 { ServeIsQuiet(s.api, w, q, c, w2.key); }
    if l2.Busy? && w2 == Collector && l2.pc.CollectAt? {
      forall v | v in l2.pc.victims && VictimOk(s.api, v) ensures VictimOk(a', v) { VictimStays(s.api, w, q, c, v); }
    }
    OtherLocalStays(s.api, a', w2, l2);
  }

  lemma CallKeeps(s: World, w: Worker, c: Choice)
    requires Inv(s)
    ensures Inv(StepCall(s, w, c))
  {
    var l := At(s, w);
    var q := NextCall(w, l);
    var s' := StepCall(s, w, c);
    if Blocked(s, q) {
      BlockedKeeps(s, w, c);
    } else {
      CallIsGuarded(s, w);
      ServeKeeps(s.api, w, q, c);
      forall w2 | w2 in s'.locals ensures LocalOk(s'.api, w2, s'.locals[w2]) {
        if w2 == w { OwnCallKeeps(s, w, c); } else { OtherCallKeeps(s, w, c, w2); }
      }
    }
  }

  lemma BlockedKeeps(s: World, w: Worker, c: Choice)
    requires Inv(s) && Blocked(s, NextCall(w, At(s, w)))
    ensures Inv(StepCall(s, w, c))
  {
    OnlyTheMirrorCreates(s, w);
    var s' := StepCall(s, w, c);
    assert s'.api == s.api;
    assert s'.locals[w] == Idle;
  }

  lemma OnlyTheMirrorCreates(s: World, w: Worker)
    requires Inv(s)
    ensures NextCall(w, At(s, w)).CreateSynced? ==> w.Mirror? && At(s, w).Busy? && At(s, w).pc.m.MirrorCreate?
  {
    if At(s, w).Busy? { assert LocalOk(s.api, w, At(s, w)); }
  }

  // ---- the world

  predicate OnProvider(h: Happening) {
    !h.UserCreates? && !h.UserEdits? && !h.UserDeletes? && !h.AdminDropsLease?
  }

  lemma ProviderHappens(s: World, h: Happening)
    requires OnProvider(h)
    ensures var a, a' := s.api, Happen(s, h);
            a'.objects == a.objects && a'.lease == a.lease && a'.past == a.past && a'.created == a.created
            && a'.parents == a.parents && a.counter <= a'.counter
            && forall n :: n in a'.restores ==>
                 a'.restores[n].owner == 0 || (n in a.restores && a'.restores[n].owner == a.restores[n].owner)
  {
  }

  lemma HappeningKeeps(s: World, h: Happening)
    requires ApiOk(s.api)
    ensures ApiOk(Happen(s, h))
  {
    var a, a' := s.api, Happen(s, h);
    match h
    case UserCreates(key, source, legacy, synced) =>
      if a' != a { CreateKeeps(a, key, Object(a.counter, 0, false, false, false, synced && key.kind == Backup, source, false, map[], legacy)); }
    case UserEdits(key, source) =>
      if key in a.objects {
        assert ObjectOk(a, key);
        StoreKeeps(a, key, a.objects[key].(source := source, labeled := false));
      }
    case UserDeletes(key) => DeleteKeeps(a, key);
    case AdminDropsLease => UnnamedLeaseGoes(a);
    case _ =>
      ProviderHappens(s, h);
      ProviderAlikeKeeps(a, a');
  }

  lemma ProviderAlikeKeeps(a: Api, a': Api)
    requires ApiOk(a)
    requires a'.objects == a.objects && a'.lease == a.lease && a'.past == a.past && a'.parents == a.parents && a.counter <= a'.counter
    requires forall n :: n in a'.restores ==>
               a'.restores[n].owner == 0 || (n in a.restores && a'.restores[n].owner == a.restores[n].owner)
    ensures ApiOk(a')
  {
    forall k | k in a'.objects ensures ObjectOk(a', k) { assert ObjectOk(a, k); }
    SamePastKeeps(a, a');
    assert ParentsOk(a') && KeptOk(a');
  }

  lemma UnnamedLeaseGoes(a: Api)
    requires ApiOk(a)
    ensures a.lease.Some? && !IsNamed(a.lease.value) ==> ApiOk(a.(lease := None))
  {
    if a.lease.Some? && !IsNamed(a.lease.value) {
      var a' := a.(lease := None);
      forall k | k in a'.objects ensures ObjectOk(a', k) { assert ObjectOk(a, k); }
      SamePastKeeps(a, a');
      forall k | k in a.objects ensures !Names(a.lease, k, a.objects[k].uid) { assert ObjectOk(a, k); }
      assert KeptOk(a');
    }
  }

  lemma HappeningIsQuiet(s: World, h: Happening, key: Key)
    requires ApiOk(s.api) && At(s, Reconciler(key)).Busy? && key.kind in {Backup, Restore} && key.name != 0
    ensures Quiet(s.api, Happen(s, h), key)
  {
    if OnProvider(h) { ProviderHappens(s, h); }
    else if h.UserDeletes? { ObjectCallIsQuiet(s.api, Collector, DeleteObject(h.key), Choice(Fine, false, None, []), key); }
  }

  lemma HappeningKeepsStale(s: World, h: Happening)
    requires ApiOk(s.api)
    ensures StaleStays(s.api, Happen(s, h))
  {
    var a, a' := s.api, Happen(s, h);
    if h.UserDeletes? {
      ObjectCallKeepsStale(a, Collector, DeleteObject(h.key), Choice(Fine, false, None, []));
    } else if h.UserCreates? || h.UserEdits? {
      forall seen | seen in a.past && IsNamed(seen) && a'.lease == Some(seen)
        ensures a.lease == Some(seen) && (!IsActive(a, seen.holder) ==> !IsActive(a', seen.holder))
      {
        var key := Key(seen.holder.kind, seen.holder.name);
        if key in a.objects { assert ObjectOk(a, key); }
      }
    } else {
      if OnProvider(h) { ProviderHappens(s, h); }
      SameObjectsKeepStale(a, a');
    }
  }

  lemma HappeningKeepsVictim(s: World, h: Happening, v: Victim)
    requires ApiOk(s.api) && VictimOk(s.api, v)
    ensures VictimOk(Happen(s, h), v)
  {
    if OnProvider(h) { ProviderHappens(s, h); }
    else if h.UserDeletes? { VictimStaysOnObjectCall(s.api, Collector, DeleteObject(h.key), Choice(Fine, false, None, []), v); }
  }

  lemma OutsideKeeps(s: World, h: Happening)
    requires Inv(s)
    ensures Inv(Step(s, Outside(h)))
  {
    var a' := Happen(s, h);
    HappeningKeeps(s, h);
    HappeningKeepsStale(s, h);
    forall w | w in s.locals ensures LocalOk(a', w, s.locals[w]) {
      var l := s.locals[w];
      assert LocalOk(s.api, w, l);
      if l.Busy? && w.Reconciler? && w.key.kind in {Backup, Restore} && w.key.name != 0 { HappeningIsQuiet(s, h, w.key); }
      if l.Busy? && w == Collector && l.pc.CollectAt? {
        forall v | v in l.pc.victims && VictimOk(s.api, v) ensures VictimOk(a', v) { HappeningKeepsVictim(s, h, v); }
      }
      OtherLocalStays(s.api, a', w, l);
    }
  }

  // ---- all runs

  lemma InitHolds(s: World)
    requires Init(s)
    ensures Inv(s)
  {
    var a := s.api;
    forall k | k in a.objects ensures ObjectOk(a, k) { }
    assert LeaseOk(a);
    assert KeptOk(a);
  }

  lemma StepKeeps(s: World, action: Action)
    requires Inv(s)
    ensures Inv(Step(s, action))
  {
    match action
    case Call(w, c) => CallKeeps(s, w, c);
    case Crash(_) =>
    case Outside(h) => OutsideKeeps(s, h);
  }

  lemma {:induction false} InvHolds(run: seq<World>, actions: seq<Action>, n: nat)
    requires IsRun(run, actions) && n < |run|
    ensures Inv(run[n])
  {
    if n == 0 {
      InitHolds(run[0]);
    } else {
      InvHolds(run, actions, n - 1);
      StepKeeps(run[n - 1], actions[n - 1]);
    }
  }
}
