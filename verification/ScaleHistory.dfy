/** Scaling down and up again undoes itself, however often single attempts fail in between. */
module ScaleHistory {
  import opened Conditions
  import opened Decimal
  import opened Scale

  /** A workload as a restore finds it: in the scope only without a saved count, and with a replica count set. */
  predicate IsFresh(w: Workload) {
    IsScoped(w) ==> SAVED !in w.labels && w.replicas.Some? && IsInt32(w.replicas.value)
  }

  function Saved(w: Workload): Workload { Applied(Down, w) }

  function Restored(w: Workload): Workload { Applied(Up, Applied(Down, w)) }

  /** One workload's way down and up again. */
  lemma Cycle(w: Workload)
    requires IsFresh(w)
    ensures Applied(Down, Saved(w)) == Saved(w)
    ensures Applied(Up, Saved(w)) == Restored(w) && Applied(Up, Restored(w)) == Restored(w) && Applied(Up, w) == w
    ensures Applied(Finalize, Restored(w)) == w && Applied(Finalize, w) == w
    ensures Restored(w).replicas == w.replicas
  {
    if IsScoped(w) {
      assert w.labels - {SAVED} == w.labels;
      assert w.labels[SAVED := FormatInt(w.replicas.value)] - {SAVED} == w.labels;
      ParseAfterFormat(w.replicas.value);
    }
  }

  /** For a single workload that nobody labeled before, the way down and up again leads back exactly if its replica
      count is set; a missing count becomes 0. */
  lemma CycleIff(w: Workload)
    requires IsScoped(w) && SAVED !in w.labels && !(w.kind == ReplicaSet && w.owned) && (w.replicas.Some? ==> IsInt32(w.replicas.value))
    ensures Applied(Finalize, Restored(w)) == w <==> w.replicas.Some?
    ensures w.replicas.None? ==> Applied(Finalize, Restored(w)) == w.(replicas := Some(0))
  {
    var count := if w.replicas.Some? then w.replicas.value else 0;
    ParseAfterFormat(count);
    assert w.labels[SAVED := FormatInt(count)] - {SAVED} == w.labels;
  }

  // ---- histories of attempts

  datatype Attempt = Attempt(op: Op, ok: bool)

  /** The workloads before, between and after the attempts; only the attempts change them. */
  predicate IsHistory(states: seq<Workloads>, attempts: seq<Attempt>) {
    |states| == |attempts| + 1
    && forall k {:trigger attempts[k]} :: 0 <= k < |attempts| ==> Attempted(attempts[k].op, states[k], states[k + 1], attempts[k].ok)
  }

  /** Where a workload may be on its way down and up again. */
  datatype Place = Original | Lowered | Raised

  function Placed(w: Workload, p: Place): Workload {
    match p
    case Original => w
    case Lowered => Saved(w)
    case Raised => Restored(w)
  }

  function Next(p: Place, op: Op): Place {
    match op
    case Down => if p == Original then Lowered else p
    case Up => if p == Lowered then Raised else p
    case Finalize => if p == Raised then Original else p
  }

  /** The places an attempt may lead to; from a removal that finds the workload lowered there is no way back. */
  function Moves(p: Place, a: Attempt): set<Place> {
    (if a.ok then {} else {p}) + (if a.op == Finalize && p == Lowered then {} else {Next(p, a.op)})
  }

  function After(places: set<Place>, a: Attempt): set<Place> { set p, q | p in places && q in Moves(p, a) :: q }

  /** Where a workload may be after the first k attempts. */
  function Possible(attempts: seq<Attempt>, k: nat): set<Place>
    requires k <= |attempts|
  {
    if k == 0 then {Original} else After(Possible(attempts, k - 1), attempts[k - 1])
  }

  /** No attempt to remove the saved counts may find a workload lowered. */
  predicate IsSafe(attempts: seq<Attempt>) {
    forall k {:trigger attempts[k]} :: 0 <= k < |attempts| && attempts[k].op == Finalize ==> Lowered !in Possible(attempts, k)
  }

  predicate IsPlaced(w: Workload, now: Workload, places: set<Place>) { exists p <- places :: now == Placed(w, p) }

  /** Every workload is at one of these places. */
  predicate AllPlaced(first: Workloads, now: Workloads, places: set<Place>) {
    now.Keys == first.Keys && forall id :: id in first ==> IsPlaced(first[id], now[id], places)
  }

  predicate AllFresh(m: Workloads) { forall id :: id in m ==> IsFresh(m[id]) }

  lemma PlaceMoves(w: Workload, p: Place, op: Op)
    requires IsFresh(w) && !(op == Finalize && p == Lowered)
    ensures Applied(op, Placed(w, p)) == Placed(w, Next(p, op))
  {
    Cycle(w);
  }

  lemma AttemptMoves(first: Workloads, before: Workloads, after: Workloads, a: Attempt, places: set<Place>, next: set<Place>)
    requires AllFresh(first) && AllPlaced(first, before, places) && Attempted(a.op, before, after, a.ok)
    requires a.op == Finalize ==> Lowered !in places
    requires forall p, q :: p in places && q in Moves(p, a) ==> q in next
    ensures AllPlaced(first, after, next)
  {
    forall id | id in first ensures IsPlaced(first[id], after[id], next) {
      var p :| p in places && before[id] == Placed(first[id], p);
      PlaceMoves(first[id], p, a.op);
      EveryKind(before[id].kind);
      if a.ok || after[id] != before[id] {
        assert Next(p, a.op) in Moves(p, a);
      } else {
        assert p in Moves(p, a);
      }
    }
  }

  lemma {:induction false} AllArePossible(states: seq<Workloads>, attempts: seq<Attempt>, k: nat)
    requires IsHistory(states, attempts) && AllFresh(states[0]) && k <= |attempts|
    requires forall f :: 0 <= f < k && attempts[f].op == Finalize ==> Lowered !in Possible(attempts, f)
    ensures AllPlaced(states[0], states[k], Possible(attempts, k))
  {
    if k > 0 {
      AllArePossible(states, attempts, k - 1);
      AttemptMoves(states[0], states[k - 1], states[k], attempts[k - 1], Possible(attempts, k - 1), Possible(attempts, k));
    }
  }

  lemma LastRemoval(attempts: seq<Attempt>, p: Place)
    requires attempts != [] && attempts[|attempts| - 1] == Attempt(Finalize, true) && IsSafe(attempts) && p in Possible(attempts, |attempts|)
    ensures p == Original
  {
    var n := |attempts| - 1;
    var q :| q in Possible(attempts, n) && p in Moves(q, attempts[n]);
    assert attempts[n].op == Finalize;
  }

  /** However often attempts fail in between, and however the operations are mixed: if no removal may find a workload lowered
      and the last attempt is a successful removal, all replica counts and labels are what they were in the beginning. */
  lemma RoundTrip(states: seq<Workloads>, attempts: seq<Attempt>)
    requires IsHistory(states, attempts) && AllFresh(states[0]) && IsSafe(attempts)
    requires attempts != [] && attempts[|attempts| - 1] == Attempt(Finalize, true)
    ensures states[|attempts|] == states[0]
  {
    var first, last := states[0], states[|attempts|];
    AllArePossible(states, attempts, |attempts|);
    forall id | id in first ensures last[id] == first[id] {
      var p :| p in Possible(attempts, |attempts|) && last[id] == Placed(first[id], p);
      LastRemoval(attempts, p);
    }
  }

  // ---- and otherwise the counts are lost

  /** A way through the places that the attempts may take. */
  predicate IsWay(way: seq<Place>, attempts: seq<Attempt>) {
    |way| > 0 && |way| <= |attempts| + 1 && way[0] == Original
    && forall k {:trigger attempts[k]} :: 0 <= k < |way| - 1 ==> way[k + 1] in Moves(way[k], attempts[k])
  }

  lemma {:induction false} WayTo(attempts: seq<Attempt>, k: nat, p: Place) returns (way: seq<Place>)
    requires k <= |attempts| && p in Possible(attempts, k)
    ensures IsWay(way, attempts) && |way| == k + 1 && way[k] == p
  {
    if k == 0 {
      way := [Original];
    } else {
      var q :| q in Possible(attempts, k - 1) && p in Moves(q, attempts[k - 1]);
      way := WayTo(attempts, k - 1, q);
      way := way + [p];
    }
  }

  function AllAt(first: Workloads, p: Place): Workloads { map id | id in first :: Placed(first[id], p) }

  function AllApplied(op: Op, before: Workloads): Workloads { map id | id in before :: Applied(op, before[id]) }

  /** All workloads take the same step of the way. */
  lemma WayIsAttempted(first: Workloads, p: Place, q: Place, a: Attempt)
    requires AllFresh(first) && q in Moves(p, a)
    ensures Attempted(a.op, AllAt(first, p), AllAt(first, q), a.ok)
  {
    forall id | id in first
      ensures Placed(first[id], q) == Placed(first[id], p) || Placed(first[id], q) == Applied(a.op, Placed(first[id], p))
      ensures a.ok ==> Placed(first[id], q) == Applied(a.op, Placed(first[id], p))
      ensures IsScoped(Placed(first[id], p)) ==> !IsUnreadable(Placed(first[id], p))
    {
      if q == Next(p, a.op) && !(a.op == Finalize && p == Lowered) { PlaceMoves(first[id], p, a.op); }
      PlacesAreReadable(first[id], p);
    }
  }

  lemma PlacesAreReadable(w: Workload, p: Place)
    requires IsFresh(w)
    ensures IsScoped(w) ==> !IsUnreadable(Placed(w, p))
  {
    if IsScoped(w) { ParseAfterFormat(w.replicas.value); }
  }

  /** Scaled to zero, and no more than zero is saved. */
  predicate IsLost(w: Workload) { w.replicas == Some(0) && (SAVED in w.labels ==> w.labels[SAVED] == FormatInt(0)) }

  /** Lost, or left alone by every operation. */
  predicate IsLostOrSpared(w: Workload) {
    IsScoped(w) ==> IsLost(w) || (w.kind == ReplicaSet && w.owned && SAVED !in w.labels)
  }

  lemma LostStaysLost(w: Workload, op: Op)
    requires IsLostOrSpared(w)
    ensures IsLostOrSpared(Applied(op, w)) && (IsScoped(w) ==> !IsUnreadable(w))
    ensures IsScoped(w) && IsLost(w) ==> IsScoped(Applied(op, w)) && IsLost(Applied(op, w))
    ensures IsScoped(Applied(op, w)) <==> IsScoped(w)
  {
    ParseAfterFormat(0);
    assert op == Finalize && SAVED !in w.labels ==> w.labels - {SAVED} == w.labels;
  }

  lemma RemovalLoses(w: Workload)
    requires IsFresh(w)
    ensures IsLostOrSpared(Applied(Finalize, Saved(w)))
    ensures IsScoped(w) && !(w.kind == ReplicaSet && w.owned) ==> IsScoped(Applied(Finalize, Saved(w))) && IsLost(Applied(Finalize, Saved(w)))
  {
  }

  predicate AllLostOrSpared(m: Workloads) { forall id :: id in m ==> IsLostOrSpared(m[id]) }

  lemma AppliedIsAttempted(op: Op, before: Workloads, ok: bool)
    requires op == Up ==> AllReadable(ALL_KINDS, before)
    ensures Attempted(op, before, AllApplied(op, before), ok)
  {
  }

  lemma LostGoesOn(m: Workloads, op: Op, id: nat)
    requires AllLostOrSpared(m) && id in m && IsScoped(m[id]) && IsLost(m[id])
    ensures AllLostOrSpared(AllApplied(op, m)) && AllReadable(ALL_KINDS, m)
    ensures IsScoped(AllApplied(op, m)[id]) && IsLost(AllApplied(op, m)[id])
  {
    forall x | x in m
      ensures IsLostOrSpared(Applied(op, m[x])) && (IsScoped(m[x]) ==> !IsUnreadable(m[x]))
    {
      LostStaysLost(m[x], op);
    }
    LostStaysLost(m[id], op);
  }

  /** The history in which all workloads take this way, are found lowered by a removal then, and stay at zero. */
  lemma {:induction false} LosingHistory(first: Workloads, attempts: seq<Attempt>, way: seq<Place>, n: nat, id: nat) returns (states: seq<Workloads>)
    requires AllFresh(first) && IsWay(way, attempts) && |way| <= |attempts| && |way| < n + 1 <= |attempts| + 1
    requires way[|way| - 1] == Lowered && attempts[|way| - 1].op == Finalize
    requires id in first && IsScoped(first[id]) && !(first[id].kind == ReplicaSet && first[id].owned)
    ensures IsHistory(states, attempts[..n]) && states[0] == first && AllLostOrSpared(states[n])
    ensures id in states[n] && IsScoped(states[n][id]) && IsLost(states[n][id])
    decreases n
  {
    if |way| == n {
      var before := WayHistory(first, attempts, way, n);
      states := before + [AllApplied(Finalize, before[n - 1])];
      forall x | x in first ensures IsLostOrSpared(states[n][x]) { RemovalLoses(first[x]); }
      RemovalLoses(first[id]);
      AppliedIsAttempted(Finalize, before[n - 1], attempts[n - 1].ok);
      OneMoreAttempt(before, attempts, n - 1, states[n]);
    } else {
      var before := LosingHistory(first, attempts, way, n - 1, id);
      var a := attempts[n - 1];
      LostGoesOn(before[n - 1], a.op, id);
      AppliedIsAttempted(a.op, before[n - 1], a.ok);
      states := before + [AllApplied(a.op, before[n - 1])];
      OneMoreAttempt(before, attempts, n - 1, states[n]);
    }
  }

  lemma OneMoreAttempt(states: seq<Workloads>, attempts: seq<Attempt>, n: nat, next: Workloads)
    requires n < |attempts| && IsHistory(states, attempts[..n]) && Attempted(attempts[n].op, states[n], next, attempts[n].ok)
    ensures IsHistory(states + [next], attempts[..n + 1])
  {
    assert attempts[..n + 1] == attempts[..n] + [attempts[n]];
  }

  lemma {:induction false} WayHistory(first: Workloads, attempts: seq<Attempt>, way: seq<Place>, n: nat) returns (states: seq<Workloads>)
    requires AllFresh(first) && IsWay(way, attempts) && 0 < n <= |way|
    ensures IsHistory(states, attempts[..n - 1]) && states[0] == first && states[n - 1] == AllAt(first, way[n - 1])
    decreases n
  {
    if n == 1 {
      states := [first];
    } else {
      var before := WayHistory(first, attempts, way, n - 1);
      WayIsAttempted(first, way[n - 2], way[n - 1], attempts[n - 2]);
      states := before + [AllAt(first, way[n - 1])];
      OneMoreAttempt(before, attempts, n - 2, AllAt(first, way[n - 1]));
    }
  }

  /** Every history of these attempts leads back to where it began. */
  ghost predicate LeadsBack(first: Workloads, attempts: seq<Attempt>) {
    forall states: seq<Workloads> :: IsHistory(states, attempts) && states[0] == first ==> states[|attempts|] == first
  }

  predicate HasCount(w: Workload) {
    IsScoped(w) && !(w.kind == ReplicaSet && w.owned) && w.replicas.Some? && w.replicas.value != 0
  }

  lemma UnsafeLosesCounts(first: Workloads, attempts: seq<Attempt>, id: nat)
    requires AllFresh(first) && id in first && HasCount(first[id]) && !IsSafe(attempts)
    ensures !LeadsBack(first, attempts)
  {
    var f :| 0 <= f < |attempts| && attempts[f].op == Finalize && Lowered in Possible(attempts, f);
    var way := WayTo(attempts, f, Lowered);
    var states := LosingHistory(first, attempts, way, |attempts|, id);
    assert attempts[..|attempts|] == attempts;
    assert IsHistory(states, attempts) && states[0] == first && states[|attempts|] != first;
  }

  /** For new workloads, one of them with a count other than zero, and any attempts of which the last one is a successful
      removal: all counts and labels come back in every history exactly if no removal may find a workload lowered. */
  lemma RoundTripIff(first: Workloads, attempts: seq<Attempt>, id: nat)
    requires AllFresh(first) && id in first && HasCount(first[id])
    requires attempts != [] && attempts[|attempts| - 1] == Attempt(Finalize, true)
    ensures LeadsBack(first, attempts) <==> IsSafe(attempts)
  {
    if IsSafe(attempts) {
      forall states: seq<Workloads> | IsHistory(states, attempts) && states[0] == first ensures states[|attempts|] == first {
        RoundTrip(states, attempts);
      }
    } else {
      UnsafeLosesCounts(first, attempts, id);
    }
  }

  // ---- what that means for the attempts

  /** A successful attempt to scale up between two others. */
  predicate RaisesBetween(attempts: seq<Attempt>, d: int, f: int)
    requires 0 <= d && f <= |attempts|
  {
    exists u :: d <= u < f && attempts[u] == Attempt(Up, true)
  }

  lemma {:induction false} LoweredSince(attempts: seq<Attempt>, k: nat) returns (d: nat)
    requires k <= |attempts| && Lowered in Possible(attempts, k)
    ensures d < k && attempts[d].op == Down && !RaisesBetween(attempts, d, k)
  {
    var q :| q in Possible(attempts, k - 1) && Lowered in Moves(q, attempts[k - 1]);
    if attempts[k - 1].op == Down { d := k - 1; } else { d := LoweredSince(attempts, k - 1); }
  }

  /** Scaling down again in between does no harm: it is enough that a successful scale-up lies between every attempt to scale
      down and every later removal. */
  lemma RaisedIsSafe(attempts: seq<Attempt>)
    requires forall d, f :: 0 <= d < f < |attempts| && attempts[d].op == Down && attempts[f].op == Finalize ==> RaisesBetween(attempts, d, f)
    ensures IsSafe(attempts)
  {
    forall f | 0 <= f < |attempts| && attempts[f].op == Finalize ensures Lowered !in Possible(attempts, f) {
      if Lowered in Possible(attempts, f) { var d := LoweredSince(attempts, f); }
    }
  }

  lemma {:induction false} StaysLowered(attempts: seq<Attempt>, d: nat, f: nat)
    requires d <= f <= |attempts| && Lowered in Possible(attempts, d)
    requires forall k :: d <= k < f ==> attempts[k] == Attempt(Up, false)
    ensures Lowered in Possible(attempts, f)
  {
    if d < f {
      StaysLowered(attempts, d, f - 1);
      assert Lowered in Moves(Lowered, attempts[f - 1]);
    }
  }

  lemma LoweredByDown(attempts: seq<Attempt>, d: nat)
    requires 0 < d <= |attempts| && (forall k :: 0 <= k < d ==> attempts[k].op == Down) && attempts[d - 1].ok
    ensures Lowered in Possible(attempts, d)
  {
    OriginalOrLowered(attempts, d - 1);
    var p :| p in Possible(attempts, d - 1) && p != Raised;
    assert Lowered in Moves(p, attempts[d - 1]);
  }

  lemma {:induction false} OriginalOrLowered(attempts: seq<Attempt>, k: nat)
    requires k <= |attempts| && forall l :: 0 <= l < k ==> attempts[l].op == Down
    ensures exists p :: p in Possible(attempts, k) && p != Raised
  {
    if k == 0 {
      assert Original in Possible(attempts, 0);
    } else {
      OriginalOrLowered(attempts, k - 1);
      var p :| p in Possible(attempts, k - 1) && p != Raised;
      assert Next(p, Down) in Moves(p, attempts[k - 1]);
      assert Next(p, Down) in Possible(attempts, k);
    }
  }

  /** The order the restore keeps: attempts to scale down until one succeeds, then attempts to scale up and removals, the first
      removal at `f`, the last attempt a successful one. All counts come back in every history exactly if a scale-up
      succeeded before that first removal. */
  lemma EarlyFinalizeIff(first: Workloads, attempts: seq<Attempt>, id: nat, d: nat, f: nat)
    requires AllFresh(first) && id in first && HasCount(first[id]) && 0 < d <= f < |attempts|
    requires (forall k :: 0 <= k < d ==> attempts[k].op == Down) && attempts[d - 1].ok
    requires (forall k :: d <= k < f ==> attempts[k].op == Up) && attempts[f].op == Finalize
    requires forall k :: f <= k < |attempts| ==> attempts[k].op != Down
    requires attempts[|attempts| - 1] == Attempt(Finalize, true)
    ensures LeadsBack(first, attempts) <==> RaisesBetween(attempts, d, f)
  {
    RoundTripIff(first, attempts, id);
    if RaisesBetween(attempts, d, f) {
      RaisedIsSafe(attempts);
    } else {
      LoweredByDown(attempts, d);
      forall k | d <= k < f ensures attempts[k] == Attempt(Up, false) {
        assert attempts[k] == Attempt(Up, attempts[k].ok);
      }
      StaysLowered(attempts, d, f);
      assert attempts[f].op == Finalize;
    }
  }

  /** A restore that was deleted between its scale-up and the removal leaves the saved counts behind. The next scale-down
      succeeds and changes nothing: all workloads go on running at their counts. */
  lemma LeftoverKeepsRunning(states: seq<Workloads>, id: nat)
    requires IsHistory(states, [Attempt(Down, true), Attempt(Up, true), Attempt(Down, true)]) && AllFresh(states[0]) && id in states[0]
    ensures id in states[3] && states[3][id].replicas == states[0][id].replicas
  {
    var attempts := [Attempt(Down, true), Attempt(Up, true), Attempt(Down, true)];
    SurePlace(attempts, 1, Original);
    SurePlace(attempts, 2, Lowered);
    SurePlace(attempts, 3, Raised);
    AllArePossible(states, attempts, 3);
    RaisedRuns(states[0], states[3], id);
  }

  lemma SurePlace(attempts: seq<Attempt>, k: nat, p: Place)
    requires 0 < k <= |attempts| && Possible(attempts, k - 1) == {p} && attempts[k - 1].ok && attempts[k - 1].op != Finalize
    ensures Possible(attempts, k) == {Next(p, attempts[k - 1].op)}
  {
    assert Moves(p, attempts[k - 1]) == {Next(p, attempts[k - 1].op)};
  }

  lemma RaisedRuns(first: Workloads, now: Workloads, id: nat)
    requires AllFresh(first) && AllPlaced(first, now, {Raised}) && id in first
    ensures id in now && now[id].replicas == first[id].replicas
  {
    var p :| p in {Raised} && now[id] == Placed(first[id], p);
    Cycle(first[id]);
  }

  /** A ReplicaSet with an owner that carries no saved count is not touched by any attempt. */
  lemma {:induction false} OwnedStaysUntouched(states: seq<Workloads>, attempts: seq<Attempt>, n: nat, id: nat)
    requires IsHistory(states, attempts) && n < |states| && id in states[0]
    requires states[0][id].kind == ReplicaSet && states[0][id].owned && SAVED !in states[0][id].labels
    ensures id in states[n] && states[n][id] == states[0][id]
  {
    if n > 0 {
      OwnedStaysUntouched(states, attempts, n - 1, id);
      assert Attempted(attempts[n - 1].op, states[n - 1], states[n], attempts[n - 1].ok);
      assert states[0][id].labels - {SAVED} == states[0][id].labels;
    }
  }

  function Three(labels: map<string, string>, report: Report, replicas: int): Workloads {
    map[1 := Workload(Deployment, labels, Some(replicas), false, 0, report)]
  }

  /** A history in which an early removal loses the count of three. */
  lemma EarlyRemovalLosesTheCount(labels: map<string, string>, report: Report)
    requires SCOPE in labels && SAVED !in labels
    ensures exists states: seq<Workloads> ::
              IsHistory(states, [Attempt(Down, true), Attempt(Finalize, true), Attempt(Up, true), Attempt(Finalize, true)])
              && states[0] == Three(labels, report, 3) && states[4] == Three(labels, report, 0)
  {
    var attempts := [Attempt(Down, true), Attempt(Finalize, true), Attempt(Up, true), Attempt(Finalize, true)];
    var first, lost := Three(labels, report, 3), Three(labels, report, 0);
    var lowered := Three(labels[SAVED := FormatInt(3)], report, 0);
    assert labels[SAVED := FormatInt(3)] - {SAVED} == labels && labels - {SAVED} == labels;
    var states := [first, lowered, lost, lost, lost];
    assert Attempted(Down, first, lowered, true);
    assert Attempted(Finalize, lowered, lost, true);
    assert Attempted(Up, lost, lost, true);
    assert Attempted(Finalize, lost, lost, true);
    assert IsHistory(states, attempts);
  }

  /** Ready workloads have their original counts back: after the scale-down, as long as the labels are there. */
  lemma ReadyMeansRestored(first: Workloads, now: Workloads)
    requires AllFresh(first) && AllPlaced(first, now, {Lowered, Raised})
    requires forall id :: id in now && IsScoped(now[id]) ==> IsReady(now[id])
    ensures forall id :: id in first ==> now[id].replicas == first[id].replicas
  {
    forall id | id in first ensures now[id].replicas == first[id].replicas {
      var p :| p in {Lowered, Raised} && now[id] == Placed(first[id], p);
      ReadyAtItsPlace(first[id], p, now[id]);
    }
  }

  lemma ReadyAtItsPlace(w: Workload, p: Place, now: Workload)
    requires IsFresh(w) && p != Original && now == Placed(w, p) && (IsScoped(now) ==> IsReady(now))
    ensures now.replicas == w.replicas
  {
    Cycle(w);
    if IsScoped(w) && !(w.kind == ReplicaSet && w.owned) {
      ParseAfterFormat(w.replicas.value);
      assert Target(now) == w.replicas;
    }
  }
}
