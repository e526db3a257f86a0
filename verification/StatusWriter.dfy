/** The status write of a restore: merge the conditions into the last version that was read, and try again with a fresh
    one as long as somebody else was faster. */
module StatusWriter {
  import opened Conditions
  import C = Cluster

  datatype Change = Change(t: Type, condition: Condition)

  datatype Transition = Transition(t: Type, from: Status, to: Status)

  /** A stored version of the restore. */
  datatype Version = Version(number: nat, deleting: bool, conditions: Conditions, legacy: Legacy)

  datatype Outcome = Written | Unchanged | ConflictLeft | WriteFailed

  const ATTEMPTS := 5

  // ---- merging

  function Merge(conditions: Conditions, changes: seq<Change>): Conditions {
    if changes == [] then conditions
    else
      var n := |changes| - 1;
      Merge(conditions, changes[..n])[changes[n].t := changes[n].condition]
  }

  /** A transition for every condition that existed before and gets another status. */
  function TransitionsOf(conditions: Conditions, changes: seq<Change>): seq<Transition> {
    if changes == [] then []
    else
      var n := |changes| - 1;
      var before, c := Merge(conditions, changes[..n]), changes[n];
      TransitionsOf(conditions, changes[..n])
      + (if c.t in before && before[c.t].status != c.condition.status
         then [Transition(c.t, before[c.t].status, c.condition.status)] else [])
  }

  function WithChanges(v: Version, changes: seq<Change>): Version {
    var merged := Merge(v.conditions, changes);
    v.(conditions := merged, legacy := LegacyRestoreStatusFor(v.deleting, merged, v.legacy))
  }

  /** The version has every requested condition. */
  predicate AreIn(changes: seq<Change>, v: Version) {
    forall k :: 0 <= k < |changes| ==> changes[k].t in v.conditions && v.conditions[changes[k].t] == changes[k].condition
  }

  predicate AreDistinct(changes: seq<Change>) { forall i, j :: 0 <= i < j < |changes| ==> changes[i].t != changes[j].t }

  /** The requested conditions are there, all others are as before. */
  lemma {:induction false} MergeKeepsOthers(conditions: Conditions, changes: seq<Change>, t: Type)
    requires AreDistinct(changes)
    ensures (forall k :: 0 <= k < |changes| ==> changes[k].t != t) ==>
              (t in Merge(conditions, changes) <==> t in conditions)
              && (t in conditions ==> Merge(conditions, changes)[t] == conditions[t])
    ensures forall k :: 0 <= k < |changes| && changes[k].t == t ==>
              t in Merge(conditions, changes) && Merge(conditions, changes)[t] == changes[k].condition
  {
    if changes != [] { MergeKeepsOthers(conditions, changes[..|changes| - 1], t); }
  }

  /** Exactly the changes of a status that was there before are reported, each with the old and the new status. */
  lemma {:induction false} TransitionsAreChanges(conditions: Conditions, changes: seq<Change>, x: Transition)
    requires AreDistinct(changes)
    ensures x in TransitionsOf(conditions, changes) <==>
            x.t in conditions && conditions[x.t].status == x.from && x.from != x.to
            && exists k :: 0 <= k < |changes| && changes[k].t == x.t && changes[k].condition.status == x.to
  {
    if changes != [] {
      var n := |changes| - 1;
      TransitionsAreChanges(conditions, changes[..n], x);
      MergeKeepsOthers(conditions, changes[..n], changes[n].t);
      if x.t in conditions && conditions[x.t].status == x.from && x.from != x.to {
        if changes[n].t == x.t && changes[n].condition.status == x.to { assert x in TransitionsOf(conditions, changes); }
        if k :| 0 <= k < |changes| && changes[k].t == x.t && changes[k].condition.status == x.to {
          if k < n { assert changes[..n][k] == changes[k]; }
        }
      }
    }
  }

  /** A version with the changes has them, whatever it had before. */
  lemma ChangesAreIn(v: Version, changes: seq<Change>)
    requires AreDistinct(changes)
    ensures AreIn(changes, WithChanges(v, changes))
  {
    forall k | 0 <= k < |changes|
      ensures changes[k].t in Merge(v.conditions, changes) && Merge(v.conditions, changes)[changes[k].t] == changes[k].condition
    {
      MergeKeepsOthers(v.conditions, changes, changes[k].t);
    }
  }

  function AsMap(changes: seq<Change>): Conditions {
    if changes == [] then map[] else AsMap(changes[..|changes| - 1])[changes[|changes| - 1].t := changes[|changes| - 1].condition]
  }

  /** A successful write is the one step by which the operator's runs are told: the conditions merged into the stored ones
      and the scalar derived from the result. */
  lemma {:induction false} MergeIsOneStep(conditions: Conditions, changes: seq<Change>)
    ensures Merge(conditions, changes) == conditions + AsMap(changes)
  {
    if changes == [] {
      assert conditions + map[] == conditions;
    } else {
      MergeIsOneStep(conditions, changes[..|changes| - 1]);
    }
  }

  lemma WriteIsOneStep(o: C.Object, v: Version, changes: seq<Change>)
    requires v.conditions == o.conditions && v.deleting == o.deleting && v.legacy == o.legacy
    ensures C.WithMerged(o, AsMap(changes)) == o.(conditions := WithChanges(v, changes).conditions, legacy := WithChanges(v, changes).legacy)
  {
    MergeIsOneStep(v.conditions, changes);
  }

  method ApplyConditions(v: Version, changes: seq<Change>) returns (desired: Version, transitions: seq<Transition>)
    ensures desired == WithChanges(v, changes) && transitions == TransitionsOf(v.conditions, changes)
  {
    var conditions := v.conditions;
    transitions := [];
    for n := 0 to |changes|
      invariant conditions == Merge(v.conditions, changes[..n]) && transitions == TransitionsOf(v.conditions, changes[..n])
    {
      var c := changes[n];
      assert changes[..n + 1][..n] == changes[..n];
      if c.t in conditions && conditions[c.t].status != c.condition.status {
        transitions := transitions + [Transition(c.t, conditions[c.t].status, c.condition.status)];
      }
      conditions := conditions[c.t := c.condition];
    }
    assert changes[..|changes|] == changes;
    desired := v.(conditions := conditions, legacy := LegacyRestoreStatusFor(v.deleting, conditions, v.legacy));
  }

  /** The condition of this type in a list that has one at most. */
  predicate Has(list: seq<Change>, t: Type, status: Status) { exists k :: 0 <= k < |list| && list[k].t == t && list[k].condition.status == status }

  /** The backup controller compares the lists before and after a patch: the transitions are the conditions that both
      have, with different statuses. */
  method DetermineBackupConditionTransitions(before: seq<Change>, after: seq<Change>) returns (transitions: seq<Transition>)
    requires AreDistinct(before)
    ensures forall x :: x in transitions <==> Has(before, x.t, x.from) && Has(after, x.t, x.to) && x.from != x.to
  {
    var previous: map<Type, Status> := map[];
    for n := 0 to |before|
      invariant forall t :: t in previous <==> exists k :: 0 <= k < n && before[k].t == t
      invariant forall k :: 0 <= k < n ==> previous[before[k].t] == before[k].condition.status
    {
      previous := previous[before[n].t := before[n].condition.status];
    }
    assert forall t, status :: Has(before, t, status) <==> t in previous && previous[t] == status;
    transitions := [];
    for n := 0 to |after|
      invariant forall x :: x in transitions <==> Has(before, x.t, x.from) && Has(after[..n], x.t, x.to) && x.from != x.to
    {
      var c := after[n];
      assert forall t, status :: Has(after[..n + 1], t, status) <==> Has(after[..n], t, status) || (t == c.t && status == c.condition.status) by {
        assert after[..n + 1] == after[..n] + [c];
        HasLast(after[..n], c);
      }
      if c.t in previous && previous[c.t] != c.condition.status {
        transitions := transitions + [Transition(c.t, previous[c.t], c.condition.status)];
      }
    }
    assert after[..|after|] == after;
  }

  lemma HasLast(list: seq<Change>, c: Change)
    ensures forall t, status :: Has(list + [c], t, status) <==> Has(list, t, status) || (t == c.t && status == c.condition.status)
  {
    forall t, status ensures Has(list + [c], t, status) <==> Has(list, t, status) || (t == c.t && status == c.condition.status) {
      if t == c.t && status == c.condition.status { assert (list + [c])[|list|] == c; }
      if k :| 0 <= k < |list| && list[k].t == t && list[k].condition.status == status { assert (list + [c])[k] == list[k]; }
    }
  }

  // ---- the server, on which others write at any time

  class Server {
    var current: Version
    ghost var stored: seq<Version>       // every version so far, in order

    ghost predicate Valid()
      reads this
    {
      stored != [] && current == stored[|stored| - 1]
      && forall i, j :: 0 <= i < j < |stored| ==> stored[i].number < stored[j].number
    }

    constructor (first: Version)
      ensures Valid() && stored == [first]
    {
      current, stored := first, [first];
    }

    /** One write, by whomever. */
    method Store(v: Version)
      requires Valid()
      modifies this
      ensures Valid() && stored == old(stored) + [v.(number := old(current.number) + 1)]
    {
      current := v.(number := current.number + 1);
      stored := stored + [current];
    }

    /** Others write any number of times, whatever they like. */
    method Others()
      requires Valid()
      modifies this
      ensures Valid() && old(stored) <= stored
    {
      var times: nat :| true;
      for n := 0 to times
        invariant Valid() && old(stored) <= stored
      {
        var v: Version := *;
        Store(v);
      }
    }

    method Get() returns (ok: bool, v: Version)
      requires Valid()
      modifies this
      ensures Valid() && old(stored) <= stored && (ok ==> v == current && v in stored)
    {
      Others();
      ok, v := *, current;
    }

    /** A status update is refused if the version is not the current one, and it may report an error although it took
        effect. */
    method UpdateStatus(desired: Version) returns (outcome: Outcome, ghost others: seq<Version>)
      requires Valid()
      modifies this
      ensures Valid() && old(stored) <= others <= stored && others != []
      ensures outcome in {Written, ConflictLeft, WriteFailed}
      ensures outcome == Written ==>
                others[|others| - 1].number == desired.number && stored == others + [desired.(number := desired.number + 1)]
      ensures outcome == ConflictLeft ==> stored == others && others[|others| - 1].number != desired.number
      ensures outcome == WriteFailed ==> stored == others || stored == others + [desired.(number := desired.number + 1)]
    {
      Others();
      others := stored;
      var fails: bool, applied: bool := *, *;
      if fails && !applied { return WriteFailed, others; }
      if current.number != desired.number { return (if fails then WriteFailed else ConflictLeft), others; }
      Store(desired);
      outcome := if fails then WriteFailed else Written;
    }
  }

  // ---- the updater

  /** The version was stored, and the next one is this one with the changes. */
  ghost predicate IsWritten(stored: seq<Version>, base: Version, result: Version, changes: seq<Change>) {
    |stored| > 1 && stored[|stored| - 2] == base && stored[|stored| - 1] == result
    && result == WithChanges(base, changes).(number := base.number + 1)
  }

  method TryPersistConditions(server: Server, current: Version, changes: seq<Change>)
    returns (outcome: Outcome, result: Version, transitions: seq<Transition>, legacy: Legacy)
    requires server.Valid() && current in server.stored
    modifies server
    ensures server.Valid() && old(server.stored) <= server.stored
    ensures outcome == Unchanged <==> WithChanges(current, changes) == current
    ensures outcome == Unchanged ==> result == current && server.stored == old(server.stored) && transitions == []
    ensures outcome == Written ==>
              IsWritten(server.stored, current, result, changes) && transitions == TransitionsOf(current.conditions, changes)
              && legacy == if result.legacy != current.legacy then result.legacy else NoLegacy
    ensures outcome == ConflictLeft ==> current.number < server.current.number
    ensures outcome == ConflictLeft && current == old(server.current) ==> |server.stored| > |old(server.stored)|
  {
    var desired;
    desired, transitions := ApplyConditions(current, changes);
    result, legacy := desired, NoLegacy;
    if current == desired { return Unchanged, current, [], NoLegacy; }
    ghost var others;
    outcome, others := server.UpdateStatus(desired);
    Numbered(others, current);
    if outcome == Written {
      result := desired.(number := desired.number + 1);
      legacy := if desired.legacy != current.legacy then desired.legacy else NoLegacy;
    }
  }

  /** Versions are told apart by their numbers. */
  lemma Numbered(stored: seq<Version>, v: Version)
    requires v in stored && forall i, j :: 0 <= i < j < |stored| ==> stored[i].number < stored[j].number
    ensures stored[|stored| - 1].number == v.number ==> stored[|stored| - 1] == v
    ensures v.number <= stored[|stored| - 1].number
  {
  }

  /** At most five attempts. On success the last version of the own write is the base it was computed from with all
      requested conditions, so that conditions of other types that were written meanwhile are kept; the transitions are
      those of this attempt. It gives up for conflicts only if others wrote in between again and again. A version to which the
      write adds nothing is not compared with newer ones, so that after a success the requested conditions are stored
      exactly if the write had something to add to the version it was given, or they were stored already. */
  method PersistConditions(server: Server, restore: Version, changes: seq<Change>)
    returns (outcome: Outcome, result: Version, transitions: seq<Transition>, legacy: Legacy, ghost base: Version)
    requires server.Valid() && restore in server.stored
    modifies server
    ensures server.Valid() && old(server.stored) <= server.stored
    ensures outcome == Written ==>
              IsWritten(server.stored, base, result, changes) && transitions == TransitionsOf(base.conditions, changes)
              && legacy == (if result.legacy != base.legacy then result.legacy else NoLegacy)
    ensures outcome == Unchanged ==> result == base && base in server.stored && base == WithChanges(base, changes) && transitions == []
    ensures outcome == ConflictLeft ==> |server.stored| >= |old(server.stored)| + ATTEMPTS - 1
    ensures WithChanges(restore, changes) == restore ==> outcome == Unchanged && server.stored == old(server.stored)
    ensures AreDistinct(changes) && outcome in {Written, Unchanged} ==>
              (AreIn(changes, server.current) <==> WithChanges(restore, changes) != restore || AreIn(changes, old(server.current)))
  {
    var current := restore;
    result, transitions, legacy, base := restore, [], NoLegacy, restore;
    for attempt := 0 to ATTEMPTS
      invariant server.Valid() && old(server.stored) <= server.stored && current in server.stored
      invariant attempt == 0 ==> current == restore && server.stored == old(server.stored)
      invariant attempt > 0 ==> WithChanges(restore, changes) != restore && current == server.current
      invariant attempt > 0 ==> |server.stored| >= |old(server.stored)| + attempt - 1
    {
      base := current;
      outcome, result, transitions, legacy := TryPersistConditions(server, current, changes);
      if outcome != ConflictLeft {
        if AreDistinct(changes) { ChangesAreIn(base, changes); }
        return;
      }
      var ok, refreshed := server.Get();
      if !ok { return WriteFailed, restore, [], NoLegacy, base; }
      current := refreshed;
    }
    outcome, result, transitions, legacy := ConflictLeft, restore, [], NoLegacy;
  }

  const PREPARED := Change(Prepared, Condition(True, PreparationCompleted))

  /** Another one took the condition back meanwhile; the write of it succeeds all the same, and leaves that as it is. */
  method SucceedOnOutdated() returns (server: Server, outcome: Outcome)
    ensures fresh(server) && server.Valid() && outcome == Unchanged && !AreIn([PREPARED], server.current)
  {
    var restore := Version(1, false, map[Prepared := PREPARED.condition], InProgress);
    server := new Server(restore);
    server.Store(restore.(conditions := map[Prepared := Condition(False, PreparationFailed)]));
    assert server.stored[0] == restore;
    var changes := [PREPARED];
    assert changes[..0] == [];
    assert Merge(restore.conditions, changes) == restore.conditions;
    ghost var base;
    var result, transitions, legacy;
    outcome, result, transitions, legacy, base := PersistConditions(server, restore, changes);
    assert changes[0] == PREPARED;
  }
}
