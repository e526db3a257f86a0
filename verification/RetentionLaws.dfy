/** What the retention strategy promises: every backup is either removed or retained, and what is kept stays kept. */
module RetentionLaws {
  import opened Retention

  // ---- every backup exactly once

  lemma {:induction false} CopiesOfMiss(cal: Calendar, b: Backup, now: Moment, i: TimeInterval)
    requires i !in cal || !Contains(i, b.start, now)
    ensures Copies(cal, b, now, i) == []
  {
    if cal != [] { CopiesOfMiss(cal[..|cal| - 1], b, now, i); }
  }

  lemma {:induction false} CopiesOfHit(cal: Calendar, b: Backup, now: Moment, k: nat)
    requires k < |cal| && Contains(cal[k], b.start, now) && PairwiseApart(cal)
    ensures Copies(cal, b, now, cal[k]) == [b]
    ensures forall i :: i != cal[k] ==> Copies(cal, b, now, i) == []
  {
    var n := |cal| - 1;
    forall j | 0 <= j < |cal| && j != k ensures !Contains(cal[j], b.start, now) {
      if j < k { ApartIffDisjoint(cal[j], cal[k]); } else { ApartIffDisjoint(cal[k], cal[j]); }
    }
    if k == n {
      assert cal[k] !in cal[..n];
      CopiesOfMiss(cal[..n], b, now, cal[k]);
    } else {
      CopiesOfHit(cal[..n], b, now, k);
      assert cal[n] != cal[k];
    }
    forall i | i != cal[k] ensures Copies(cal, b, now, i) == [] {
      if i in cal { assert !Contains(i, b.start, now); }
      CopiesOfMiss(cal, b, now, i);
    }
  }

  /** All backups in the groups of these intervals. */
  function Total(order: seq<TimeInterval>, m: Mappings): multiset<Backup> {
    if order == [] then multiset{}
    else Total(order[..|order| - 1], m) + multiset(At(m, order[|order| - 1]))
  }

  function GroupTotal(order: seq<TimeInterval>, cal: Calendar, backups: seq<Backup>, clock: seq<Moment>): multiset<Backup>
    requires |clock| >= |backups|
  {
    if order == [] then multiset{}
    else
      var n := |order| - 1;
      GroupTotal(order[..n], cal, backups, clock) + multiset(Grouped(cal, backups, clock, order[n]))
  }

  lemma IntervalConserves(i: TimeInterval, backups: seq<Backup>)
    requires IsValidMode(i.mode)
    ensures multiset(Kept(i, backups)) + multiset(Dropped(i, backups)) == multiset(backups)
  {
    if i.mode == OLDEST && backups != [] {
      var k := OldestIndex(backups);
      assert backups == backups[..k] + [backups[k]] + backups[k + 1..];
    }
  }

  lemma {:induction false} WalkConserves(order: seq<TimeInterval>, m: Mappings)
    requires forall i :: i in order ==> IsValidMode(i.mode)
    ensures multiset(AllKept(order, m)) + multiset(AllDropped(order, m)) == Total(order, m)
  {
    if order != [] {
      var n := |order| - 1;
      WalkConserves(order[..n], m);
      IntervalConserves(order[n], At(m, order[n]));
    }
  }

  lemma {:induction false} TotalOfGroups(order: seq<TimeInterval>, m: Mappings, cal: Calendar, backups: seq<Backup>, clock: seq<Moment>)
    requires |clock| >= |backups| && forall i :: At(m, i) == Grouped(cal, backups, clock, i)
    ensures Total(order, m) == GroupTotal(order, cal, backups, clock)
  {
    if order != [] { TotalOfGroups(order[..|order| - 1], m, cal, backups, clock); }
  }

  lemma {:induction false} NoBackupsNoGroups(order: seq<TimeInterval>, cal: Calendar, clock: seq<Moment>)
    ensures GroupTotal(order, cal, [], clock) == multiset{}
  {
    if order != [] { NoBackupsNoGroups(order[..|order| - 1], cal, clock); }
  }

  /** A backup goes to one interval's group, or to none. */
  ghost predicate GoesTo(cal: Calendar, b: Backup, now: Moment, found: bool, place: TimeInterval) {
    forall i {:trigger Copies(cal, b, now, i)} :: Copies(cal, b, now, i) == if found && i == place then [b] else []
  }

  function Once(b: Backup, yes: bool): multiset<Backup> { if yes then multiset{b} else multiset{} }

  lemma OneMoreInGroup(cal: Calendar, backups: seq<Backup>, clock: seq<Moment>, found: bool, place: TimeInterval, i: TimeInterval)
    requires backups != [] && |clock| >= |backups|
    requires GoesTo(cal, backups[|backups| - 1], clock[|backups| - 1], found, place)
    ensures var n := |backups| - 1;
            multiset(Grouped(cal, backups, clock, i))
            == multiset(Grouped(cal, backups[..n], clock, i)) + Once(backups[n], found && i == place)
  {
    var n := |backups| - 1;
    assert Copies(cal, backups[n], clock[n], i) == if found && i == place then [backups[n]] else [];
  }

  lemma Swap(a: multiset<Backup>, x: multiset<Backup>, b: multiset<Backup>, y: multiset<Backup>, z: multiset<Backup>)
    requires x + y == z
    ensures (a + x) + (b + y) == (a + b) + z
  {
  }

  lemma LastOrBefore(order: seq<TimeInterval>, b: Backup, found: bool, place: TimeInterval)
    requires order != [] && IsUnique(order)
    ensures var last, init := order[|order| - 1], order[..|order| - 1];
            Once(b, found && place in init) + Once(b, found && last == place) == Once(b, found && place in order) && IsUnique(init)
  {
    var last, init := order[|order| - 1], order[..|order| - 1];
    assert order == init + [last] && last !in init;
  }

  /** One more backup adds itself to the one group that gets it. */
  lemma {:induction false} OneMoreBackup(order: seq<TimeInterval>, cal: Calendar, backups: seq<Backup>, clock: seq<Moment>,
                                         found: bool, place: TimeInterval)
    requires backups != [] && |clock| >= |backups| && IsUnique(order)
    requires GoesTo(cal, backups[|backups| - 1], clock[|backups| - 1], found, place)
    ensures var n := |backups| - 1;
            GroupTotal(order, cal, backups, clock)
            == GroupTotal(order, cal, backups[..n], clock) + Once(backups[n], found && place in order)
  {
    if order != [] {
      var n, last, init := |backups| - 1, order[|order| - 1], order[..|order| - 1];
      OneMoreBackup(init, cal, backups, clock, found, place);
      OneMoreInGroup(cal, backups, clock, found, place, last);
      LastOrBefore(order, backups[n], found, place);
      Swap(GroupTotal(init, cal, backups[..n], clock), Once(backups[n], found && place in init),
           multiset(Grouped(cal, backups[..n], clock, last)), Once(backups[n], found && last == place),
           Once(backups[n], found && place in order));
    }
  }

  lemma WhoGetsIt(cal: Calendar, b: Backup, now: Moment) returns (place: TimeInterval)
    requires PairwiseApart(cal)
    ensures GoesTo(cal, b, now, Found(cal, b, now), place)
    ensures Found(cal, b, now) ==> Copies(cal, b, now, place) == [b]
  {
    if Found(cal, b, now) {
      var k :| 0 <= k < |cal| && Contains(cal[k], b.start, now);
      CopiesOfHit(cal, b, now, k);
      place := cal[k];
    } else {
      place := NewTimeInterval("", 0, 0, ALL);
      forall i ensures Copies(cal, b, now, i) == [] { CopiesOfMiss(cal, b, now, i); }
    }
  }

  /** The intervals of the order have all the groups there are. */
  ghost predicate Covers(order: seq<TimeInterval>, cal: Calendar, backups: seq<Backup>, clock: seq<Moment>)
    requires |clock| >= |backups|
  {
    forall i :: Grouped(cal, backups, clock, i) != [] ==> i in order
  }

  lemma CoversLess(order: seq<TimeInterval>, cal: Calendar, backups: seq<Backup>, clock: seq<Moment>)
    requires backups != [] && |clock| >= |backups| && Covers(order, cal, backups, clock)
    ensures Covers(order, cal, backups[..|backups| - 1], clock)
  {
    var n := |backups| - 1;
    forall i | Grouped(cal, backups[..n], clock, i) != [] ensures i in order { assert Grouped(cal, backups, clock, i) != []; }
  }

  lemma {:induction false} GroupsPartition(order: seq<TimeInterval>, cal: Calendar, backups: seq<Backup>, clock: seq<Moment>)
    requires |clock| >= |backups| && PairwiseApart(cal) && IsUnique(order) && Covers(order, cal, backups, clock)
    ensures multiset(Unmatched(cal, backups, clock)) + GroupTotal(order, cal, backups, clock) == multiset(backups)
  {
    if backups == [] {
      NoBackupsNoGroups(order, cal, clock);
    } else {
      var n := |backups| - 1;
      var b, found := backups[n], Found(cal, backups[n], clock[n]);
      CoversLess(order, cal, backups, clock);
      GroupsPartition(order, cal, backups[..n], clock);
      var place := WhoGetsIt(cal, b, clock[n]);
      OneMoreBackup(order, cal, backups, clock, found, place);
      if found { assert Grouped(cal, backups, clock, place) != []; }
      assert multiset(Unmatched(cal, backups, clock)) == multiset(Unmatched(cal, backups[..n], clock)) + Once(b, !found);
      Swap(multiset(Unmatched(cal, backups[..n], clock)), Once(b, !found),
           GroupTotal(order, cal, backups[..n], clock), Once(b, found && place in order), multiset{b});
      assert backups == backups[..n] + [b];
    }
  }

  predicate AllModesValid(cal: Calendar) { forall i :: i in cal ==> IsValidMode(i.mode) }

  lemma {:induction false} GroupsAreOfCalendar(cal: Calendar, backups: seq<Backup>, clock: seq<Moment>, i: TimeInterval)
    requires |clock| >= |backups| && Grouped(cal, backups, clock, i) != []
    ensures i in cal
  {
    var n := |backups| - 1;
    if i !in cal { CopiesOfMiss(cal, backups[n], clock[n], i); GroupsAreOfCalendar(cal, backups[..n], clock, i); }
  }

  lemma OutcomeConserves(cal: Calendar, backups: seq<Backup>, clock: seq<Moment>, removed: seq<Backup>, retained: seq<Backup>)
    returns (order: seq<TimeInterval>, m: Mappings)
    requires |clock| >= |backups| && AllModesValid(cal) && IsOutcome(cal, backups, clock, removed, retained)
    ensures Maps(m, cal, backups, clock) && IsWalked(order, m.Keys)
    ensures multiset(removed) + multiset(retained) == multiset(Unmatched(cal, backups, clock)) + Total(order, m)
  {
    m, order :| Results(m, order, cal, backups, clock, removed, retained);
    forall i | i in order ensures IsValidMode(i.mode) {
      assert At(m, i) == Grouped(cal, backups, clock, i);
      GroupsAreOfCalendar(cal, backups, clock, i);
    }
    WalkConserves(order, m);
  }

  /** Whatever the order of the walk and whenever the clock is read: removed and retained together are the input. */
  lemma Partition(cal: Calendar, backups: seq<Backup>, clock: seq<Moment>, removed: seq<Backup>, retained: seq<Backup>)
    requires |clock| >= |backups| && AllModesValid(cal) && PairwiseApart(cal)
    requires IsOutcome(cal, backups, clock, removed, retained)
    ensures multiset(removed) + multiset(retained) == multiset(backups)
  {
    var order, m := OutcomeConserves(cal, backups, clock, removed, retained);
    TotalOfGroups(order, m, cal, backups, clock);
    assert Covers(order, cal, backups, clock) by {
      forall i | Grouped(cal, backups, clock, i) != [] ensures i in order { assert At(m, i) == Grouped(cal, backups, clock, i); }
    }
    GroupsPartition(order, cal, backups, clock);
  }

  /** In particular for every accepted calendar with start <= end, valid modes and offsets that fit. */
  lemma AcceptedCalendarsPartition(cal: Calendar, backups: seq<Backup>, clock: seq<Moment>, removed: seq<Backup>, retained: seq<Backup>)
    requires |clock| >= |backups| && IsWellFormed(cal) && IsOutcome(cal, backups, clock, removed, retained)
    ensures multiset(removed) + multiset(retained) == multiset(backups)
  {
    WellFormedIsApart(cal);
    Partition(cal, backups, clock, removed, retained);
  }

  // ---- and only for calendars whose intervals are apart

  lemma {:induction false} Enumerate(keys: set<TimeInterval>) returns (order: seq<TimeInterval>)
    ensures IsWalked(order, keys)
    decreases |keys|
  {
    if keys == {} {
      order := [];
    } else {
      var i :| i in keys;
      order := Enumerate(keys - {i});
      order := order + [i];
    }
  }

  lemma OutcomeExists(cal: Calendar, backups: seq<Backup>, clock: seq<Moment>) returns (removed: seq<Backup>, retained: seq<Backup>)
    requires |clock| >= |backups|
    ensures IsOutcome(cal, backups, clock, removed, retained)
  {
    var m: Mappings := map i | i in cal && Grouped(cal, backups, clock, i) != [] :: Grouped(cal, backups, clock, i);
    forall i ensures At(m, i) == Grouped(cal, backups, clock, i) {
      if Grouped(cal, backups, clock, i) != [] { GroupsAreOfCalendar(cal, backups, clock, i); }
    }
    var order := Enumerate(m.Keys);
    removed, retained := Unmatched(cal, backups, clock) + AllDropped(order, m), AllKept(order, m);
    assert Results(m, order, cal, backups, clock, removed, retained);
  }

  /** How often the interval occurs in the calendar. */
  function Occurrences(cal: Calendar, i: TimeInterval): nat {
    if cal == [] then 0 else Occurrences(cal[..|cal| - 1], i) + (if cal[|cal| - 1] == i then 1 else 0)
  }

  lemma {:induction false} CopiesCount(cal: Calendar, b: Backup, now: Moment, i: TimeInterval)
    requires Contains(i, b.start, now)
    ensures multiset(Copies(cal, b, now, i))[b] == Occurrences(cal, i)
  {
    if cal != [] { CopiesCount(cal[..|cal| - 1], b, now, i); }
  }

  lemma {:induction false} OccursAt(cal: Calendar, k: nat)
    requires k < |cal|
    ensures Occurrences(cal, cal[k]) >= 1
    ensures forall j :: 0 <= j < k && cal[j] == cal[k] ==> Occurrences(cal, cal[k]) >= 2
  {
    var init := cal[..|cal| - 1];
    if k < |init| {
      OccursAt(init, k);
    } else {
      forall j | 0 <= j < k && cal[j] == cal[k] ensures Occurrences(init, cal[k]) >= 1 { OccursAt(init, j); }
    }
  }

  lemma {:induction false} TotalHas(order: seq<TimeInterval>, m: Mappings, x: TimeInterval, b: Backup)
    requires x in order && IsUnique(order)
    ensures Total(order, m)[b] >= multiset(At(m, x))[b]
    ensures forall y :: y in order && y != x ==> Total(order, m)[b] >= multiset(At(m, x))[b] + multiset(At(m, y))[b]
  {
    var init, last := order[..|order| - 1], order[|order| - 1];
    assert order == init + [last];
    if x in init {
      TotalHas(init, m, x, b);
    } else {
      forall y | y in order && y != x ensures Total(init, m)[b] >= multiset(At(m, y))[b] { TotalHas(init, m, y, b); }
    }
  }

  /** Two intervals that are not apart give some backup to both, and it then counts twice. */
  lemma DoubledBackup(cal: Calendar, i: nat, j: nat) returns (b: Backup, now: Moment, removed: seq<Backup>, retained: seq<Backup>)
    requires i < j < |cal| && !Apart(cal[i], cal[j]) && AllModesValid(cal)
    ensures IsOutcome(cal, [b], [now], removed, retained)
    ensures (multiset(removed) + multiset(retained))[b] > 1
  {
    ApartIffDisjoint(cal[i], cal[j]);
    var timestamp;
    timestamp, now :| Contains(cal[i], timestamp, now) && Contains(cal[j], timestamp, now);
    b := Backup("", timestamp);
    removed, retained := OutcomeExists(cal, [b], [now]);
    var order, m := OutcomeConserves(cal, [b], [now], removed, retained);
    CountedTwice(cal, i, j, b, now, order, m);
  }

  lemma CountedTwice(cal: Calendar, i: nat, j: nat, b: Backup, now: Moment, order: seq<TimeInterval>, m: Mappings)
    requires i < j < |cal| && Contains(cal[i], b.start, now) && Contains(cal[j], b.start, now)
    requires Maps(m, cal, [b], [now]) && IsWalked(order, m.Keys)
    ensures Total(order, m)[b] > 1
  {
    SingleGroup(cal, b, now, cal[i], m);
    SingleGroup(cal, b, now, cal[j], m);
    OccursAt(cal, i);
    OccursAt(cal, j);
    TotalHas(order, m, cal[i], b);
    assert cal[i] != cal[j] ==> Total(order, m)[b] >= multiset(At(m, cal[i]))[b] + multiset(At(m, cal[j]))[b];
  }

  lemma SingleGroup(cal: Calendar, b: Backup, now: Moment, i: TimeInterval, m: Mappings)
    requires Contains(i, b.start, now) && Maps(m, cal, [b], [now]) && Occurrences(cal, i) >= 0
    ensures multiset(At(m, i))[b] == Occurrences(cal, i) && (Occurrences(cal, i) > 0 ==> i in m.Keys)
  {
    CopiesCount(cal, b, now, i);
    assert At(m, i) == Grouped(cal, [b], [now], i);
    assert [b][..0] == [];
  }

  /** Removed and retained make up the input. */
  ghost predicate Splits(cal: Calendar, backups: seq<Backup>, clock: seq<Moment>, removed: seq<Backup>, retained: seq<Backup>) {
    |clock| >= |backups| && IsOutcome(cal, backups, clock, removed, retained) ==>
      multiset(removed) + multiset(retained) == multiset(backups)
  }

  /** They do so for every input exactly if no two intervals of the calendar overlap in the offsets that the code
      computes. */
  lemma PartitionIffApart(cal: Calendar)
    requires AllModesValid(cal)
    ensures PairwiseApart(cal) <==>
            forall backups: seq<Backup>, clock: seq<Moment>, removed: seq<Backup>, retained: seq<Backup> ::
              Splits(cal, backups, clock, removed, retained)
  {
    if PairwiseApart(cal) {
      forall backups: seq<Backup>, clock: seq<Moment>, removed: seq<Backup>, retained: seq<Backup>
        ensures Splits(cal, backups, clock, removed, retained)
      {
        if |clock| >= |backups| && IsOutcome(cal, backups, clock, removed, retained) {
          Partition(cal, backups, clock, removed, retained);
        }
      }
    } else {
      var backups, clock, removed, retained := DoublingIsNoSplit(cal);
    }
  }

  lemma TwiceIsNoSplit(cal: Calendar, b: Backup, now: Moment, removed: seq<Backup>, retained: seq<Backup>)
    requires IsOutcome(cal, [b], [now], removed, retained) && (multiset(removed) + multiset(retained))[b] > 1
    ensures !Splits(cal, [b], [now], removed, retained)
  {
    assert multiset([b])[b] == 1;
  }

  lemma DoublingIsNoSplit(cal: Calendar)
    returns (backups: seq<Backup>, clock: seq<Moment>, removed: seq<Backup>, retained: seq<Backup>)
    requires AllModesValid(cal) && !PairwiseApart(cal)
    ensures !Splits(cal, backups, clock, removed, retained)
  {
    var i, j :| 0 <= i < j < |cal| && !Apart(cal[i], cal[j]);
    var b, now;
    b, now, removed, retained := DoubledBackup(cal, i, j);
    TwiceIsNoSplit(cal, b, now, removed, retained);
    backups, clock := [b], [now];
  }

  /** The check of the configuration alone is not enough: it accepts this calendar, whose second interval is so far back
      that its end wraps around to today, and then a backup of today is kept twice. */
  const FAR_CALENDAR: Calendar := [TimeInterval("near", 0, 106751, ALL), TimeInterval("far", 106752, 213504, ALL)]

  lemma FarCalendarDoublesBackups()
    ensures Contiguous(FAR_CALENDAR) && AllModesValid(FAR_CALENDAR)
    ensures forall k :: 0 <= k < |FAR_CALENDAR| ==> FAR_CALENDAR[k].start <= FAR_CALENDAR[k].end
    ensures exists b: Backup, now: Moment, removed: seq<Backup>, retained: seq<Backup> ::
              IsOutcome(FAR_CALENDAR, [b], [now], removed, retained) && (multiset(removed) + multiset(retained))[b] > 1
  {
    assert !Apart(FAR_CALENDAR[0], FAR_CALENDAR[1]);
    var b, now, removed, retained := DoubledBackup(FAR_CALENDAR, 0, 1);
  }
}
