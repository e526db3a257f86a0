/** The interval based retention strategy: which completed backups the garbage collection removes. */
module Retention {
  // ---- time

  /** A moment in nanoseconds since the zero time; a duration is an int64 number of nanoseconds. */
  type Moment = int

  const TWO_63 := 0x8000_0000_0000_0000
  const DAY := 86_400_000_000_000

  type Int64 = x: int | -TWO_63 <= x < TWO_63

  /** What is left of a number in a signed 64-bit word. */
  function Wrap64(x: int): (w: int)
    ensures -TWO_63 <= w < TWO_63
    ensures (w - x) % (2 * TWO_63) == 0
    ensures -TWO_63 <= x < TWO_63 ==> w == x
  {
    (x + TWO_63) % (2 * TWO_63) - TWO_63
  }

  function Truncate(t: Moment): Moment { t - t % DAY }

  function Day(t: Moment): int { t / DAY }

  // ---- intervals

  datatype TimeInterval = TimeInterval(name: string, start: Int64, end: Int64, mode: string)

  const ALL := "ALL"
  const OLDEST := "OLDEST"

  predicate IsValidMode(mode: string) { mode == ALL || mode == OLDEST }

  function NewTimeInterval(name: string, start: Int64, end: Int64, mode: string): (i: TimeInterval)
    ensures IsValidMode(i.mode) && (IsValidMode(mode) ==> i.mode == mode)
  {
    TimeInterval(name, start, end, if IsValidMode(mode) then mode else ALL)
  }

  /** How far the border of an interval lies from now: a product of two durations that may wrap around. */
  function Offset(days: int): int { Wrap64(DAY * Wrap64(-days)) }

  predicate Contains(i: TimeInterval, timestamp: Moment, current: Moment) {
    Truncate(current + Offset(i.end)) <= Truncate(timestamp) <= Truncate(current + Offset(i.start))
  }

  /** The day offset fits in a duration. */
  predicate Fits(days: int) { -TWO_63 <= DAY * -days < TWO_63 }

  lemma OffsetFits(days: int)
    requires Fits(days)
    ensures Offset(days) == DAY * -days
  {
  }

  lemma TruncateIsDay(t: Moment)
    ensures Truncate(t) == DAY * Day(t)
  {
  }

  lemma DayShifts(t: Moment, days: int)
    ensures Day(t + DAY * days) == Day(t) + days
  {
    assert (t + DAY * days) / DAY == t / DAY + days;
  }

  /** As long as both offsets fit, an interval is a range of ages in whole days; the time of day does not matter. */
  lemma ContainsIsAge(i: TimeInterval, timestamp: Moment, now: Moment)
    requires Fits(i.start) && Fits(i.end)
    ensures Contains(i, timestamp, now) <==> i.start <= Day(now) - Day(timestamp) <= i.end
  {
    OffsetFits(i.start);
    OffsetFits(i.end);
    DayShifts(now, -i.start);
    DayShifts(now, -i.end);
    TruncateIsDay(now + Offset(i.start));
    TruncateIsDay(now + Offset(i.end));
    TruncateIsDay(timestamp);
  }

  /** The border lies that many days before today, at every moment, exactly if the offset fits. */
  lemma BorderIsExactIff(days: Int64)
    ensures (forall now: Moment {:trigger Day(now)} :: Day(now + Offset(days)) == Day(now) - days) <==> Fits(days)
  {
    if Fits(days) {
      OffsetFits(days);
      forall now: Moment ensures Day(now + Offset(days)) == Day(now) - days { DayShifts(now, -days); }
    } else {
      var o := Offset(days);
      assert Day(0) == 0;
      if Day(0 + o) == Day(0) - days {
        assert o == DAY * -days + o % DAY;
        WrapsFar(days);
        assert false;
      }
    }
  }

  /** An offset that does not fit is off by a whole turn, far more than a day. */
  lemma WrapsFar(days: int)
    requires -TWO_63 <= days < TWO_63 && !Fits(days)
    ensures Offset(days) - DAY * -days >= DAY || Offset(days) - DAY * -days < 0
  {
    var x := DAY * Wrap64(-days);
    var turns := (Offset(days) - x) / (2 * TWO_63);
    assert Offset(days) - x == 2 * TWO_63 * turns;
  }

  function Max(a: int, b: int): int { if a < b then b else a }

  function Min(a: int, b: int): int { if a < b then a else b }

  /** Between the earlier upper border and the later lower border of two intervals lies at least a day. */
  predicate Apart(i: TimeInterval, j: TimeInterval) {
    Max(Offset(i.end), Offset(j.end)) - Min(Offset(i.start), Offset(j.start)) >= DAY
  }

  /** That is exactly when no timestamp is ever in both. */
  lemma ApartIffDisjoint(i: TimeInterval, j: TimeInterval)
    ensures Apart(i, j) <==> forall timestamp, now :: !(Contains(i, timestamp, now) && Contains(j, timestamp, now))
  {
    var lo, hi := Max(Offset(i.end), Offset(j.end)), Min(Offset(i.start), Offset(j.start));
    if Apart(i, j) {
      forall timestamp, now ensures !(Contains(i, timestamp, now) && Contains(j, timestamp, now)) {
        FarApart(now + lo, now + hi);
      }
    } else {
      assert Contains(i, 0, -hi) && Contains(j, 0, -hi);
    }
  }

  lemma FarApart(t: Moment, u: Moment)
    requires t - u >= DAY
    ensures Truncate(t) > Truncate(u)
  {
  }

  // ---- calendars

  type Calendar = seq<TimeInterval>

  /** Where the k-th interval has to start. */
  function NextStart(cal: Calendar, k: nat): int
    requires k <= |cal|
  {
    if k == 0 then 0 else Wrap64(cal[k - 1].end + 1)
  }

  /** The intervals follow each other from day 0 without gap or overlap. */
  predicate Contiguous(cal: Calendar) {
    forall k {:trigger NextStart(cal, k)} :: 0 <= k < |cal| ==> cal[k].start == NextStart(cal, k)
  }

  /** The check of a configuration; the error names the first interval that does not continue the last one. */
  method ValidateConfig(cal: Calendar) returns (valid: bool, culprit: string)
    ensures valid <==> Contiguous(cal)
    ensures !valid ==> exists k :: 0 <= k < |cal| && culprit == cal[k].name && cal[k].start != NextStart(cal, k)
                                   && forall j {:trigger NextStart(cal, j)} :: 0 <= j < k ==> cal[j].start == NextStart(cal, j)
  {
    var current := 0;
    for n := 0 to |cal|
      invariant current == NextStart(cal, n)
      invariant forall k {:trigger NextStart(cal, k)} :: 0 <= k < n ==> cal[k].start == NextStart(cal, k)
    {
      if current != cal[n].start { return false, cal[n].name; }
      current := Wrap64(cal[n].end + 1);
    }
    return true, "";
  }

  predicate IsWellFormed(cal: Calendar) {
    Contiguous(cal)
    && forall k :: 0 <= k < |cal| ==> cal[k].start <= cal[k].end && Fits(cal[k].start) && Fits(cal[k].end) && IsValidMode(cal[k].mode)
  }

  predicate PairwiseApart(cal: Calendar) { forall i, j :: 0 <= i < j < |cal| ==> Apart(cal[i], cal[j]) }

  lemma {:induction false} StartsFollow(cal: Calendar, i: nat, j: nat)
    requires IsWellFormed(cal) && i < j < |cal|
    ensures cal[i].end < cal[j].start
  {
    assert cal[j].start == NextStart(cal, j);
    if j > i + 1 { StartsFollow(cal, i, j - 1); }
  }

  /** An accepted calendar with start <= end whose day offsets fit has no timestamp in two intervals. */
  lemma WellFormedIsApart(cal: Calendar)
    requires IsWellFormed(cal)
    ensures PairwiseApart(cal)
  {
    forall i, j | 0 <= i < j < |cal| ensures Apart(cal[i], cal[j]) {
      StartsFollow(cal, i, j);
      OffsetFits(cal[i].start);
      OffsetFits(cal[i].end);
      OffsetFits(cal[j].start);
      OffsetFits(cal[j].end);
    }
  }

  // ---- what a run decides

  datatype Backup = Backup(name: string, start: Moment)

  predicate Found(cal: Calendar, b: Backup, now: Moment) { exists i <- cal :: Contains(i, b.start, now) }

  /** The backup once for every occurrence of the interval in the calendar that contains it. */
  function Copies(cal: Calendar, b: Backup, now: Moment, i: TimeInterval): seq<Backup> {
    if cal == [] then []
    else
      Copies(cal[..|cal| - 1], b, now, i)
      + (if cal[|cal| - 1] == i && Contains(i, b.start, now) then [b] else [])
  }

  /** The backups that the interval gets, in the order of the list; the clock is read for each backup. */
  function Grouped(cal: Calendar, backups: seq<Backup>, clock: seq<Moment>, i: TimeInterval): seq<Backup>
    requires |clock| >= |backups|
  {
    if backups == [] then []
    else
      var n := |backups| - 1;
      Grouped(cal, backups[..n], clock, i) + Copies(cal, backups[n], clock[n], i)
  }

  function Unmatched(cal: Calendar, backups: seq<Backup>, clock: seq<Moment>): seq<Backup>
    requires |clock| >= |backups|
  {
    if backups == [] then []
    else
      var n := |backups| - 1;
      Unmatched(cal, backups[..n], clock) + (if Found(cal, backups[n], clock[n]) then [] else [backups[n]])
  }

  /** The first of those with the earliest start. */
  function OldestIndex(backups: seq<Backup>): (k: nat)
    requires backups != []
    ensures k < |backups|
    ensures forall j :: 0 <= j < |backups| ==> backups[k].start <= backups[j].start
    ensures forall j :: 0 <= j < k ==> backups[k].start < backups[j].start
  {
    if |backups| == 1 then 0
    else
      var n := |backups| - 1;
      var k := OldestIndex(backups[..n]);
      if backups[n].start < backups[k].start then n else k
  }

  /** An interval of an unknown mode keeps nothing and removes nothing. */
  function Kept(i: TimeInterval, backups: seq<Backup>): seq<Backup> {
    if i.mode == ALL then backups
    else if i.mode == OLDEST && backups != [] then [backups[OldestIndex(backups)]]
    else []
  }

  function Dropped(i: TimeInterval, backups: seq<Backup>): seq<Backup> {
    if i.mode == OLDEST && backups != [] then
      var k := OldestIndex(backups);
      backups[..k] + backups[k + 1..]
    else []
  }

  /** The backups of each interval that has any. */
  type Mappings = map<TimeInterval, seq<Backup>>

  function At(mappings: Mappings, i: TimeInterval): seq<Backup> { if i in mappings then mappings[i] else [] }

  ghost predicate Maps(mappings: Mappings, cal: Calendar, backups: seq<Backup>, clock: seq<Moment>)
    requires |clock| >= |backups|
  {
    (forall i :: At(mappings, i) == Grouped(cal, backups, clock, i)) && forall i :: i in mappings ==> mappings[i] != []
  }

  function AllKept(order: seq<TimeInterval>, mappings: Mappings): seq<Backup> {
    if order == [] then []
    else
      var n := |order| - 1;
      AllKept(order[..n], mappings) + Kept(order[n], At(mappings, order[n]))
  }

  function AllDropped(order: seq<TimeInterval>, mappings: Mappings): seq<Backup> {
    if order == [] then []
    else
      var n := |order| - 1;
      AllDropped(order[..n], mappings) + Dropped(order[n], At(mappings, order[n]))
  }

  predicate IsUnique(order: seq<TimeInterval>) { forall j, k :: 0 <= j < k < |order| ==> order[j] != order[k] }

  /** An order in which these intervals have been walked through. */
  ghost predicate IsWalked(order: seq<TimeInterval>, walked: set<TimeInterval>) {
    IsUnique(order) && forall i :: i in order <==> i in walked
  }

  /** What the walk in this order adds to the removed backups, and what it retains. */
  ghost predicate Filters(mappings: Mappings, order: seq<TimeInterval>, removed: seq<Backup>, removed': seq<Backup>, retained: seq<Backup>) {
    IsWalked(order, mappings.Keys) && removed' == removed + AllDropped(order, mappings) && retained == AllKept(order, mappings)
  }

  /** The results that a run may have; only the walk through the map is left open. */
  ghost predicate IsOutcome(cal: Calendar, backups: seq<Backup>, clock: seq<Moment>, removed: seq<Backup>, retained: seq<Backup>)
    requires |clock| >= |backups|
  {
    exists mappings: Mappings, order: seq<TimeInterval> :: Results(mappings, order, cal, backups, clock, removed, retained)
  }

  ghost predicate Results(mappings: Mappings, order: seq<TimeInterval>,
                          cal: Calendar, backups: seq<Backup>, clock: seq<Moment>, removed: seq<Backup>, retained: seq<Backup>)
    requires |clock| >= |backups|
  {
    Maps(mappings, cal, backups, clock) && Filters(mappings, order, Unmatched(cal, backups, clock), removed, retained)
  }

  // ---- the algorithm

  method MapBackupToIntervals(cal: Calendar, mappings: Mappings, removed: seq<Backup>, b: Backup, now: Moment)
    returns (mappings': Mappings, removed': seq<Backup>)
    requires forall i :: i in mappings ==> mappings[i] != []
    ensures forall i :: At(mappings', i) == At(mappings, i) + Copies(cal, b, now, i)
    ensures forall i :: i in mappings' ==> mappings'[i] != []
    ensures removed' == removed + (if Found(cal, b, now) then [] else [b])
  {
    mappings' := mappings;
    var found := false;
    for n := 0 to |cal|
      invariant forall i :: At(mappings', i) == At(mappings, i) + Copies(cal[..n], b, now, i)
      invariant forall i :: i in mappings' ==> mappings'[i] != []
      invariant found <==> Found(cal[..n], b, now)
    {
      FoundGrows(cal, n, b, now);
      ghost var before := mappings';
      if Contains(cal[n], b.start, now) {
        mappings' := mappings'[cal[n] := At(mappings', cal[n]) + [b]];
        found := true;
      }
      CopiesGrow(mappings, before, mappings', cal, n, b, now);
    }
    assert cal[..|cal|] == cal;
    removed' := if found then removed else removed + [b];
  }

  lemma FoundGrows(cal: Calendar, n: nat, b: Backup, now: Moment)
    requires n < |cal|
    ensures Found(cal[..n + 1], b, now) <==> Found(cal[..n], b, now) || Contains(cal[n], b.start, now)
  {
    assert cal[..n + 1] == cal[..n] + [cal[n]];
  }

  lemma CopiesGrow(first: Mappings, m: Mappings, m': Mappings, cal: Calendar, n: nat, b: Backup, now: Moment)
    requires n < |cal| && forall i :: At(m, i) == At(first, i) + Copies(cal[..n], b, now, i)
    requires m' == if Contains(cal[n], b.start, now) then m[cal[n] := At(m, cal[n]) + [b]] else m
    ensures forall i :: At(m', i) == At(first, i) + Copies(cal[..n + 1], b, now, i)
  {
    assert cal[..n + 1][..n] == cal[..n] && cal[..n + 1][n] == cal[n];
    forall i ensures At(m', i) == At(first, i) + Copies(cal[..n + 1], b, now, i) {
      assert At(m, i) == At(first, i) + Copies(cal[..n], b, now, i);
    }
  }

  method RetainOldest(backups: seq<Backup>) returns (removed: seq<Backup>, retained: seq<Backup>)
    ensures backups == [] ==> removed == [] && retained == []
    ensures backups != [] ==>
              var k := OldestIndex(backups); retained == [backups[k]] && removed == backups[..k] + backups[k + 1..]
  {
    if backups == [] { return [], []; }
    var oldest := 0;
    for n := 0 to |backups|
      invariant oldest < |backups| && (n > 0 ==> oldest == OldestIndex(backups[..n])) && (n == 0 ==> oldest == 0)
    {
      assert backups[..n + 1][..n] == backups[..n];
      if backups[n].start < backups[oldest].start { oldest := n; }
    }
    assert backups[..|backups|] == backups;
    removed := backups[..oldest] + backups[oldest + 1..];
    retained := [backups[oldest]];
  }

  method FilterInterval(i: TimeInterval, backups: seq<Backup>) returns (removed: seq<Backup>, retained: seq<Backup>)
    ensures removed == Dropped(i, backups) && retained == Kept(i, backups)
  {
    removed, retained := [], [];
    if i.mode == ALL {
      retained := backups;
    } else if i.mode == OLDEST {
      removed, retained := RetainOldest(backups);
    }
  }

  /** The map is walked through in an order that nobody knows beforehand. */
  method FilterByRetentionMode(mappings: Mappings, removed: seq<Backup>) returns (removed': seq<Backup>, retained': seq<Backup>)
    ensures exists order: seq<TimeInterval> :: Filters(mappings, order, removed, removed', retained')
  {
    removed', retained' := removed, [];
    ghost var order: seq<TimeInterval> := [];
    var todo := mappings.Keys;
    while todo != {}
      invariant todo <= mappings.Keys && IsWalked(order, mappings.Keys - todo)
      invariant removed' == removed + AllDropped(order, mappings) && retained' == AllKept(order, mappings)
      decreases |todo|
    {
      var i :| i in todo;
      WalkOn(order, mappings, todo, i);
      var newRemoved, newRetained := FilterInterval(i, mappings[i]);
      AppendsAssociate(removed, AllDropped(order, mappings), newRemoved);
      removed', retained' := removed' + newRemoved, retained' + newRetained;
      todo, order := todo - {i}, order + [i];
    }
    assert Filters(mappings, order, removed, removed', retained');
  }

  lemma AppendsAssociate(a: seq<Backup>, b: seq<Backup>, c: seq<Backup>)
    ensures (a + b) + c == a + (b + c)
  {
  }

  lemma WalkOn(order: seq<TimeInterval>, mappings: Mappings, todo: set<TimeInterval>, i: TimeInterval)
    requires IsWalked(order, mappings.Keys - todo) && i in todo && todo <= mappings.Keys
    ensures IsWalked(order + [i], mappings.Keys - (todo - {i}))
    ensures AllKept(order + [i], mappings) == AllKept(order, mappings) + Kept(i, mappings[i])
    ensures AllDropped(order + [i], mappings) == AllDropped(order, mappings) + Dropped(i, mappings[i])
  {
    assert (order + [i])[..|order|] == order;
  }

  /** The clock shows clock[n] when the n-th backup is looked at. */
  method FilterForRemoval(cal: Calendar, backups: seq<Backup>, clock: seq<Moment>) returns (removed: seq<Backup>, retained: seq<Backup>)
    requires |clock| >= |backups|
    ensures IsOutcome(cal, backups, clock, removed, retained)
  {
    var mappings: Mappings := map[];
    removed := [];
    for n := 0 to |backups|
      invariant Maps(mappings, cal, backups[..n], clock)
      invariant removed == Unmatched(cal, backups[..n], clock)
    {
      assert backups[..n + 1][..n] == backups[..n];
      mappings, removed := MapBackupToIntervals(cal, mappings, removed, backups[n], clock[n]);
    }
    assert backups[..|backups|] == backups;
    ghost var unmatched := removed;
    removed, retained := FilterByRetentionMode(mappings, removed);
    ghost var order: seq<TimeInterval> :| Filters(mappings, order, unmatched, removed, retained);
    assert Results(mappings, order, cal, backups, clock, removed, retained);
  }
}
