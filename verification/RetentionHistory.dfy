/** The retention strategy over a history of runs: what one run keeps, the next one keeps. */
module RetentionHistory {
  import opened Retention
  import opened RetentionLaws

  /** Every reading of the clock during the run falls on the same day. */
  predicate OnOneDay(clock: seq<Moment>, n: nat, day: int)
    requires n <= |clock|
  {
    forall k :: 0 <= k < n ==> Day(clock[k]) == day
  }

  predicate InAge(i: TimeInterval, b: Backup, day: int) { i.start <= day - Day(b.start) <= i.end }

  function Filtered(backups: seq<Backup>, i: TimeInterval, day: int): (r: seq<Backup>)
    ensures forall b :: b in r <==> b in backups && InAge(i, b, day)
  {
    if backups == [] then []
    else
      var n := |backups| - 1;
      Filtered(backups[..n], i, day) + (if InAge(i, backups[n], day) then [backups[n]] else [])
  }

  lemma CopiesByAge(cal: Calendar, b: Backup, now: Moment, i: TimeInterval)
    requires IsWellFormed(cal) && i in cal
    ensures Copies(cal, b, now, i) == if InAge(i, b, Day(now)) then [b] else []
  {
    ContainsIsAge(i, b.start, now);
    WellFormedIsApart(cal);
    if InAge(i, b, Day(now)) {
      var k :| 0 <= k < |cal| && cal[k] == i;
      CopiesOfHit(cal, b, now, k);
    } else {
      CopiesOfMiss(cal, b, now, i);
    }
  }

  lemma {:induction false} GroupsByAge(cal: Calendar, backups: seq<Backup>, clock: seq<Moment>, day: int, i: TimeInterval)
    requires IsWellFormed(cal) && i in cal && |clock| >= |backups| && OnOneDay(clock, |backups|, day)
    ensures Grouped(cal, backups, clock, i) == Filtered(backups, i, day)
  {
    if backups != [] {
      var n := |backups| - 1;
      GroupsByAge(cal, backups[..n], clock, day, i);
      CopiesByAge(cal, backups[n], clock[n], i);
    }
  }

  lemma OneInterval(cal: Calendar, i: TimeInterval, j: TimeInterval, b: Backup, day: int)
    requires IsWellFormed(cal) && i in cal && j in cal && InAge(i, b, day) && InAge(j, b, day)
    ensures i == j
  {
    var k, l :| 0 <= k < |cal| && 0 <= l < |cal| && cal[k] == i && cal[l] == j;
    if k < l { StartsFollow(cal, k, l); }
    if l < k { StartsFollow(cal, l, k); }
  }

  lemma {:induction false} FilterAppends(a: seq<Backup>, b: seq<Backup>, i: TimeInterval, day: int)
    ensures Filtered(a + b, i, day) == Filtered(a, i, day) + Filtered(b, i, day)
  {
    if b == [] {
      assert a + b == a;
    } else {
      var n := |b| - 1;
      assert (a + b)[..|a| + n] == a + b[..n];
      FilterAppends(a, b[..n], i, day);
    }
  }

  lemma {:induction false} FilterKeepsAll(a: seq<Backup>, i: TimeInterval, day: int)
    requires forall b :: b in a ==> InAge(i, b, day)
    ensures Filtered(a, i, day) == a
  {
    if a != [] { FilterKeepsAll(a[..|a| - 1], i, day); }
  }

  lemma {:induction false} FilterKeepsNone(a: seq<Backup>, i: TimeInterval, day: int)
    requires forall b :: b in a ==> !InAge(i, b, day)
    ensures Filtered(a, i, day) == []
  {
    if a != [] { FilterKeepsNone(a[..|a| - 1], i, day); }
  }

  lemma KeptAreOfGroup(i: TimeInterval, g: seq<Backup>)
    ensures forall b :: b in Kept(i, g) ==> b in g
  {
  }

  /** The groups of a run on one day. */
  ghost predicate GroupsOn(m: Mappings, cal: Calendar, backups: seq<Backup>, day: int) {
    forall i :: i in cal ==> At(m, i) == Filtered(backups, i, day)
  }

  lemma OutcomeOnDay(cal: Calendar, backups: seq<Backup>, clock: seq<Moment>, day: int, removed: seq<Backup>, retained: seq<Backup>)
    returns (m: Mappings, order: seq<TimeInterval>)
    requires IsWellFormed(cal) && |clock| >= |backups| && OnOneDay(clock, |backups|, day)
    requires IsOutcome(cal, backups, clock, removed, retained)
    ensures Results(m, order, cal, backups, clock, removed, retained) && GroupsOn(m, cal, backups, day)
    ensures forall i :: i in order ==> i in cal
  {
    m, order :| Results(m, order, cal, backups, clock, removed, retained);
    forall i | i in cal ensures At(m, i) == Filtered(backups, i, day) {
      GroupsByAge(cal, backups, clock, day, i);
      assert At(m, i) == Grouped(cal, backups, clock, i);
    }
    forall i | i in order ensures i in cal {
      assert At(m, i) == Grouped(cal, backups, clock, i);
      GroupsAreOfCalendar(cal, backups, clock, i);
    }
  }

  /** What a walk keeps of an interval is what that interval alone keeps. */
  lemma {:induction false} KeptPerInterval(order: seq<TimeInterval>, m: Mappings, cal: Calendar, backups: seq<Backup>, day: int, i: TimeInterval)
    requires IsWellFormed(cal) && i in cal && IsUnique(order) && GroupsOn(m, cal, backups, day)
    requires forall j :: j in order ==> j in cal
    ensures Filtered(AllKept(order, m), i, day) == if i in order then Kept(i, At(m, i)) else []
  {
    if order != [] {
      var init, last := order[..|order| - 1], order[|order| - 1];
      assert order == init + [last];
      KeptPerInterval(init, m, cal, backups, day, i);
      FilterAppends(AllKept(init, m), Kept(last, At(m, last)), i, day);
      KeptAreOfGroup(last, At(m, last));
      if last == i {
        FilterKeepsAll(Kept(i, At(m, i)), i, day);
      } else {
        forall b | b in Kept(last, At(m, last)) ensures !InAge(i, b, day) {
          if InAge(i, b, day) { OneInterval(cal, i, last, b, day); }
        }
        FilterKeepsNone(Kept(last, At(m, last)), i, day);
      }
    }
  }

  lemma KeptOnDay(cal: Calendar, backups: seq<Backup>, clock: seq<Moment>, day: int, removed: seq<Backup>, retained: seq<Backup>, i: TimeInterval)
    requires IsWellFormed(cal) && |clock| >= |backups| && OnOneDay(clock, |backups|, day) && i in cal
    requires IsOutcome(cal, backups, clock, removed, retained)
    ensures Filtered(retained, i, day) == Kept(i, Filtered(backups, i, day))
  {
    var m, order := OutcomeOnDay(cal, backups, clock, day, removed, retained);
    KeptPerInterval(order, m, cal, backups, day, i);
    assert i !in order ==> At(m, i) == [];
  }

  /** At most one backup in each interval of mode OLDEST survives a run. */
  lemma AtMostOneOldest(cal: Calendar, backups: seq<Backup>, clock: seq<Moment>, day: int, removed: seq<Backup>, retained: seq<Backup>, i: TimeInterval)
    requires IsWellFormed(cal) && |clock| >= |backups| && OnOneDay(clock, |backups|, day) && i in cal && i.mode == OLDEST
    requires IsOutcome(cal, backups, clock, removed, retained)
    ensures |Filtered(retained, i, day)| == if Filtered(backups, i, day) == [] then 0 else 1
  {
    KeptOnDay(cal, backups, clock, day, removed, retained, i);
  }

  lemma {:induction false} KeptAreFound(order: seq<TimeInterval>, m: Mappings, b: Backup)
    requires b in AllKept(order, m)
    ensures exists i :: i in order && b in At(m, i)
  {
    var init, last := order[..|order| - 1], order[|order| - 1];
    assert order == init + [last];
    if b in AllKept(init, m) {
      KeptAreFound(init, m, b);
      var i :| i in init && b in At(m, i);
      assert i in order;
    } else {
      KeptAreOfGroup(last, At(m, last));
    }
  }

  predicate HasPlace(cal: Calendar, b: Backup, day: int) { exists i :: i in cal && InAge(i, b, day) }

  /** Only backups of the input are retained, each of them in some interval. */
  lemma RetainedAreBackups(cal: Calendar, backups: seq<Backup>, clock: seq<Moment>, day: int, removed: seq<Backup>, retained: seq<Backup>, b: Backup)
    requires IsWellFormed(cal) && |clock| >= |backups| && OnOneDay(clock, |backups|, day) && b in retained
    requires IsOutcome(cal, backups, clock, removed, retained)
    ensures b in backups && HasPlace(cal, b, day)
  {
    var m, order := OutcomeOnDay(cal, backups, clock, day, removed, retained);
    KeptAreFound(order, m, b);
    var i :| i in order && b in At(m, i);
    assert At(m, i) == Filtered(backups, i, day);
  }

  // ---- the same day again

  lemma PlaceIsFound(cal: Calendar, b: Backup, now: Moment)
    requires IsWellFormed(cal) && HasPlace(cal, b, Day(now))
    ensures Found(cal, b, now)
  {
    var i :| i in cal && InAge(i, b, Day(now));
    ContainsIsAge(i, b.start, now);
  }

  ghost predicate AllHavePlaces(cal: Calendar, backups: seq<Backup>, day: int) { forall b :: b in backups ==> HasPlace(cal, b, day) }

  lemma {:induction false} AllMatched(cal: Calendar, backups: seq<Backup>, clock: seq<Moment>, day: int)
    requires IsWellFormed(cal) && |clock| >= |backups| && OnOneDay(clock, |backups|, day) && AllHavePlaces(cal, backups, day)
    ensures Unmatched(cal, backups, clock) == []
  {
    if backups != [] {
      AllMatched(cal, backups[..|backups| - 1], clock, day);
      LastIsMatched(cal, backups, clock, day);
    }
  }

  lemma LastIsMatched(cal: Calendar, backups: seq<Backup>, clock: seq<Moment>, day: int)
    requires IsWellFormed(cal) && |clock| >= |backups| && OnOneDay(clock, |backups|, day) && AllHavePlaces(cal, backups, day)
    requires backups != []
    ensures Found(cal, backups[|backups| - 1], clock[|backups| - 1])
  {
    PlaceIsFound(cal, backups[|backups| - 1], clock[|backups| - 1]);
  }

  lemma {:induction false} NothingDropped(order: seq<TimeInterval>, m: Mappings)
    requires forall i :: i in order ==> Dropped(i, At(m, i)) == []
    ensures AllDropped(order, m) == []
  {
    if order != [] { NothingDropped(order[..|order| - 1], m); }
  }

  lemma KeptIsKept(i: TimeInterval, g: seq<Backup>)
    ensures Dropped(i, Kept(i, g)) == []
  {
  }

  /** Run again on what was retained, on the same day: nothing is removed any more. */
  lemma SecondRunRemovesNothing(cal: Calendar, backups: seq<Backup>, clock: seq<Moment>, day: int, removed: seq<Backup>, retained: seq<Backup>,
                                clock2: seq<Moment>, removed2: seq<Backup>, retained2: seq<Backup>)
    requires IsWellFormed(cal) && |clock| >= |backups| && OnOneDay(clock, |backups|, day)
    requires IsOutcome(cal, backups, clock, removed, retained)
    requires |clock2| >= |retained| && OnOneDay(clock2, |retained|, day) && IsOutcome(cal, retained, clock2, removed2, retained2)
    ensures removed2 == [] && multiset(retained2) == multiset(retained)
  {
    forall b | b in retained ensures HasPlace(cal, b, day) {
      RetainedAreBackups(cal, backups, clock, day, removed, retained, b);
    }
    AllMatched(cal, retained, clock2, day);
    var m, order := OutcomeOnDay(cal, retained, clock2, day, removed2, retained2);
    forall i | i in order ensures Dropped(i, At(m, i)) == [] {
      KeptOnDay(cal, backups, clock, day, removed, retained, i);
      KeptIsKept(i, Filtered(backups, i, day));
    }
    NothingDropped(order, m);
    AcceptedCalendarsPartition(cal, retained, clock2, removed2, retained2);
  }

  // ---- run after run, whenever the clock is read

  /** The group of an interval has the backups that were of its age when they were looked at. */
  lemma {:induction false} GroupMembers(cal: Calendar, backups: seq<Backup>, clock: seq<Moment>, i: TimeInterval, c: Backup)
    requires IsWellFormed(cal) && i in cal && |clock| >= |backups|
    ensures c in Grouped(cal, backups, clock, i) <==> IsRead(backups, clock, i, c)
  {
    if backups != [] {
      var n := |backups| - 1;
      GroupMembers(cal, backups[..n], clock, i, c);
      CopiesByAge(cal, backups[n], clock[n], i);
      LastReadInAge(backups, clock, i, c);
    }
  }

  lemma LastReadInAge(backups: seq<Backup>, clock: seq<Moment>, i: TimeInterval, c: Backup)
    requires backups != [] && |clock| >= |backups|
    ensures IsRead(backups, clock, i, c) <==> IsRead(backups[..|backups| - 1], clock, i, c) || IsReadInAge(backups, clock, |backups| - 1, i, c)
  {
    var n := |backups| - 1;
    if k :| IsReadInAge(backups, clock, k, i, c) { assert k < n ==> IsReadInAge(backups[..n], clock, k, i, c); }
    if k :| IsReadInAge(backups[..n], clock, k, i, c) { assert IsReadInAge(backups, clock, k, i, c); }
  }

  /** The k-th backup is this one, and it was of the interval's age at its reading of the clock. */
  predicate IsReadInAge(backups: seq<Backup>, clock: seq<Moment>, k: int, i: TimeInterval, c: Backup)
    requires |clock| >= |backups|
  {
    0 <= k < |backups| && backups[k] == c && InAge(i, c, Day(clock[k]))
  }

  ghost predicate IsRead(backups: seq<Backup>, clock: seq<Moment>, i: TimeInterval, c: Backup)
    requires |clock| >= |backups|
  {
    exists k :: IsReadInAge(backups, clock, k, i, c)
  }

  lemma {:induction false} KeptOfWalked(order: seq<TimeInterval>, m: Mappings, i: TimeInterval, c: Backup)
    requires i in order && c in Kept(i, At(m, i))
    ensures c in AllKept(order, m)
  {
    var init, last := order[..|order| - 1], order[|order| - 1];
    assert order == init + [last];
    if i in init { KeptOfWalked(init, m, i, c); }
  }

  /** What an interval keeps of its group is retained, ... */
  lemma KeptIsRetained(cal: Calendar, backups: seq<Backup>, clock: seq<Moment>, removed: seq<Backup>, retained: seq<Backup>, i: TimeInterval, c: Backup)
    requires |clock| >= |backups| && IsOutcome(cal, backups, clock, removed, retained) && c in Kept(i, Grouped(cal, backups, clock, i))
    ensures c in retained
  {
    var m, order :| Results(m, order, cal, backups, clock, removed, retained);
    assert At(m, i) == Grouped(cal, backups, clock, i);
    KeptOfWalked(order, m, i, c);
  }

  lemma {:induction false} KeptBySome(order: seq<TimeInterval>, m: Mappings, c: Backup) returns (i: TimeInterval)
    requires c in AllKept(order, m)
    ensures i in order && c in Kept(i, At(m, i))
  {
    var init, last := order[..|order| - 1], order[|order| - 1];
    assert order == init + [last];
    if c in AllKept(init, m) { i := KeptBySome(init, m, c); } else { i := last; }
  }

  /** ... and whatever is retained was kept by an interval whose age it had at its reading. */
  lemma RetainedWasKept(cal: Calendar, backups: seq<Backup>, clock: seq<Moment>, removed: seq<Backup>, retained: seq<Backup>, c: Backup)
    returns (i: TimeInterval, k: nat)
    requires IsWellFormed(cal) && |clock| >= |backups| && IsOutcome(cal, backups, clock, removed, retained) && c in retained
    ensures i in cal && c in Kept(i, Grouped(cal, backups, clock, i)) && IsReadInAge(backups, clock, k, i, c)
  {
    var m, order :| Results(m, order, cal, backups, clock, removed, retained);
    i := KeptBySome(order, m, c);
    assert At(m, i) == Grouped(cal, backups, clock, i);
    KeptAreOfGroup(i, At(m, i));
    GroupsAreOfCalendar(cal, backups, clock, i);
    GroupMembers(cal, backups, clock, i, c);
    k :| IsReadInAge(backups, clock, k, i, c);
  }

  /** One run of the collection: a reading of the clock for each backup. */
  datatype GcRun = GcRun(backups: seq<Backup>, clock: seq<Moment>, removed: seq<Backup>, retained: seq<Backup>)

  ghost predicate IsGcRun(cal: Calendar, r: GcRun) {
    |r.clock| == |r.backups| && IsOutcome(cal, r.backups, r.clock, r.removed, r.retained)
  }

  predicate IsNotBefore(later: seq<Moment>, earlier: seq<Moment>) { forall x, y :: x in earlier && y in later ==> x <= y }

  /** Between two runs only backups that are newer than all others are added. */
  predicate Continues(r: GcRun, r': GcRun) {
    (forall b :: b in r.retained ==> b in r'.backups)
    && forall b :: b in r'.backups ==> b in r.retained || forall c :: c in r.backups ==> c.start < b.start
  }

  /** No run reads the clock before an earlier run did. */
  ghost predicate IsHistory(cal: Calendar, runs: seq<GcRun>) {
    (forall n :: 0 <= n < |runs| ==> IsGcRun(cal, runs[n]))
    && (forall n :: 0 < n < |runs| ==> Continues(runs[n - 1], runs[n]))
    && (forall m, n :: 0 <= m < n < |runs| ==> IsNotBefore(runs[n].clock, runs[m].clock))
  }

  /** At each of its readings up to the n-th run the backup is not too old for the interval. */
  predicate IsNotTooOld(runs: seq<GcRun>, n: nat, i: TimeInterval, b: Backup)
    requires n < |runs| && forall m :: 0 <= m <= n ==> |runs[m].clock| == |runs[m].backups|
  {
    forall m, k :: 0 <= m <= n && 0 <= k < |runs[m].backups| && runs[m].backups[k] == b ==> Day(runs[m].clock[k]) - Day(b.start) <= i.end
  }

  predicate IsRising(clock: seq<Moment>) { forall k, l :: 0 <= k <= l < |clock| ==> clock[k] <= clock[l] }

  function LastDay(clock: seq<Moment>): int
    requires clock != []
  {
    Day(clock[|clock| - 1])
  }

  /** Every reading is made on the day of the last one, or so long before it that a backup of that time is too old. */
  predicate AvoidsMidnight(clock: seq<Moment>, j: TimeInterval)
    requires clock != []
  {
    j.start == 0 || forall k :: 0 <= k < |clock| ==> Day(clock[k]) == LastDay(clock) || LastDay(clock) - Day(clock[k]) > j.end
  }

  lemma DaysAreOrdered(c: Moment, b: Moment)
    requires c <= b
    ensures Day(c) <= Day(b)
  {
  }

  /** The backup is kept, and every other one is newer, or too old for the interval on this day. */
  predicate IsTheOldest(r: GcRun, i: TimeInterval, b: Backup, day: int) {
    b in r.retained && forall c :: c in r.retained ==> c == b || c.start > b.start || day - Day(c.start) > i.end
  }

  /** Kept as the oldest of its interval. */
  predicate KeepsOldest(cal: Calendar, r: GcRun, j: TimeInterval, b: Backup)
    requires |r.clock| >= |r.backups|
  {
    b in Kept(j, Grouped(cal, r.backups, r.clock, j))
  }

  lemma OldestAtFirst(cal: Calendar, r: GcRun, j: TimeInterval, b: Backup)
    requires IsWellFormed(cal) && IsGcRun(cal, r) && j in cal && j.mode == OLDEST && r.clock != [] && IsRising(r.clock)
    requires AvoidsMidnight(r.clock, j) && KeepsOldest(cal, r, j, b)
    ensures IsTheOldest(r, j, b, LastDay(r.clock)) && j.start <= LastDay(r.clock) - Day(b.start)
  {
    KeptIsRetained(cal, r.backups, r.clock, r.removed, r.retained, j, b);
    GroupMembers(cal, r.backups, r.clock, j, b);
    var at :| IsReadInAge(r.backups, r.clock, at, j, b);
    DaysAreOrdered(r.clock[at], r.clock[|r.clock| - 1]);
    forall c | c in r.retained ensures c == b || c.start > b.start || LastDay(r.clock) - Day(c.start) > j.end {
      if c.start <= b.start && LastDay(r.clock) - Day(c.start) <= j.end { NoOlderIsRetained(cal, r, j, b, at, c); }
    }
  }

  lemma NoOlderIsRetained(cal: Calendar, r: GcRun, j: TimeInterval, b: Backup, at: nat, c: Backup)
    requires IsWellFormed(cal) && IsGcRun(cal, r) && j in cal && j.mode == OLDEST && r.clock != [] && IsRising(r.clock)
    requires AvoidsMidnight(r.clock, j) && KeepsOldest(cal, r, j, b) && IsReadInAge(r.backups, r.clock, at, j, b)
    requires c in r.retained && c.start <= b.start && LastDay(r.clock) - Day(c.start) <= j.end
    ensures c == b
  {
    var i, k := RetainedWasKept(cal, r.backups, r.clock, r.removed, r.retained, c);
    StartsAreNotNegative(cal, i);
    DaysAreOrdered(c.start, b.start);
    DaysAreOrdered(r.clock[k], r.clock[|r.clock| - 1]);
    DaysAreOrdered(r.clock[at], r.clock[|r.clock| - 1]);
    OldEnoughToo(j, LastDay(r.clock), Day(r.clock[k]), Day(r.clock[at]), Day(c.start), Day(b.start));
    OneInterval(cal, i, j, c, Day(r.clock[k]));
  }

  /** Read on day dc, the older backup is in the interval as well. */
  lemma OldEnoughToo(j: TimeInterval, last: int, dc: int, db: int, c: int, b: int)
    requires 0 <= dc - c && c <= b && dc <= last && db <= last && last - c <= j.end && j.start <= db - b <= j.end
    requires j.start == 0 || ((dc == last || last - dc > j.end) && (db == last || last - db > j.end))
    ensures j.start <= dc - c <= j.end
  {
  }

  lemma StartsAreNotNegative(cal: Calendar, i: TimeInterval)
    requires IsWellFormed(cal) && i in cal
    ensures 0 <= i.start <= i.end
  {
    assert 0 < |cal| && cal[0].start == NextStart(cal, 0);
    var k :| 0 <= k < |cal| && cal[k] == i;
    if k > 0 { StartsFollow(cal, 0, k); }
  }

  lemma OldestAgain(cal: Calendar, r: GcRun, r': GcRun, j: TimeInterval, b: Backup, day: int)
    requires IsWellFormed(cal) && IsGcRun(cal, r) && IsGcRun(cal, r') && Continues(r, r') && j in cal && j.mode == OLDEST
    requires IsTheOldest(r, j, b, day) && (forall x :: x in r'.clock ==> day <= Day(x)) && j.start <= day - Day(b.start)
    requires forall k :: 0 <= k < |r'.backups| && r'.backups[k] == b ==> Day(r'.clock[k]) - Day(b.start) <= j.end
    ensures IsTheOldest(r', j, b, day)
  {
    var i, at := RetainedWasKept(cal, r.backups, r.clock, r.removed, r.retained, b);
    var k :| 0 <= k < |r'.backups| && r'.backups[k] == b;
    assert r'.clock[k] in r'.clock && IsReadInAge(r'.backups, r'.clock, k, j, b);
    StillTheOldest(cal, r, r', j, b, day);
    KeptIsRetained(cal, r'.backups, r'.clock, r'.removed, r'.retained, j, b);
    forall c | c in r'.retained ensures c == b || c.start > b.start || day - Day(c.start) > j.end {
      var i', k' := RetainedWasKept(cal, r'.backups, r'.clock, r'.removed, r'.retained, c);
      assert c in r'.backups;
    }
  }

  lemma StillTheOldest(cal: Calendar, r: GcRun, r': GcRun, j: TimeInterval, b: Backup, day: int)
    requires IsWellFormed(cal) && IsGcRun(cal, r') && Continues(r, r') && j in cal && j.mode == OLDEST && b in r.backups
    requires IsTheOldest(r, j, b, day) && (forall x :: x in r'.clock ==> day <= Day(x))
    requires exists k :: IsReadInAge(r'.backups, r'.clock, k, j, b)
    ensures Kept(j, Grouped(cal, r'.backups, r'.clock, j)) == [b]
  {
    var g := Grouped(cal, r'.backups, r'.clock, j);
    GroupMembers(cal, r'.backups, r'.clock, j, b);
    var e := g[OldestIndex(g)];
    assert e in g && e.start <= b.start;
    GroupMembers(cal, r'.backups, r'.clock, j, e);
    var k :| IsReadInAge(r'.backups, r'.clock, k, j, e);
    assert e in r'.backups && r'.clock[k] in r'.clock;
  }

  /** A backup that was kept as the oldest of its interval by the first run is kept by every later run as long as it is not
      too old, if the readings of the first run meet the condition. */
  lemma {:induction false} OldestStays(cal: Calendar, runs: seq<GcRun>, n: nat, j: TimeInterval, b: Backup)
    requires IsWellFormed(cal) && IsHistory(cal, runs) && n < |runs| && j in cal && j.mode == OLDEST
    requires runs[0].clock != [] && IsRising(runs[0].clock) && AvoidsMidnight(runs[0].clock, j)
    requires KeepsOldest(cal, runs[0], j, b) && IsNotTooOld(runs, n, j, b)
    ensures IsTheOldest(runs[n], j, b, LastDay(runs[0].clock))
  {
    OldestAtFirst(cal, runs[0], j, b);
    if n > 0 {
      OldestStays(cal, runs, n - 1, j, b);
      var last := runs[0].clock[|runs[0].clock| - 1];
      forall x | x in runs[n].clock ensures Day(last) <= Day(x) {
        assert IsNotBefore(runs[n].clock, runs[0].clock) && last in runs[0].clock;
        DaysAreOrdered(last, x);
      }
      OldestAgain(cal, runs[n - 1], runs[n], j, b, Day(last));
    }
  }

  /** Whatever the backups are: what a run with these readings keeps as the oldest of the interval stays. */
  ghost predicate Stays(cal: Calendar, j: TimeInterval, clock: seq<Moment>) {
    forall runs: seq<GcRun>, n: nat, b: Backup ::
      IsHistory(cal, runs) && n < |runs| && runs[0].clock == clock && KeepsOldest(cal, runs[0], j, b) && IsNotTooOld(runs, n, j, b) ==>
        b in runs[n].retained
  }

  /** Over any history of runs the oldest backup of an interval stays as long as its age is in the interval, exactly if the
      run that kept it did not read the clock on both sides of a midnight, but for readings that lie further apart than the
      interval reaches back. */
  lemma OldestStaysIff(cal: Calendar, j: TimeInterval, clock: seq<Moment>)
    requires IsWellFormed(cal) && j in cal && j.mode == OLDEST && clock != [] && IsRising(clock)
    ensures Stays(cal, j, clock) <==> AvoidsMidnight(clock, j)
  {
    if AvoidsMidnight(clock, j) {
      forall runs: seq<GcRun>, n: nat, b: Backup
        | IsHistory(cal, runs) && n < |runs| && runs[0].clock == clock && KeepsOldest(cal, runs[0], j, b) && IsNotTooOld(runs, n, j, b)
        ensures b in runs[n].retained
      {
        OldestStays(cal, runs, n, j, b);
      }
    } else {
      StartsAreNotNegative(cal, j);
      var k :| 0 <= k < |clock| && Day(clock[k]) != LastDay(clock) && LastDay(clock) - Day(clock[k]) <= j.end;
      var runs, b := OldestIsLost(cal, j, clock, k);
      LossIsNoStay(cal, j, clock, runs, b);
    }
  }

  lemma LossIsNoStay(cal: Calendar, j: TimeInterval, clock: seq<Moment>, runs: seq<GcRun>, b: Backup)
    requires |runs| == 2 && IsHistory(cal, runs) && runs[0].clock == clock && KeepsOldest(cal, runs[0], j, b)
    requires IsNotTooOld(runs, 1, j, b) && b !in runs[1].retained
    ensures !Stays(cal, j, clock)
  {
    assert !(IsHistory(cal, runs) && KeepsOldest(cal, runs[0], j, b) && IsNotTooOld(runs, 1, j, b) ==> b in runs[1].retained);
  }

  // ---- the concrete calendar

  const SEVEN_DAYS := NewTimeInterval("sevenDays", 0, 7, ALL)
  const THIRTY_DAYS := NewTimeInterval("thirtyDays", 8, 30, OLDEST)
  const NINETY_DAYS := NewTimeInterval("ninetyDays", 31, 90, OLDEST)
  const HALF_YEAR := NewTimeInterval("oneHundredEightyDays", 91, 180, OLDEST)
  const ONE_YEAR := NewTimeInterval("threeHundredSixtyDays", 181, 360, OLDEST)

  const YEAR_CALENDAR: Calendar := [SEVEN_DAYS, THIRTY_DAYS, NINETY_DAYS, HALF_YEAR, ONE_YEAR]

  lemma YearCalendarIsWellFormed()
    ensures IsWellFormed(YEAR_CALENDAR)
  {
    assert NextStart(YEAR_CALENDAR, 1) == 8 && NextStart(YEAR_CALENDAR, 2) == 31;
    assert NextStart(YEAR_CALENDAR, 3) == 91 && NextStart(YEAR_CALENDAR, 4) == 181;
  }

  /** The intervals of the walk other than the one given. */
  function Others(order: seq<TimeInterval>, week: TimeInterval): set<TimeInterval> { set i | i in order && i != week }

  lemma {:induction false} OneForEachOther(order: seq<TimeInterval>, m: Mappings, week: TimeInterval)
    requires IsUnique(order) && forall i :: i in order && i != week ==> i.mode == OLDEST
    ensures |AllKept(order, m)| <= (if week in order then |Kept(week, At(m, week))| else 0) + |Others(order, week)|
  {
    if order != [] {
      var init, last := order[..|order| - 1], order[|order| - 1];
      assert order == init + [last] && last !in init;
      OneForEachOther(init, m, week);
      if last == week {
        assert Others(order, week) == Others(init, week);
      } else {
        assert Others(order, week) == Others(init, week) + {last};
      }
    }
  }

  lemma SubsetIsNotLarger(a: set<TimeInterval>, b: set<TimeInterval>)
    requires a <= b
    ensures |a| <= |b|
  {
    assert b == a + (b - a);
  }

  lemma OthersOfYear(order: seq<TimeInterval>)
    requires forall i :: i in order ==> i in YEAR_CALENDAR
    ensures |Others(order, SEVEN_DAYS)| <= 4 && forall i :: i in order && i != SEVEN_DAYS ==> i.mode == OLDEST
  {
    var others := {THIRTY_DAYS, NINETY_DAYS, HALF_YEAR, ONE_YEAR};
    forall i | i in order && i != SEVEN_DAYS ensures i in others {
      var k :| 0 <= k < 5 && YEAR_CALENDAR[k] == i;
    }
    SubsetIsNotLarger(Others(order, SEVEN_DAYS), others);
  }

  lemma WalkOfYear(m: Mappings, order: seq<TimeInterval>, backups: seq<Backup>, clock: seq<Moment>)
    requires |clock| >= |backups| && Maps(m, YEAR_CALENDAR, backups, clock) && IsWalked(order, m.Keys)
    ensures forall i :: i in order ==> i in YEAR_CALENDAR
    ensures At(m, SEVEN_DAYS) == Grouped(YEAR_CALENDAR, backups, clock, SEVEN_DAYS)
  {
    forall i | i in order ensures i in YEAR_CALENDAR {
      assert At(m, i) == Grouped(YEAR_CALENDAR, backups, clock, i);
      GroupsAreOfCalendar(YEAR_CALENDAR, backups, clock, i);
    }
  }

  /** Besides the backups of the last seven days the strategy keeps at most four, whenever the clock is read. */
  lemma FourBeyondTheWeek(backups: seq<Backup>, clock: seq<Moment>, removed: seq<Backup>, retained: seq<Backup>)
    requires |clock| >= |backups| && IsOutcome(YEAR_CALENDAR, backups, clock, removed, retained)
    ensures |retained| <= |Grouped(YEAR_CALENDAR, backups, clock, SEVEN_DAYS)| + 4
  {
    var m, order :| Results(m, order, YEAR_CALENDAR, backups, clock, removed, retained);
    WalkOfYear(m, order, backups, clock);
    OthersOfYear(order);
    OneForEachOther(order, m, SEVEN_DAYS);
  }

  // ---- a run over midnight

  /** The backups that lose one: one that is of the interval's age only after midnight, one a moment younger that is looked at
      after midnight, and others that no interval gets. */
  function Losing(n: nat, k: nat, earlier: Backup, later: Backup, other: Backup): (backups: seq<Backup>)
    requires k < n - 1
    ensures |backups| == n && backups[k] == earlier && backups[n - 1] == later
    ensures forall l :: 0 <= l < n && l != k && l != n - 1 ==> backups[l] == other
  {
    seq(n, l => if l == k then earlier else if l == n - 1 then later else other)
  }

  /** Some interval before this one has that age. */
  lemma {:induction false} YoungerPlace(cal: Calendar, q: nat, age: int) returns (i: TimeInterval)
    requires IsWellFormed(cal) && q < |cal| && 0 <= age < cal[q].start
    ensures i in cal && i.start <= age <= i.end
  {
    assert cal[q].start == NextStart(cal, q);
    i := cal[q - 1];
    if age < i.start { i := YoungerPlace(cal, q - 1, age); }
  }

  lemma {:induction false} AllAreThis(g: seq<Backup>, i: TimeInterval, c: Backup)
    requires g != [] && (forall x :: x in g ==> x == c) && IsValidMode(i.mode)
    ensures c in Kept(i, g)
  {
    assert g[0] in g && g[OldestIndex(g)] in g;
  }

  /** An interval that only gets this one backup keeps it. */
  lemma OnlyOneIsKept(cal: Calendar, backups: seq<Backup>, clock: seq<Moment>, i: TimeInterval, c: Backup, at: nat)
    requires IsWellFormed(cal) && i in cal && |clock| >= |backups| && IsReadInAge(backups, clock, at, i, c)
    requires forall k :: 0 <= k < |backups| && InAge(i, backups[k], Day(clock[k])) ==> backups[k] == c
    ensures c in Kept(i, Grouped(cal, backups, clock, i))
  {
    var g := Grouped(cal, backups, clock, i);
    GroupMembers(cal, backups, clock, i, c);
    forall x | x in g ensures x == c { GroupMembers(cal, backups, clock, i, x); }
    AllAreThis(g, i, c);
  }

  /** Where a backup is looked at that is too young for the interval, and a younger one on the last day that is not. */
  lemma BothAreKept(cal: Calendar, j: TimeInterval, clock: seq<Moment>, k: nat, earlier: Backup, later: Backup, other: Backup)
    requires IsWellFormed(cal) && j in cal && k < |clock| - 1 && Day(other.start) > LastDay(clock) && IsRising(clock)
    requires 0 <= Day(clock[k]) - Day(earlier.start) < j.start && InAge(j, later, LastDay(clock)) && Day(earlier.start) == Day(later.start)
    ensures later in Kept(j, Grouped(cal, Losing(|clock|, k, earlier, later, other), clock, j))
    ensures exists i :: i in cal && earlier in Kept(i, Grouped(cal, Losing(|clock|, k, earlier, later, other), clock, i))
  {
    var backups := Losing(|clock|, k, earlier, later, other);
    forall l, i | 0 <= l < |clock| && i in cal && l != k && l != |clock| - 1 ensures !InAge(i, backups[l], Day(clock[l])) {
      StartsAreNotNegative(cal, i);
      DaysAreOrdered(clock[l], clock[|clock| - 1]);
    }
    assert IsReadInAge(backups, clock, |clock| - 1, j, later);
    OnlyOneIsKept(cal, backups, clock, j, later, |clock| - 1);
    var q :| 0 <= q < |cal| && cal[q] == j;
    var i := YoungerPlace(cal, q, Day(clock[k]) - Day(earlier.start));
    assert IsReadInAge(backups, clock, k, i, earlier);
    if InAge(i, later, LastDay(clock)) { OneInterval(cal, i, j, later, LastDay(clock)); }
    OnlyOneIsKept(cal, backups, clock, i, earlier, k);
  }

  /** Of two backups in an interval of mode OLDEST the later one goes. */
  lemma LaterGoes(cal: Calendar, r: GcRun, day: int, j: TimeInterval, earlier: Backup, later: Backup)
    requires IsWellFormed(cal) && IsGcRun(cal, r) && OnOneDay(r.clock, |r.backups|, day) && j in cal && j.mode == OLDEST
    requires earlier in r.backups && InAge(j, earlier, day) && InAge(j, later, day) && earlier.start < later.start
    ensures later !in r.retained
  {
    var g := Filtered(r.backups, j, day);
    KeptOnDay(cal, r.backups, r.clock, day, r.removed, r.retained, j);
    assert earlier in g;
    assert later in r.retained ==> later in Filtered(r.retained, j, day);
  }

  /** Two backups of one day, the earlier one looked at before midnight and still too young, the later one after it: the later
      one is kept as the oldest. The next run sees both in the interval and removes it. */
  lemma LosingRuns(cal: Calendar, j: TimeInterval, clock: seq<Moment>, k: nat, earlier: Backup, later: Backup, other: Backup)
    returns (first: GcRun, second: GcRun)
    requires IsWellFormed(cal) && j in cal && j.mode == OLDEST && k < |clock| - 1 && Day(other.start) > LastDay(clock) && IsRising(clock)
    requires 0 <= Day(clock[k]) - Day(earlier.start) < j.start && InAge(j, later, LastDay(clock))
    requires earlier.start < later.start && Day(earlier.start) == Day(later.start)
    ensures IsGcRun(cal, first) && first.backups == Losing(|clock|, k, earlier, later, other) && first.clock == clock
    ensures KeepsOldest(cal, first, j, later) && later in first.retained
    ensures IsGcRun(cal, second) && second.backups == first.retained && later !in second.retained
    ensures forall x :: x in second.clock ==> x == clock[|clock| - 1]
  {
    var backups := Losing(|clock|, k, earlier, later, other);
    var removed, retained := OutcomeExists(cal, backups, clock);
    first := GcRun(backups, clock, removed, retained);
    BothAreKept(cal, j, clock, k, earlier, later, other);
    var i :| i in cal && earlier in Kept(i, Grouped(cal, backups, clock, i));
    KeptIsRetained(cal, backups, clock, removed, retained, i, earlier);
    KeptIsRetained(cal, backups, clock, removed, retained, j, later);
    second := SecondRun(cal, j, retained, clock[|clock| - 1], earlier, later);
  }

  function Always(n: nat, now: Moment): (clock: seq<Moment>)
    ensures |clock| == n && forall k :: 0 <= k < n ==> clock[k] == now
  {
    seq(n, k => now)
  }

  lemma SecondRun(cal: Calendar, j: TimeInterval, backups: seq<Backup>, now: Moment, earlier: Backup, later: Backup) returns (r: GcRun)
    requires IsWellFormed(cal) && j in cal && j.mode == OLDEST && earlier in backups && earlier.start < later.start
    requires InAge(j, earlier, Day(now)) && InAge(j, later, Day(now))
    ensures IsGcRun(cal, r) && r.backups == backups && later !in r.retained && forall x :: x in r.clock ==> x == now
  {
    var clock := Always(|backups|, now);
    var removed, retained := OutcomeExists(cal, backups, clock);
    r := GcRun(backups, clock, removed, retained);
    LaterGoes(cal, r, Day(now), j, earlier, later);
  }

  lemma OldestIsLost(cal: Calendar, j: TimeInterval, clock: seq<Moment>, k: nat) returns (runs: seq<GcRun>, b: Backup)
    requires IsWellFormed(cal) && j in cal && j.mode == OLDEST && j.start > 0 && IsRising(clock)
    requires k < |clock| && Day(clock[k]) != LastDay(clock) && LastDay(clock) - Day(clock[k]) <= j.end
    ensures |runs| == 2 && IsHistory(cal, runs) && runs[0].clock == clock && KeepsOldest(cal, runs[0], j, b)
    ensures IsNotTooOld(runs, 1, j, b) && b !in runs[1].retained
  {
    StartsAreNotNegative(cal, j);
    DaysAreOrdered(clock[k], clock[|clock| - 1]);
    var earlier, later, other := LosingBackups(LastDay(clock) - Max(j.start, LastDay(clock) - Day(clock[k])), LastDay(clock));
    var first, second := LosingRuns(cal, j, clock, k, earlier, later, other);
    runs, b := [first, second], later;
    LosingHistory(cal, j, first, second, later, clock[|clock| - 1]);
  }

  lemma LosingHistory(cal: Calendar, j: TimeInterval, first: GcRun, second: GcRun, b: Backup, last: Moment)
    requires IsGcRun(cal, first) && IsGcRun(cal, second) && second.backups == first.retained && InAge(j, b, Day(last))
    requires (forall x :: x in first.clock ==> x <= last) && forall x :: x in second.clock ==> x == last
    ensures IsHistory(cal, [first, second]) && IsNotTooOld([first, second], 1, j, b)
  {
    NotTooOldUntil(first, j, b, last);
    NotTooOldUntil(second, j, b, last);
    PairNotTooOld(first, second, j, b);
    PairIsHistory(cal, first, second);
  }

  lemma PairIsHistory(cal: Calendar, first: GcRun, second: GcRun)
    requires IsGcRun(cal, first) && IsGcRun(cal, second) && Continues(first, second) && IsNotBefore(second.clock, first.clock)
    ensures IsHistory(cal, [first, second])
  {
  }

  lemma PairNotTooOld(first: GcRun, second: GcRun, j: TimeInterval, b: Backup)
    requires |first.clock| == |first.backups| && |second.clock| == |second.backups|
    requires forall k :: 0 <= k < |first.backups| && first.backups[k] == b ==> Day(first.clock[k]) - Day(b.start) <= j.end
    requires forall k :: 0 <= k < |second.backups| && second.backups[k] == b ==> Day(second.clock[k]) - Day(b.start) <= j.end
    ensures IsNotTooOld([first, second], 1, j, b)
  {
  }

  lemma NotTooOldUntil(r: GcRun, j: TimeInterval, b: Backup, last: Moment)
    requires |r.clock| == |r.backups| && (forall x :: x in r.clock ==> x <= last) && InAge(j, b, Day(last))
    ensures forall k :: 0 <= k < |r.backups| && r.backups[k] == b ==> Day(r.clock[k]) - Day(b.start) <= j.end
  {
    forall k | 0 <= k < |r.backups| && r.backups[k] == b ensures Day(r.clock[k]) - Day(b.start) <= j.end {
      assert r.clock[k] in r.clock;
      DaysAreOrdered(r.clock[k], last);
    }
  }

  /** Two backups of this day, and one after the last day. */
  lemma LosingBackups(day: int, last: int) returns (earlier: Backup, later: Backup, other: Backup)
    ensures Day(earlier.start) == day && Day(later.start) == day && earlier.start < later.start && Day(other.start) > last
  {
    earlier, later, other := Backup("earlier", DAY * day), Backup("later", DAY * day + 1), Backup("other", DAY * (last + 1));
  }

  /** It takes no more than the concrete calendar and two backups of one day: the run keeps the later one as the oldest of the
      thirty days, and the next one removes it although it is still in the thirty days. */
  lemma MidnightHappens()
    ensures IsWellFormed(YEAR_CALENDAR)
    ensures exists earlier: Backup, later: Backup, first: GcRun, second: GcRun ::
              IsGcRun(YEAR_CALENDAR, first) && first.backups == [earlier, later] && first.clock == [DAY * 8 - 1, DAY * 8]
              && later in first.retained && InAge(THIRTY_DAYS, later, Day(DAY * 8))
              && IsGcRun(YEAR_CALENDAR, second) && second.backups == first.retained && later !in second.retained
              && forall x :: x in second.clock ==> x == DAY * 8
  {
    YearCalendarIsWellFormed();
    var clock := [DAY * 8 - 1, DAY * 8];
    var earlier, later, other := Backup("earlier", 0), Backup("later", 1), Backup("other", DAY * 9);
    assert YEAR_CALENDAR[1] == THIRTY_DAYS;
    var first, second := LosingRuns(YEAR_CALENDAR, THIRTY_DAYS, clock, 0, earlier, later, other);
    assert first.backups == [earlier, later];
  }
}
