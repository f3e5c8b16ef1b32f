/** The monthly partitions of the run history. Times are nanoseconds since the start of the year 0, UTC. */
module Partitions {
  import opened Bytes

  const DAY: nat := 86_400_000_000_000

  // ----- The calendar -----------------------------------------------------------------

  predicate IsLeap(year: int) {
    year % 4 == 0 && (year % 100 != 0 || year % 400 == 0)
  }

  /** The length of a month, January being 0. */
  function DaysIn(year: int, month: nat): nat
    requires month < 12
  {
    if month == 1 then if IsLeap(year) then 29 else 28
    else if month in {3, 5, 8, 10} then 30
    else 31
  }

  /** Months are numbered through all years, the first of the year 0 being 0. */
  function MonthLength(m: int): (d: nat)
    ensures d > DAY
  {
    DaysIn(m / 12, m % 12) * DAY
  }

  /** The instant that a month begins. */
  function MonthStart(m: int): int
    decreases if m < 0 then -m else m
  {
    if m == 0 then 0
    else if m > 0 then MonthStart(m - 1) + MonthLength(m - 1)
    else MonthStart(m + 1) - MonthLength(m)
  }

  /** A month ends where the next begins, December as well as any other. */
  lemma NextStart(m: int)
    ensures MonthStart(m + 1) == MonthStart(m) + MonthLength(m)
  {}

  lemma {:induction false} MonthsAscend(m: int, n: int)
    requires m < n
    ensures MonthStart(m) + MonthLength(m) <= MonthStart(n)
    decreases n - m
  {
    NextStart(n - 1);
    if m < n - 1 {
      MonthsAscend(m, n - 1);
    }
  }

  lemma {:induction false} EarlyEnough(m: int)
    requires m <= 0
    ensures MonthStart(m) <= m * DAY
    decreases -m
  {
    if m < 0 {
      EarlyEnough(m + 1);
    }
  }

  // ----- The Gregorian reckoning ------------------------------------------------------

  /** Days from the start of the year 0 to the start of a year. */
  function DaysBeforeYear(year: int): int {
    365 * year + (year + 3) / 4 - (year + 99) / 100 + (year + 399) / 400
  }

  lemma YearLength(year: int)
    ensures DaysBeforeYear(year + 1) - DaysBeforeYear(year) == if IsLeap(year) then 366 else 365
  {
    FourthYears(year);
    HundredthYears(year);
    FourHundredthYears(year);
    CenturyRules(year);
  }

  lemma CenturyRules(year: int)
    ensures year % 400 == 0 ==> year % 100 == 0
    ensures year % 100 == 0 ==> year % 4 == 0
  {}

  lemma FourthYears(year: int)
    ensures (year + 4) / 4 - (year + 3) / 4 == if year % 4 == 0 then 1 else 0
  {}

  lemma HundredthYears(year: int)
    ensures (year + 100) / 100 - (year + 99) / 100 == if year % 100 == 0 then 1 else 0
  {}

  lemma FourHundredthYears(year: int)
    ensures (year + 400) / 400 - (year + 399) / 400 == if year % 400 == 0 then 1 else 0
  {}

  /** Days of a year before its month. */
  function DaysBeforeMonth(year: int, month: nat): nat
    requires month < 12
  {
    [0, 31, 59, 90, 120, 151, 181, 212, 243, 273, 304, 334][month] + if IsLeap(year) && month >= 2 then 1 else 0
  }

  function DaysBefore(m: int): int {
    DaysBeforeYear(m / 12) + DaysBeforeMonth(m / 12, m % 12)
  }

  lemma DaysBeforeNext(m: int)
    ensures DaysBefore(m + 1) == DaysBefore(m) + DaysIn(m / 12, m % 12)
  {
    var year, month := m / 12, m % 12;
    YearLength(year);
    if month == 11 {
      assert (m + 1) / 12 == year + 1 && (m + 1) % 12 == 0;
    } else {
      assert (m + 1) / 12 == year && (m + 1) % 12 == month + 1;
    }
  }

  predicate IsGregorian(m: int) {
    MonthStart(m) == DaysBefore(m) * DAY
  }

  lemma GregorianNext(m: int, next: int)
    requires next == m + 1
    ensures IsGregorian(m) <==> IsGregorian(next)
  {
    NextStart(m);
    DaysBeforeNext(m);
  }

  lemma {:induction false} AllGregorian(m: int)
    ensures IsGregorian(m)
    decreases if m < 0 then -m else m
  {
    if m > 0 {
      AllGregorian(m - 1);
      GregorianNext(m - 1, m);
    } else if m < 0 {
      AllGregorian(m + 1);
      GregorianNext(m, m + 1);
    }
  }

  /** Month after month, leap years included, comes to what the closed formula says. */
  lemma MonthStartIsGregorian(m: int)
    ensures MonthStart(m) == DaysBefore(m) * 86_400_000_000_000
  {
    AllGregorian(m);
  }

  // ----- The month of an instant ------------------------------------------------------

  /** Looks for the month of an instant, from a month that has begun by then. */
  function Search(t: int, m: int): (r: int)
    requires MonthStart(m) <= t
    ensures MonthStart(r) <= t < MonthStart(r) + MonthLength(r)
    decreases t - MonthStart(m)
  {
    NextStart(m);
    if t < MonthStart(m) + MonthLength(m) then m else Search(t, m + 1)
  }

  function MonthOf(t: int): (m: int)
    ensures MonthStart(m) <= t < MonthStart(m) + MonthLength(m)
  {
    if t >= 0 then Search(t, 0)
    else
      EarlyEnough(t / DAY);
      Search(t, t / DAY)
  }

  /** An instant is in one month only. */
  lemma MonthUnique(t: int, m: int)
    requires MonthStart(m) <= t < MonthStart(m) + MonthLength(m)
    ensures MonthOf(t) == m
  {
    var r := MonthOf(t);
    if r < m {
      MonthsAscend(r, m);
    } else if m < r {
      MonthsAscend(m, r);
    }
  }

  lemma MonthOfAscends(t: int, u: int)
    requires t <= u
    ensures MonthOf(t) <= MonthOf(u)
  {
    if MonthOf(u) < MonthOf(t) {
      MonthsAscend(MonthOf(u), MonthOf(t));
    }
  }

  // ----- Partitions -------------------------------------------------------------------

  /** The partition of a month, which names it, holds the rows from start up to, not including, end. */
  datatype Partition = Partition(month: int, start: int, end: int)

  function OfMonth(m: int): Partition {
    Partition(m, MonthStart(m), MonthStart(m) + MonthLength(m))
  }

  predicate Holds(p: Partition, t: int) {
    p.start <= t < p.end
  }

  function PartitionForTime(t: int): Partition {
    OfMonth(MonthOf(t))
  }

  /** The partition for a time is the one month's that holds it. */
  lemma PartitionForTimeHolds(t: int, m: int)
    ensures Holds(OfMonth(m), t) <==> OfMonth(m) == PartitionForTime(t)
  {
    if Holds(OfMonth(m), t) {
      MonthUnique(t, m);
    }
  }

  /** A month on, from the first of a month. */
  function NextMonth(start: int): int {
    MonthStart(MonthOf(start) + 1)
  }

  function NotNegative(d: int): nat {
    if d < 0 then 0 else d
  }

  /** The months whose partitions must exist for the window from now - retention to now + lookahead. */
  function FirstMonth(now: int, retention: int): int {
    MonthOf(now - NotNegative(retention))
  }

  function LastMonth(now: int, lookahead: int): int {
    MonthOf(now + NotNegative(lookahead))
  }

  lemma StartsCompare(m: int, l: int)
    ensures MonthStart(m) <= MonthStart(l) <==> m <= l
  {
    if m < l {
      MonthsAscend(m, l);
    } else if l < m {
      MonthsAscend(l, m);
    }
  }

  /** The partition that begins at the first of a month. */
  function Monthly(start: int): Partition {
    PartitionForTime(start).(start := start, end := NextMonth(start))
  }

  lemma FirstOfMonth(m: int)
    ensures Monthly(MonthStart(m)) == OfMonth(m)
    ensures NextMonth(MonthStart(m)) == MonthStart(m + 1)
  {
    MonthUnique(MonthStart(m), m);
    NextStart(m);
  }

  /** The partitions of the months from f up to, not including, m. */
  ghost predicate AreMonths(out: seq<Partition>, f: int, m: int) {
    |out| == m - f && forall i {:trigger out[i]} :: 0 <= i < |out| ==> out[i] == OfMonth(f + i)
  }

  method PartitionsToCreate(now: int, retention: int, lookahead: int) returns (out: seq<Partition>)
    ensures IsWindow(out, now, retention, lookahead)
  {
    var back, ahead := NotNegative(retention), NotNegative(lookahead);
    MonthOfAscends(now - back, now + ahead);
    ghost var f, l := FirstMonth(now, retention), LastMonth(now, lookahead);
    var first, last := PartitionForTime(now - back).start, PartitionForTime(now + ahead).start;
    out := MonthsFrom(first, last, f, l);
  }

  /** The loop over the months. */
  method MonthsFrom(first: int, last: int, ghost f: int, ghost l: int) returns (out: seq<Partition>)
    requires f <= l && first == MonthStart(f) && last == MonthStart(l)
    ensures AreMonths(out, f, l + 1)
  {
    ghost var m := f;
    var month := first;
    out := [];
    while month <= last
      invariant f <= m <= l + 1 && month == MonthStart(m)
      invariant AreMonths(out, f, m)
      decreases l - m
    {
      StartsCompare(m, l);
      FirstOfMonth(m);
      out := out + [Monthly(month)];
      month := NextMonth(month);
      m := m + 1;
    }
    StartsCompare(m, l);
  }

  /** What PartitionsToCreate promises of its answer: the months of the window, in order. */
  ghost predicate IsWindow(out: seq<Partition>, now: int, retention: int, lookahead: int) {
    AreMonths(out, FirstMonth(now, retention), LastMonth(now, lookahead) + 1)
  }

  /** The partitions follow on from one another: sorted, without a gap, none overlapping. */
  lemma WindowIsGapless(out: seq<Partition>, now: int, retention: int, lookahead: int)
    requires IsWindow(out, now, retention, lookahead)
    ensures out != []
    ensures forall i :: 0 <= i < |out| ==> out[i].start < out[i].end
    ensures forall i :: 0 <= i < |out| - 1 ==> out[i].end == out[i + 1].start
    ensures forall i, j :: 0 <= i < j < |out| ==> out[i].end <= out[j].start
  {
    MonthOfAscends(now - NotNegative(retention), now + NotNegative(lookahead));
    var f := FirstMonth(now, retention);
    forall i | 0 <= i < |out| - 1 ensures out[i].end == out[i + 1].start {
      NextStart(f + i);
    }
    forall i, j | 0 <= i < j < |out| ensures out[i].end <= out[j].start {
      MonthsAscend(f + i, f + j);
    }
  }

  /** From now - retention to now + lookahead, either of them being nothing if it is negative. */
  predicate InWindow(now: int, retention: int, lookahead: int, t: int) {
    && (if retention < 0 then now <= t else now - retention <= t)
    && (if lookahead < 0 then t <= now else t <= now + lookahead)
  }

  /** Every instant of the window is in exactly one of them, and that one is the partition for its time. */
  lemma WindowCovers(out: seq<Partition>, now: int, retention: int, lookahead: int, t: int)
    requires IsWindow(out, now, retention, lookahead)
    requires InWindow(now, retention, lookahead, t)
    ensures PartitionForTime(t) in out
    ensures forall i :: 0 <= i < |out| ==> (Holds(out[i], t) <==> out[i] == PartitionForTime(t))
    ensures forall i, j :: 0 <= i < j < |out| ==> out[i] != out[j]
  {
    var f := FirstMonth(now, retention);
    InItsMonths(now, retention, lookahead, t);
    assert out[MonthOf(t) - f] == PartitionForTime(t);
    forall i | 0 <= i < |out| ensures Holds(out[i], t) <==> out[i] == PartitionForTime(t) {
      PartitionForTimeHolds(t, f + i);
    }
    WindowIsGapless(out, now, retention, lookahead);
  }

  lemma InItsMonths(now: int, retention: int, lookahead: int, t: int)
    requires InWindow(now, retention, lookahead, t)
    ensures FirstMonth(now, retention) <= MonthOf(t) <= LastMonth(now, lookahead)
  {
    MonthOfAscends(now - NotNegative(retention), t);
    MonthOfAscends(t, now + NotNegative(lookahead));
  }

  /** There is none too many: each of them holds an instant of the window. */
  lemma WindowIsTight(out: seq<Partition>, now: int, retention: int, lookahead: int, i: nat)
    requires IsWindow(out, now, retention, lookahead) && i < |out|
    ensures exists t :: InWindow(now, retention, lookahead, t) && Holds(out[i], t)
  {
    var first, last := now - NotNegative(retention), now + NotNegative(lookahead);
    var f := FirstMonth(now, retention);
    assert out[i] == OfMonth(f + i);
    if i == 0 {
      assert InWindow(now, retention, lookahead, first) && Holds(out[i], first);
    } else {
      MonthsAscend(f, f + i);
      StartsCompare(f + i, MonthOf(last));
      assert InWindow(now, retention, lookahead, out[i].start) && Holds(out[i], out[i].start);
    }
  }

  // ----- Dropping ---------------------------------------------------------------------

  function Droppable(existing: seq<Partition>, cutoff: int): seq<Partition> {
    if existing == [] then []
    else
      var n := |existing| - 1;
      Droppable(existing[..n], cutoff) + if existing[n].end <= cutoff then [existing[n]] else []
  }

  method PartitionsToDrop(existing: seq<Partition>, now: int, retention: int) returns (out: seq<Partition>)
    ensures out == Droppable(existing, now - retention)
  {
    var cutoff := now - retention;
    out := [];
    for i := 0 to |existing|
      invariant out == Droppable(existing[..i], cutoff)
    {
      assert existing[..i + 1][..i] == existing[..i];
      if existing[i].end <= cutoff {
        out := out + [existing[i]];
      }
    }
    assert existing[..|existing|] == existing;
  }

  /** Dropped are the existing partitions that hold no instant from the cutoff on, and only those. */
  lemma {:induction false} DroppableAre(existing: seq<Partition>, cutoff: int, p: Partition)
    requires p.start < p.end
    ensures p in Droppable(existing, cutoff) <==> p in existing && forall t :: Holds(p, t) ==> t < cutoff
  {
    assert Holds(p, p.end - 1);
    DroppableEnd(existing, cutoff, p);
  }

  lemma {:induction false} DroppableEnd(existing: seq<Partition>, cutoff: int, p: Partition)
    ensures p in Droppable(existing, cutoff) <==> p in existing && p.end <= cutoff
  {
    if existing != [] {
      var n := |existing| - 1;
      DroppableEnd(existing[..n], cutoff, p);
      assert existing == existing[..n] + [existing[n]];
    }
  }

  /** Whether a partition is dropped depends on itself alone, and the dropped ones come in the order of the existing ones. */
  lemma {:induction false} DroppableOneByOne(a: seq<Partition>, p: Partition, b: seq<Partition>, cutoff: int)
    ensures Droppable(a + [p] + b, cutoff) == Droppable(a, cutoff) + (if p.end <= cutoff then [p] else []) + Droppable(b, cutoff)
    decreases |b|
  {
    var dropped := Droppable(a, cutoff) + if p.end <= cutoff then [p] else [];
    if b == [] {
      ConcatEmpty(a + [p]);
      ConcatEmpty(dropped);
      assert (a + [p])[..|a|] == a;
    } else {
      var n := |b| - 1;
      DroppableOneByOne(a, p, b[..n], cutoff);
      var all := a + [p] + b;
      assert all[..|all| - 1] == a + [p] + b[..n] && all[|all| - 1] == b[n];
      ConcatAssoc(dropped, Droppable(b[..n], cutoff), if b[n].end <= cutoff then [b[n]] else []);
    }
  }

  /** With a retention that is not negative, no partition that the window needs is ever dropped. */
  lemma NeverDropsTheWindow(existing: seq<Partition>, out: seq<Partition>, now: int, retention: int, lookahead: int, t: int, p: Partition)
    requires retention >= 0 && IsWindow(out, now, retention, lookahead)
    requires p in Droppable(existing, now - retention)
    ensures now - retention <= t ==> !Holds(p, t)
    ensures p !in out
  {
    DroppableEnd(existing, now - retention, p);
    if p in out {
      var i :| 0 <= i < |out| && out[i] == p;
      var f := FirstMonth(now, retention);
      if i > 0 {
        MonthsAscend(f, f + i);
      }
    }
  }

  /** A negative retention drops the partition that is being written to, once the cutoff has passed its end. */
  lemma NegativeRetentionDropsThePresent(existing: seq<Partition>, now: int, retention: int)
    requires PartitionForTime(now) in existing
    ensures PartitionForTime(now) in Droppable(existing, now - retention) <==> PartitionForTime(now).end - now <= -retention
    ensures PartitionForTime(now) in Droppable(existing, now - retention) ==> retention < 0
  {
    DroppableEnd(existing, now - retention, PartitionForTime(now));
  }
}
