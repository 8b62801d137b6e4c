/** Billing periods of a contract, and the days they cover (apps/billing/periods.py). */
module Periods {
  import opened Calendar

  datatype BillingPeriod = Monthly | Quarterly | Semiannual | Annual

  function MonthsOf(b: BillingPeriod): (n: nat)
    ensures 1 <= n <= 12
  {
    match b
    case Monthly => 1
    case Quarterly => 3
    case Semiannual => 6
    case Annual => 12
  }

  /** A period from its first to its last billed day, and where it would end if the contract ran on. */
  datatype Period = Period(start: int, end: int, nominalEnd: int, months: nat)

  function NominalDays(p: Period): int {
    p.nominalEnd - p.start + 1
  }

  /** How many days two inclusive ranges share. */
  function OverlapDays(a: int, b: int, c: int, d: int): int {
    Max(0, Min(b, d) - Max(a, c) + 1)
  }

  /** Where the k-th period starts: stepped from the contract's start, never from the period before. */
  function StartOf(start: Day, months: nat, k: nat): int {
    Ordinal(AddMonths(start, k * months))
  }

  type Starts = nat -> int

  function StartsOf(start: Day, months: nat): Starts {
    (k: nat) => StartOf(start, months, k)
  }

  ghost predicate Growing(starts: Starts) {
    forall a: nat, b: nat :: a < b ==> starts(a) < starts(b)
  }

  /** The k-th period: to the eve of the next start, cut at the contract's end. */
  function PeriodAt(starts: Starts, end: int, months: nat, k: nat): Period {
    Period(starts(k), Min(starts(k + 1) - 1, end), starts(k + 1) - 1, months)
  }

  /** These are all the periods of the contract: the next would start after it ends. */
  ghost predicate AllPeriods(starts: Starts, end: int, months: nat, ps: seq<Period>) {
    && (forall k: nat :: k < |ps| ==> ps[k] == PeriodAt(starts, end, months, k) && starts(k) <= end)
    && starts(|ps|) > end
  }

  /** Despite the clamping every period is at least a day long. */
  lemma StartsGrow(start: Day, months: nat, a: nat, b: nat)
    requires months >= 1 && a < b
    ensures StartOf(start, months, a) < StartOf(start, months, b)
  {
    assert b * months - a * months == (b - a) * months;
    assert (b - a) * months >= 1;
    MoreMonthsIsLater(start, a * months, b * months);
  }

  lemma StartsOfGrow(start: Day, months: nat)
    requires months >= 1
    ensures Growing(StartsOf(start, months))
    ensures StartsOf(start, months)(0) == Ordinal(start)
  {
    var starts := StartsOf(start, months);
    forall a: nat, b: nat | a < b
      ensures starts(a) < starts(b)
    {
      StartsGrow(start, months, a, b);
    }
    NoMonths(start);
  }

  /** The periods from the k-th on. */
  function PeriodsFrom(start: Day, end: int, months: nat, k: nat): (ps: seq<Period>)
    requires months >= 1
    ensures forall j :: 0 <= j < |ps| ==> NominalDays(ps[j]) > 0
    decreases end - StartOf(start, months, k)
  {
    if StartOf(start, months, k) > end then []
    else
      StartsGrow(start, months, k, k + 1);
      [PeriodAt(StartsOf(start, months), end, months, k)] + PeriodsFrom(start, end, months, k + 1)
  }

  lemma {:induction false} AllPeriodsFrom(start: Day, end: int, months: nat, k: nat, ps: seq<Period>)
    requires months >= 1 && k <= |ps| && AllPeriods(StartsOf(start, months), end, months, ps)
    ensures PeriodsFrom(start, end, months, k) == ps[k..]
    decreases |ps| - k
  {
    hide StartOf;
    var starts := StartsOf(start, months);
    if k < |ps| {
      BegunBy(starts, end, months, ps, k);
      AllPeriodsFrom(start, end, months, k + 1, ps);
      assert ps[k..] == [ps[k]] + ps[k + 1..];
    }
  }

  /** The first periods of the contract, all begun by its end. */
  ghost predicate FirstPeriods(starts: Starts, end: int, months: nat, ps: seq<Period>) {
    forall k: nat :: k < |ps| ==> ps[k] == PeriodAt(starts, end, months, k) && starts(k) <= end
  }

  lemma OneMore(starts: Starts, end: int, months: nat, ps: seq<Period>)
    requires FirstPeriods(starts, end, months, ps) && starts(|ps|) <= end
    ensures FirstPeriods(starts, end, months, ps + [PeriodAt(starts, end, months, |ps|)])
  {
  }

  method PeriodsOf(start: Day, end: int, billing: BillingPeriod) returns (ps: seq<Period>)
    ensures ps == PeriodsFrom(start, end, MonthsOf(billing), 0)
    ensures AllPeriods(StartsOf(start, MonthsOf(billing)), end, MonthsOf(billing), ps)
  {
    hide StartOf, FirstPeriods;
    var months := MonthsOf(billing);
    ghost var starts := StartsOf(start, months);
    ps := [];
    var index: nat := 0;
    var periodStart := StartOf(start, months, index);
    assert FirstPeriods(starts, end, months, ps) by { NoPeriods(starts, end, months); }
    while periodStart <= end
      invariant index == |ps| && periodStart == starts(index)
      invariant FirstPeriods(starts, end, months, ps)
      decreases end - periodStart
    {
      var next := StartOf(start, months, index + 1);
      StartsGrow(start, months, index, index + 1);
      OneMore(starts, end, months, ps);
      ps := ps + [Period(periodStart, Min(next - 1, end), next - 1, months)];
      index := index + 1;
      periodStart := next;
    }
    TheyAreAll(starts, end, months, ps);
    AllPeriodsFrom(start, end, months, 0, ps);
  }

  lemma NoPeriods(starts: Starts, end: int, months: nat)
    ensures FirstPeriods(starts, end, months, [])
  {
  }

  lemma TheyAreAll(starts: Starts, end: int, months: nat, ps: seq<Period>)
    requires FirstPeriods(starts, end, months, ps) && starts(|ps|) > end
    ensures AllPeriods(starts, end, months, ps)
  {
  }

  // Tiling ----------------------------------------------------------------------------

  lemma PeriodRuns(starts: Starts, end: int, months: nat, ps: seq<Period>, k: nat)
    requires Growing(starts) && AllPeriods(starts, end, months, ps) && k < |ps|
    ensures ps[k].start <= ps[k].end <= ps[k].nominalEnd
    ensures k + 1 < |ps| ==> ps[k].end == ps[k].nominalEnd && ps[k].end + 1 == ps[k + 1].start
    ensures k + 1 == |ps| ==> ps[k].end == end
  {
    assert starts(k) < starts(k + 1);
    assert k + 1 < |ps| ==> starts(k + 1) <= end;
  }

  /** Ranges that follow on: the day after one ends is the day the next starts. */
  ghost predicate Chained(ps: seq<Period>) {
    && (forall k: nat :: k + 1 < |ps| ==> ps[k].end + 1 == ps[k + 1].start)
    && (forall k: nat :: k < |ps| ==> ps[k].start <= ps[k].end)
  }

  /** The periods follow on without a gap, from the contract's first day to its last, and only the last is cut. */
  lemma PeriodsAreConsecutive(starts: Starts, end: int, months: nat, ps: seq<Period>)
    requires Growing(starts) && AllPeriods(starts, end, months, ps)
    ensures starts(0) <= end <==> ps != []
    ensures ps != [] ==> ps[0].start == starts(0) && ps[|ps| - 1].end == end
    ensures Chained(ps)
    ensures forall k: nat :: k + 1 < |ps| ==> ps[k].end == ps[k].nominalEnd
  {
    forall k: nat | k < |ps|
      ensures ps[k].start <= ps[k].end
      ensures k + 1 < |ps| ==> ps[k].end == ps[k].nominalEnd && ps[k].end + 1 == ps[k + 1].start
      ensures k + 1 == |ps| ==> ps[k].end == end
    {
      PeriodRuns(starts, end, months, ps, k);
    }
  }

  /** The sum of the days a range shares with each period. */
  function CoveredDays(ps: seq<Period>, a: int, b: int): int {
    if ps == [] then 0
    else CoveredDays(ps[..|ps| - 1], a, b) + OverlapDays(ps[|ps| - 1].start, ps[|ps| - 1].end, a, b)
  }

  lemma {:induction false} CoveredOfChain(ps: seq<Period>, a: int, b: int)
    requires ps != [] && Chained(ps)
    ensures CoveredDays(ps, a, b) == OverlapDays(ps[0].start, ps[|ps| - 1].end, a, b)
    ensures ps[0].start <= ps[|ps| - 1].end
  {
    var n := |ps| - 1;
    if n > 0 {
      var init := ps[..n];
      assert init[n - 1] == ps[n - 1] && ps[n - 1].end + 1 == ps[n].start;
      CoveredOfChain(init, a, b);
    } else {
      assert ps[..0] == [];
    }
  }

  /** The days a line covers, summed over the contract's periods, are its days within the contract: none
      is billed twice and none is missed. */
  lemma CoveredDaysTile(start: Day, end: int, months: nat, ps: seq<Period>, a: int, b: int)
    requires months >= 1 && AllPeriods(StartsOf(start, months), end, months, ps)
    ensures CoveredDays(ps, a, b) == OverlapDays(Ordinal(start), end, a, b)
  {
    StartsOfGrow(start, months);
    PeriodsAreConsecutive(StartsOf(start, months), end, months, ps);
    if ps != [] {
      CoveredOfChain(ps, a, b);
    }
  }

  ghost predicate InSomePeriod(ps: seq<Period>, day: int) {
    exists k: nat :: k < |ps| && ps[k].start <= day <= ps[k].end
  }

  /** A day lies in a period exactly when the contract runs on it, and never in two. */
  lemma DayInOnePeriod(start: Day, end: int, months: nat, ps: seq<Period>, day: int)
    requires months >= 1 && AllPeriods(StartsOf(start, months), end, months, ps)
    ensures Ordinal(start) <= day <= end <==> InSomePeriod(ps, day)
    ensures forall j: nat, k: nat :: j < k < |ps| ==> ps[j].end < ps[k].start
  {
    StartsOfGrow(start, months);
    DayInPeriod(StartsOf(start, months), end, months, ps, day);
    PeriodsApart(StartsOf(start, months), end, months, ps);
  }

  lemma DayInPeriod(starts: Starts, end: int, months: nat, ps: seq<Period>, day: int)
    requires Growing(starts) && AllPeriods(starts, end, months, ps)
    ensures starts(0) <= day <= end <==> InSomePeriod(ps, day)
  {
    if starts(0) <= day <= end {
      var k := PeriodHolding(starts, end, months, ps, day, |ps|);
    }
    if InSomePeriod(ps, day) {
      var k: nat :| k < |ps| && ps[k].start <= day <= ps[k].end;
      GrowsAt(starts, 0, k);
    }
  }

  lemma PeriodsApart(starts: Starts, end: int, months: nat, ps: seq<Period>)
    requires Growing(starts) && AllPeriods(starts, end, months, ps)
    ensures forall j: nat, k: nat :: j < k < |ps| ==> ps[j].end < ps[k].start
  {
    forall j: nat, k: nat | j < k < |ps|
      ensures ps[j].end < ps[k].start
    {
      GrowsAt(starts, j + 1, k);
    }
  }

  lemma {:induction false} PeriodHolding(starts: Starts, end: int, months: nat, ps: seq<Period>, day: int, n: nat)
    returns (k: nat)
    requires AllPeriods(starts, end, months, ps) && n <= |ps|
    requires starts(0) <= day <= end && day < starts(n)
    ensures k < |ps| && ps[k].start <= day <= ps[k].end
  {
    if starts(n - 1) <= day {
      k := n - 1;
    } else {
      k := PeriodHolding(starts, end, months, ps, day, n - 1);
    }
  }

  /** A contract of a whole number of billing periods has that many, every one in full, despite clamping. */
  lemma WholeTermsBillInFull(start: Day, end: int, months: nat, ps: seq<Period>, count: nat)
    requires months >= 1 && AllPeriods(StartsOf(start, months), end, months, ps)
    requires end == StartOf(start, months, count) - 1
    ensures |ps| == count
    ensures forall k: nat :: k < |ps| ==> ps[k].end == ps[k].nominalEnd
  {
    var starts := StartsOf(start, months);
    StartsOfGrow(start, months);
    CountIsExact(starts, end, months, ps, count);
    PeriodsAreConsecutive(starts, end, months, ps);
  }

  lemma GrowsAt(starts: Starts, a: nat, b: nat)
    requires Growing(starts)
    ensures a < b ==> starts(a) < starts(b)
  {
  }

  lemma BegunBy(starts: Starts, end: int, months: nat, ps: seq<Period>, k: nat)
    requires AllPeriods(starts, end, months, ps)
    ensures k < |ps| ==> starts(k) <= end
  {
  }

  lemma CountIsExact(starts: Starts, end: int, months: nat, ps: seq<Period>, count: nat)
    requires Growing(starts) && AllPeriods(starts, end, months, ps)
    requires end == starts(count) - 1
    ensures |ps| == count
  {
    GrowsAt(starts, |ps|, count);
    BegunBy(starts, end, months, ps, count);
  }
}
