/** Following contract terms, and what a contract of whole periods bills (apps/contracts/services.py). */
module Terms {
  import opened Calendar
  import opened Money
  import opened Periods
  import opened Results

  datatype Term = Term(start: Day, end: int)

  /** The term that follows: as many months if the term is whole months, else as many days. */
  function NextTerm(t: Term): Term
    requires t.end >= 0
  {
    var newStart := DateOf(t.end + 1);
    var months := newStart.month - t.start.month;
    if months > 0 && newStart.day == t.start.day && AddMonths(t.start, months) == newStart then
      Term(newStart, Ordinal(AddMonths(newStart, months)) - 1)
    else
      Term(newStart, Ordinal(newStart) + (t.end - Ordinal(t.start)))
  }

  /** A term running up to the day before another starts. */
  function TermBetween(start: Day, next: Day): Term {
    Term(start, Ordinal(next) - 1)
  }

  lemma NextTermBetween(start: Day, next: Day)
    ensures var months := next.month - start.month;
            NextTerm(TermBetween(start, next)) ==
            if months > 0 && next.day == start.day then TermBetween(next, AddMonths(next, months))
            else Term(next, Ordinal(next) + (Ordinal(next) - 1 - Ordinal(start)))
  {
    hide DaysIn, DaysBefore;
    DateOfOrdinal(next);
  }

  /** The k-th term of n months, counted from the first term's start. */
  function TermAt(start: Day, n: nat, k: nat): Term {
    TermBetween(AddMonths(start, k * n), AddMonths(start, (k + 1) * n))
  }

  /** The term reached by following k times. */
  function Follow(t: Term, k: nat): (r: Term)
    requires t.end >= Ordinal(t.start)
    ensures r.end >= Ordinal(r.start)
  {
    if k == 0 then t
    else
      var before := Follow(t, k - 1);
      NextTermRuns(before);
      NextTerm(before)
  }

  lemma NextTermRuns(t: Term)
    requires t.end >= Ordinal(t.start)
    ensures NextTerm(t).end >= Ordinal(NextTerm(t).start)
    ensures Ordinal(NextTerm(t).start) == t.end + 1
  {
    var newStart := DateOf(t.end + 1);
    var months := newStart.month - t.start.month;
    if months > 0 {
      LaterMonthIsLater(newStart, AddMonths(newStart, months));
    }
  }

  /** That many months on, the start falls on its own day of the month, not on a clamped one. */
  predicate Unclamped(start: Day, months: nat) {
    start.day <= DaysIn(start.month + months)
  }

  lemma TermRuns(start: Day, n: nat, k: nat)
    requires n >= 1
    ensures TermAt(start, n, k).end >= Ordinal(TermAt(start, n, k).start)
  {
    StartsGrow(start, n, k, k + 1);
  }

  /** Between two unclamped starts lie whole months, and as many follow. */
  lemma UnclampedFollows(start: Day, a: nat, n: nat)
    requires n >= 1 && Unclamped(start, a) && Unclamped(start, a + n)
    ensures NextTerm(TermBetween(AddMonths(start, a), AddMonths(start, a + n))) ==
            TermBetween(AddMonths(start, a + n), AddMonths(start, a + n + n))
  {
    hide DaysIn, DaysBefore;
    NextTermBetween(AddMonths(start, a), AddMonths(start, a + n));
    StepsCompose(start, a + n, n);
  }

  lemma NextMultiple(n: nat, k: nat)
    ensures (k + 1) * n == k * n + n
  {
  }

  lemma TermFollows(start: Day, n: nat, k: nat)
    requires n >= 1 && Unclamped(start, k * n) && Unclamped(start, (k + 1) * n)
    ensures NextTerm(TermAt(start, n, k)) == TermAt(start, n, k + 1)
  {
    hide DaysIn, DaysBefore;
    NextMultiple(n, k);
    NextMultiple(n, k + 1);
    UnclampedFollows(start, k * n, n);
  }

  /** Renewing k times starts k times n months after the first term, while no start in between is clamped. */
  lemma {:induction false} RenewalsStepFromTheStart(start: Day, n: nat, k: nat)
    requires n >= 1
    requires forall j: nat :: j <= k ==> Unclamped(start, j * n)
    ensures TermAt(start, n, 0).end >= Ordinal(TermAt(start, n, 0).start)
    ensures Follow(TermAt(start, n, 0), k) == TermAt(start, n, k)
  {
    hide DaysIn, DaysBefore;
    TermRuns(start, n, 0);
    if k > 0 {
      var before := k - 1;
      RenewalsStepFromTheStart(start, n, before);
      assert Unclamped(start, before * n) && Unclamped(start, (before + 1) * n);
      TermFollows(start, n, before);
    }
  }

  /** A term that starts on the 28th or earlier never drifts, however often it is renewed. */
  lemma EarlyStartsNeverDrift(start: Day, n: nat, k: nat)
    requires n >= 1 && start.day <= 28
    ensures TermAt(start, n, 0).end >= Ordinal(TermAt(start, n, 0).start)
    ensures Follow(TermAt(start, n, 0), k) == TermAt(start, n, k)
  {
    RenewalsStepFromTheStart(start, n, k);
  }

  /** The term after a first one of n months ends where it should exactly when its own start was not
      clamped, or the two terms happen to be as long in days. */
  lemma RenewalKeepsShape(start: Day, n: nat)
    requires n >= 1
    ensures var second := AddMonths(start, n);
            NextTerm(TermBetween(start, second)) == TermBetween(second, AddMonths(start, n + n)) <==>
            Unclamped(start, n)
            || Ordinal(AddMonths(start, n + n)) - Ordinal(second) == Ordinal(second) - Ordinal(start)
  {
    hide DaysIn, DaysBefore;
    var second := AddMonths(start, n);
    NextTermBetween(start, second);
    StepsCompose(start, n, n);
  }

  /** A monthly term from 31 January drifts: its second renewal starts on 28 March, not on the 31st. */
  lemma MonthEndDrifts(year: nat)
    requires !Leap(year)
    ensures var january, march := MonthOf(year, 1), MonthOf(year, 3);
            && DaysIn(january) == DaysIn(march) == 31
            && var first := TermBetween(Date(january, 31), AddMonths(Date(january, 31), 1));
               NextTerm(NextTerm(first)).start == Date(march, 28) != AddMonths(Date(january, 31), 2)
  {
    assert MonthOf(year, 2) == MonthOf(year, 1) + 1 && MonthOf(year, 3) == MonthOf(year, 1) + 2;
    DriftsAfter(MonthOf(year, 1));
  }

  lemma DaysBeforeNext(index: nat)
    ensures DaysBefore(index + 1) == DaysBefore(index) + DaysIn(index)
  {
  }

  lemma DriftsAfter(january: nat)
    requires DaysIn(january) == DaysIn(january + 2) == 31 && DaysIn(january + 1) == 28
    ensures var first := TermBetween(Date(january, 31), AddMonths(Date(january, 31), 1));
            NextTerm(NextTerm(first)).start == Date(january + 2, 28) != AddMonths(Date(january, 31), 2)
  {
    var start: Day, february: Day, march: Day := Date(january, 31), Date(january + 1, 28), Date(january + 2, 28);
    assert AddMonths(start, 1) == february && AddMonths(start, 2).day == 31;
    DaysBeforeNext(january);
    DaysBeforeNext(january + 1);
    SameLengthFollows(start, february, march);
    hide *;
    NextTermStarts(february, march);
  }

  lemma NextTermStarts(start: Day, next: Day)
    ensures NextTerm(TermBetween(start, next)).start == next
  {
    hide DaysIn, DaysBefore;
    NextTermBetween(start, next);
  }

  /** After a term whose successor starts on a clamped day comes one of as many days. */
  lemma SameLengthFollows(start: Day, next: Day, after: Day)
    requires start.day != next.day && Ordinal(after) - Ordinal(next) == Ordinal(next) - Ordinal(start)
    ensures NextTerm(TermBetween(start, next)) == TermBetween(next, after)
  {
    hide DaysIn, DaysBefore;
    NextTermBetween(start, next);
  }

  // What a contract bills ------------------------------------------------------------------

  /** The fee of one period for a range of covered days (`_fee_lines`). */
  function PeriodFee(price: int, p: Period, a: int, b: int): int
    requires NominalDays(p) > 0
  {
    ProratedAmount(Some(price), p.months, OverlapDays(p.start, p.end, a, b), NominalDays(p))
  }

  function Fees(price: int, ps: seq<Period>, a: int, b: int): int
    requires forall k :: 0 <= k < |ps| ==> NominalDays(ps[k]) > 0
  {
    if ps == [] then 0
    else Fees(price, ps[..|ps| - 1], a, b) + PeriodFee(price, ps[|ps| - 1], a, b)
  }

  /** Periods in full, as long as months and days fit their columns. */
  ghost predicate FullPeriods(ps: seq<Period>, a: int, b: int, months: nat) {
    forall k :: 0 <= k < |ps| ==>
      && a <= ps[k].start <= ps[k].end == ps[k].nominalEnd <= b
      && ps[k].months == months && NominalDays(ps[k]) <= SMALL_INTEGER
  }

  lemma FullPeriodCosts(price: int, p: Period, a: int, b: int)
    requires a <= p.start <= p.end == p.nominalEnd <= b
    requires ColumnsFit(price, p.months, 0) && NominalDays(p) <= SMALL_INTEGER
    ensures PeriodFee(price, p, a, b) == price * p.months
  {
    assert OverlapDays(p.start, p.end, a, b) == NominalDays(p);
    FullCoverIsWhole(price, p.months, NominalDays(p));
  }

  lemma {:induction false} FullPeriodsCost(price: int, ps: seq<Period>, a: int, b: int, months: nat)
    requires FullPeriods(ps, a, b, months) && ColumnsFit(price, months, 0)
    ensures Fees(price, ps, a, b) == Product(price * months, |ps|)
  {
    if ps != [] {
      var n := |ps| - 1;
      assert FullPeriods(ps[..n], a, b, months);
      FullPeriodsCost(price, ps[..n], a, b, months);
      FullPeriodCosts(price, ps[n], a, b);
      ProductOneMore(price * months, n);
    }
  }

  function Product(a: int, n: nat): int {
    a * n
  }

  lemma ProductOneMore(a: int, n: nat)
    ensures Product(a, n + 1) == Product(a, n) + a
  {
  }

  /** A flat contract of a whole number of billing periods bills its monthly fee for every month: the
      proration adds and loses nothing, whatever day it starts on. */
  lemma WholeContractBillsEveryMonth(start: Day, end: int, months: nat, ps: seq<Period>, count: nat, price: int)
    requires 1 <= months <= 12 && AllPeriods(StartsOf(start, months), end, months, ps)
    requires end == StartOf(start, months, count) - 1
    requires ColumnsFit(price, months, 0)
    ensures forall k :: 0 <= k < |ps| ==> NominalDays(ps[k]) > 0
    ensures Fees(price, ps, Ordinal(start), end) == price * months * count
  {
    PeriodsInFull(start, end, months, ps, count);
    FullPeriodsCost(price, ps, Ordinal(start), end, months);
  }

  lemma PeriodsInFull(start: Day, end: int, months: nat, ps: seq<Period>, count: nat)
    requires 1 <= months <= 12 && AllPeriods(StartsOf(start, months), end, months, ps)
    requires end == StartOf(start, months, count) - 1
    ensures |ps| == count
    ensures FullPeriods(ps, Ordinal(start), end, months)
  {
    var starts := StartsOf(start, months);
    StartsOfGrow(start, months);
    WholeTermsBillInFull(start, end, months, ps, count);
    forall k | 0 <= k < |ps|
      ensures Ordinal(start) <= ps[k].start <= ps[k].end == ps[k].nominalEnd <= end
      ensures NominalDays(ps[k]) <= SMALL_INTEGER && ps[k].months == months
    {
      PeriodRuns(starts, end, months, ps, k);
      GrowsAt(starts, 0, k);
      PeriodLength(start, months, k);
    }
  }

  /** A period is no longer than 31 days a month, and a few for the clamping. */
  lemma PeriodLength(start: Day, months: nat, k: nat)
    requires months <= 12
    ensures StartOf(start, months, k + 1) - StartOf(start, months, k) <= 31 * months + 31
  {
    hide DaysIn, DaysBefore;
    var i := start.month + k * months;
    NextMultiple(months, k);
    assert start.month + (k + 1) * months == i + months;
    MonthsAreShort(i, months);
  }

  lemma {:induction false} MonthsAreShort(i: nat, months: nat)
    ensures DaysBefore(i) <= DaysBefore(i + months) <= DaysBefore(i) + 31 * months
  {
    if months > 0 {
      MonthsAreShort(i, months - 1);
    }
  }
}
