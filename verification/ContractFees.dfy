/** The fee lines of all a contract's periods together (apps/billing/services.py). */
module ContractFees {
  import opened Calendar
  import opened Drafting
  import Money
  import opened Periods
  import opened Results
  import opened Terms

  /** The one fee line of a flat contract's draft is its share of the monthly fee for the period. */
  lemma FlatLineIsItsShare(d: nat, c: Contract, p: Period)
    requires NominalDays(p) > 0 && c.pricing.Flat? && c.pricing.monthlyFee.Some?
    ensures |FeeLines(d, c, p)| == 1
    ensures var line, covered := FeeLines(d, c, p)[0], OverlapDays(p.start, p.end, Ordinal(c.start), LastBilledDay(c));
            && line.draft == d && line.elevator.None? && line.fault.None? && line.price == c.pricing.monthlyFee
            && !line.needsPrice && line.share == Some(Share(p.months, covered, NominalDays(p)))
            && line.amount == PeriodFee(c.pricing.monthlyFee.value, p, Ordinal(c.start), LastBilledDay(c))
  {
    hide Money.ProratedAmount, Money.ProratedQuantity;
  }

  lemma PeriodsForAreAll(c: Contract) returns (ps: seq<Period>)
    ensures ps == PeriodsFor(c)
    ensures AllPeriods(StartsOf(c.start, MonthsOf(c.billing)), LastBilledDay(c), MonthsOf(c.billing), ps)
  {
    ps := PeriodsFor(c);
    AllFrom(c.start, LastBilledDay(c), MonthsOf(c.billing), 0);
  }

  lemma {:induction false} AllFrom(start: Day, end: int, months: nat, k: nat)
    requires months >= 1
    ensures var ps := PeriodsFrom(start, end, months, k);
            && (forall j: nat :: j < |ps| ==>
                  ps[j] == PeriodAt(StartsOf(start, months), end, months, k + j) && StartsOf(start, months)(k + j) <= end)
            && StartsOf(start, months)(k + |ps|) > end
    decreases end - StartOf(start, months, k)
  {
    hide StartOf;
    if StartOf(start, months, k) <= end {
      StartsGrow(start, months, k, k + 1);
      AllFrom(start, end, months, k + 1);
      var rest := PeriodsFrom(start, end, months, k + 1);
      var ps := PeriodsFrom(start, end, months, k);
      forall j: nat | j < |ps|
        ensures ps[j] == PeriodAt(StartsOf(start, months), end, months, k + j) && StartsOf(start, months)(k + j) <= end
      {
        if j > 0 {
          assert rest[j - 1] == PeriodAt(StartsOf(start, months), end, months, k + 1 + (j - 1));
        }
      }
      assert StartsOf(start, months)(k + 1 + |rest|) > end;
    }
  }

  /** How many periods of this length a year has. */
  function PeriodsAYear(billing: BillingPeriod): nat {
    match billing
    case Monthly => 12
    case Quarterly => 4
    case Semiannual => 2
    case Annual => 1
  }

  lemma YearIsPeriods(start: Day, billing: BillingPeriod, years: nat)
    ensures StartOf(start, MonthsOf(billing), PeriodsAYear(billing) * years) == Ordinal(AddMonths(start, 12 * years))
  {
    hide AddMonths, Ordinal;
    assert PeriodsAYear(billing) * MonthsOf(billing) == 12;
    assert PeriodsAYear(billing) * years * MonthsOf(billing) == 12 * years;
  }

  /** A contract of whole years has twelve monthly periods in each, four quarterly, two half-yearly or one yearly. */
  lemma PeriodsInYears(c: Contract, years: nat)
    requires LastBilledDay(c) == Ordinal(AddMonths(c.start, 12 * years)) - 1
    ensures |PeriodsFor(c)| == PeriodsAYear(c.billing) * years
  {
    hide PeriodsFor, AllPeriods, StartOf, AddMonths, Ordinal, LastBilledDay, MonthsOf, PeriodsAYear;
    var ps := PeriodsForAreAll(c);
    YearIsPeriods(c.start, c.billing, years);
    WholeTermsBillInFull(c.start, LastBilledDay(c), MonthsOf(c.billing), ps, PeriodsAYear(c.billing) * years);
  }

  /** A contract is billed from its first day to its last, or to the day it was terminated when that is sooner: those
      days each lie in a period, and no other does. */
  lemma BilledToTermination(c: Contract, day: int)
    ensures (exists k :: 0 <= k < |PeriodsFor(c)| && PeriodsFor(c)[k].start <= day <= PeriodsFor(c)[k].end) <==>
            && Ordinal(c.start) <= day <= c.end
            && (c.status == Terminated && c.terminatedAt.Some? ==> day <= c.terminatedAt.value)
  {
    hide PeriodsFor, AllPeriods;
    var ps := PeriodsForAreAll(c);
    DayInOnePeriod(c.start, LastBilledDay(c), MonthsOf(c.billing), ps, day);
    assert InSomePeriod(ps, day) <==> exists k :: 0 <= k < |ps| && ps[k].start <= day <= ps[k].end;
  }

  /** The fee lines of a flat contract of a whole number of billing periods come to its monthly fee for every month. */
  lemma FlatContractBillsEveryMonth(c: Contract, count: nat)
    requires c.pricing.Flat? && c.pricing.monthlyFee.Some?
    requires Money.ColumnsFit(c.pricing.monthlyFee.value, MonthsOf(c.billing), 0)
    requires LastBilledDay(c) == StartOf(c.start, MonthsOf(c.billing), count) - 1
    ensures |PeriodsFor(c)| == count
    ensures Fees(c.pricing.monthlyFee.value, PeriodsFor(c), Ordinal(c.start), LastBilledDay(c)) ==
            c.pricing.monthlyFee.value * MonthsOf(c.billing) * count
  {
    hide Fees, StartOf, PeriodsFor, AllPeriods;
    var ps := PeriodsForAreAll(c);
    WholeTermsBillInFull(c.start, LastBilledDay(c), MonthsOf(c.billing), ps, count);
    WholeContractBillsEveryMonth(c.start, LastBilledDay(c), MonthsOf(c.billing), ps, count, c.pricing.monthlyFee.value);
  }

  predicate CoveredBy(cover: Cover, day: int) {
    cover.added <= day && (cover.removed.Some? ==> day <= cover.removed.value)
  }

  /** The days of the period on which the lift is covered. */
  function DaysOn(cover: Cover, p: Period): set<int> {
    set day: int | p.start <= day <= p.end && CoveredBy(cover, day)
  }

  lemma {:induction false} DaysBetween(days: set<int>, first: int, last: int)
    requires forall day :: day in days <==> first <= day <= last
    ensures |days| == Max(0, last - first + 1)
    decreases Max(0, last - first + 1)
  {
    if first <= last {
      DaysBetween(days - {last}, first, last - 1);
    } else {
      assert forall day: int :: day !in days;
      assert days == {};
    }
  }

  lemma CoverDaysAreDays(cover: Cover, p: Period)
    ensures CoverDays(cover, p) == |DaysOn(cover, p)|
  {
    DaysBetween(DaysOn(cover, p), Max(p.start, cover.added),
                if cover.removed.Some? then Min(p.end, cover.removed.value) else p.end);
  }

  /** The covers of the list the period has days of. */
  function Charged(covers: seq<Cover>, p: Period): set<nat> {
    set k: nat | k < |covers| && DaysOn(covers[k], p) != {}
  }

  /** The line of a cover: its days in the period, of the period's whole length, at its price. */
  function LineOf(d: nat, cover: Cover, p: Period): Line
    requires NominalDays(p) > 0
  {
    var days := |DaysOn(cover, p)|;
    Line(d, Some(cover.elevator), None, false, Money.ProratedQuantity(p.months, days, NominalDays(p)),
         Some(Share(p.months, days, NominalDays(p))), cover.price,
         Money.ProratedAmount(cover.price, p.months, days, NominalDays(p)), cover.price.None?, false)
  }

  lemma NextCharged(covers: seq<Cover>, p: Period)
    requires covers != []
    ensures var n := |covers| - 1;
            && n !in Charged(covers[..n], p)
            && Charged(covers, p) == Charged(covers[..n], p) + (if DaysOn(covers[n], p) != {} then {n} else {})
  {
    hide DaysOn;
  }

  lemma NextCoverLine(d: nat, covers: seq<Cover>, p: Period)
    requires NominalDays(p) > 0 && covers != []
    ensures var n := |covers| - 1;
            CoverLines(d, covers, p) ==
            CoverLines(d, covers[..n], p) + (if DaysOn(covers[n], p) != {} then [LineOf(d, covers[n], p)] else [])
  {
    hide DaysOn, Prorated, CoverDays, LineOf;
    CoverDaysAreDays(covers[|covers| - 1], p);
    LineOfCover(d, covers[|covers| - 1], p);
  }

  lemma LineOfCover(d: nat, cover: Cover, p: Period)
    requires NominalDays(p) > 0
    ensures Prorated(d, Some(cover.elevator), p, |DaysOn(cover, p)|, cover.price) == LineOf(d, cover, p)
  {
    hide DaysOn, Money.ProratedAmount, Money.ProratedQuantity;
  }

  lemma {:induction false} AsManyLines(d: nat, covers: seq<Cover>, p: Period)
    requires NominalDays(p) > 0
    ensures |CoverLines(d, covers, p)| == |Charged(covers, p)|
  {
    if covers != [] {
      AsManyLines(d, covers[..|covers| - 1], p);
      NextCharged(covers, p);
      NextCoverLine(d, covers, p);
      hide LineOf, DaysOn, Charged, CoverLines;
    }
  }

  lemma {:induction false} ChargedHasItsLine(d: nat, covers: seq<Cover>, p: Period, k: nat)
    requires NominalDays(p) > 0 && k in Charged(covers, p)
    ensures LineOf(d, covers[k], p) in CoverLines(d, covers, p)
  {
    hide LineOf, CoverLines;
    var n := |covers| - 1;
    NextCoverLine(d, covers, p);
    if k < n {
      ChargedHasItsLine(d, covers[..n], p, k);
    }
  }

  lemma {:induction false} LineIsOfOne(d: nat, covers: seq<Cover>, p: Period, line: Line)
    requires NominalDays(p) > 0 && line in CoverLines(d, covers, p)
    ensures exists k :: k in Charged(covers, p) && line == LineOf(d, covers[k], p)
  {
    var n := |covers| - 1;
    NextCharged(covers, p);
    NextCoverLine(d, covers, p);
    hide LineOf, DaysOn, CoverLines;
    if line in CoverLines(d, covers[..n], p) {
      LineIsOfOne(d, covers[..n], p, line);
      var k :| k in Charged(covers[..n], p) && line == LineOf(d, covers[..n][k], p);
      assert k in Charged(covers, p);
    } else {
      assert n in Charged(covers, p);
    }
  }

  /** A per-lift contract bills one line for each cover with a day in the period, for just those days, and no other. */
  lemma EachCoverHasItsLine(d: nat, c: Contract, p: Period)
    requires NominalDays(p) > 0 && c.pricing.PerElevator?
    ensures |FeeLines(d, c, p)| == |Charged(c.covers, p)|
    ensures forall k :: k in Charged(c.covers, p) ==> LineOf(d, c.covers[k], p) in FeeLines(d, c, p)
    ensures forall line :: line in FeeLines(d, c, p) ==>
              exists k :: k in Charged(c.covers, p) && line == LineOf(d, c.covers[k], p)
  {
    AsManyLines(d, c.covers, p);
    forall k | k in Charged(c.covers, p) {
      ChargedHasItsLine(d, c.covers, p, k);
    }
    forall line | line in FeeLines(d, c, p)
      ensures exists k :: k in Charged(c.covers, p) && line == LineOf(d, c.covers[k], p)
    {
      LineIsOfOne(d, c.covers, p, line);
    }
  }

  /** The days one lift's lines cover over all the periods. */
  function LiftDays(cover: Cover, ps: seq<Period>): int {
    if ps == [] then 0 else LiftDays(cover, ps[..|ps| - 1]) + CoverDays(cover, ps[|ps| - 1])
  }

  /** A lift still covered is covered as far as the contract is billed. */
  function CoverEnd(cover: Cover, end: int): int {
    if cover.removed.Some? then cover.removed.value else Max(end, cover.added)
  }

  lemma {:induction false} LiftDaysAreCovered(cover: Cover, ps: seq<Period>, end: int)
    requires forall k :: 0 <= k < |ps| ==> ps[k].end <= end
    ensures LiftDays(cover, ps) == CoveredDays(ps, cover.added, CoverEnd(cover, end))
  {
    if ps != [] {
      LiftDaysAreCovered(cover, ps[..|ps| - 1], end);
    }
  }

  /** The days a lift is billed, over all its contract's periods, are exactly the days it was covered while the
      contract was billed: the day it is removed among them, none twice. */
  lemma LiftIsBilledItsDays(c: Contract, cover: Cover)
    ensures LiftDays(cover, PeriodsFor(c)) ==
            OverlapDays(Ordinal(c.start), LastBilledDay(c), cover.added, CoverEnd(cover, LastBilledDay(c)))
  {
    var ps := PeriodsForAreAll(c);
    CoveredDaysTile(c.start, LastBilledDay(c), MonthsOf(c.billing), ps, cover.added, CoverEnd(cover, LastBilledDay(c)));
    forall k | 0 <= k < |ps|
      ensures ps[k].end <= LastBilledDay(c)
    {
      assert ps[k] == PeriodAt(StartsOf(c.start, MonthsOf(c.billing)), LastBilledDay(c), MonthsOf(c.billing), k);
    }
    LiftDaysAreCovered(cover, ps, LastBilledDay(c));
  }
}
