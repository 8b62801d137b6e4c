/** A cancelled draft gives its period and its faults back, and the generator drafts and bills them again
    (apps/billing/services.py). */
module Redrafting {
  import Calendar
  import opened Drafting
  import opened DraftingLaws
  import opened DraftingRuns
  import opened Periods
  import opened Results

  // A due period gets its draft, and its faults are billed ------------------------------------------

  lemma DraftForElsewhere(rows: Rows, c: Contract, p: Period, rate: nat, faults: seq<Fault>, contract: nat, start: int)
    requires NominalDays(p) > 0 && (c.id != contract || p.start != start)
    requires !PeriodTaken(rows.drafts, contract, start)
    ensures !PeriodTaken(DraftFor(rows, c, p, rate, faults).drafts, contract, start)
  {
    hide FeeLines, FaultLines, BillableFaults, EachFaultOnce, Money.TotalsOf;
    var after := DraftFor(rows, c, p, rate, faults);
    forall d | 0 <= d < |after.drafts| && after.drafts[d].contract == contract && after.drafts[d].start == start
      ensures !Live(after.drafts[d])
    {
      if d < |rows.drafts| {
        assert after.drafts[d] == rows.drafts[d];
      }
    }
  }

  lemma {:induction false} DraftPeriodsElsewhere(
      rows: Rows, c: Contract, ps: seq<Period>, today: int, faults: seq<Fault>, contract: nat, start: int)
    requires forall k :: 0 <= k < |ps| ==> NominalDays(ps[k]) > 0 && (c.id != contract || ps[k].start != start)
    requires !PeriodTaken(rows.drafts, contract, start)
    ensures !PeriodTaken(DraftPeriods(rows, c, ps, today, faults).drafts, contract, start)
  {
    hide PeriodTaken, DraftFor;
    if ps != [] {
      var n := |ps| - 1;
      var before := DraftPeriods(rows, c, ps[..n], today, faults);
      DraftPeriodsElsewhere(rows, c, ps[..n], today, faults, contract, start);
      if Due(ps[n], today) && c.rate.Some? {
        DraftForElsewhere(before, c, ps[n], c.rate.value, faults, contract, start);
      }
    }
  }

  lemma {:induction false} GenerateElsewhere(rows: Rows, cs: seq<Contract>, today: int, faults: seq<Fault>,
      contract: nat, start: int)
    requires forall i :: 0 <= i < |cs| ==> cs[i].id != contract
    requires !PeriodTaken(rows.drafts, contract, start)
    ensures !PeriodTaken(Generate(rows, cs, today, faults).drafts, contract, start)
  {
    hide PeriodTaken, DraftPeriods, PeriodsFor;
    if cs != [] {
      var n := |cs| - 1;
      GenerateElsewhere(rows, cs[..n], today, faults, contract, start);
      if Generated(cs[n], today) {
        DraftPeriodsElsewhere(Generate(rows, cs[..n], today, faults), cs[n], PeriodsFor(cs[n]), today, faults,
            contract, start);
      }
    }
  }

  ghost predicate DistinctStarts(ps: seq<Period>) {
    forall j, k :: 0 <= j < k < |ps| ==> ps[j].start != ps[k].start
  }

  /** Among a contract's periods, a due one not taken is drafted with every fault to bill. */
  lemma {:induction false} UntakenIsDrafted(
      rows: Rows, c: Contract, ps: seq<Period>, today: int, faults: seq<Fault>, k: nat, f: Fault)
    requires BillingInv(rows) && DistinctFaults(faults) && c.rate.Some?
    requires (forall k :: 0 <= k < |ps| ==> NominalDays(ps[k]) > 0) && DistinctStarts(ps)
    requires k < |ps| && Due(ps[k], today) && !PeriodTaken(rows.drafts, c.id, ps[k].start)
    requires f in faults && ToBill(f, c, ps[k])
    ensures FaultBilled(DraftPeriods(rows, c, ps, today, faults).lines, f.id)
  {
    var n := |ps| - 1;
    var before := DraftPeriods(rows, c, ps[..n], today, faults);
    DraftPeriodsKeep(rows, c, ps[..n], today, faults);
    InvParts(before);
    if k == n {
      DraftPeriodsElsewhere(rows, c, ps[..n], today, faults, c.id, ps[n].start);
      hide PeriodTaken, DraftFor, Drafted, FaultBilled, BillingInv, EachFaultOnce;
      DraftForMakesIt(before, c, ps[n], c.rate.value, faults);
      DraftedBillsFaults(before, c, ps[n], c.rate.value, faults, f);
    } else {
      hide PeriodTaken, DraftFor, FaultBilled, BillingInv, EachFaultOnce;
      UntakenIsDrafted(rows, c, ps[..n], today, faults, k, f);
      if Due(ps[n], today) {
        DraftForExtends(before, c, ps[n], c.rate.value, faults);
        BilledStays(before, DraftFor(before, c, ps[n], c.rate.value, faults), f.id);
      }
    }
  }

  lemma PeriodsForStarts(c: Contract)
    ensures DistinctStarts(PeriodsFor(c))
  {
    var starts := StartsOf(c.start, MonthsOf(c.billing));
    var ps := PeriodsFor(c);
    StartsOfGrow(c.start, MonthsOf(c.billing));
    PeriodsFromStarts(c.start, LastBilledDay(c), MonthsOf(c.billing), 0);
    forall j, k | 0 <= j < k < |ps|
      ensures ps[j].start != ps[k].start
    {
      GrowsAt(starts, j, k);
    }
  }

  lemma {:induction false} PeriodsFromStarts(start: Calendar.Day, end: int, months: nat, n: nat)
    requires months >= 1
    ensures forall j :: 0 <= j < |PeriodsFrom(start, end, months, n)| ==>
              PeriodsFrom(start, end, months, n)[j].start == StartsOf(start, months)(n + j)
    decreases end - StartOf(start, months, n)
  {
    hide StartOf;
    if StartOf(start, months, n) <= end {
      StartsGrow(start, months, n, n + 1);
      PeriodsFromStarts(start, end, months, n + 1);
      var rest := PeriodsFrom(start, end, months, n + 1);
      forall j | 0 <= j < |PeriodsFrom(start, end, months, n)|
        ensures PeriodsFrom(start, end, months, n)[j].start == StartsOf(start, months)(n + j)
      {
        if j > 0 {
          assert rest[j - 1].start == StartsOf(start, months)(n + 1 + (j - 1));
        }
      }
    }
  }

  ghost predicate DistinctContracts(cs: seq<Contract>) {
    forall i, j :: 0 <= i < j < |cs| ==> cs[i].id != cs[j].id
  }

  /** A due period with no live draft is drafted by the next run, and every fault to bill in it is then billed. */
  lemma {:induction false} UntakenIsGenerated(
      rows: Rows, cs: seq<Contract>, today: int, faults: seq<Fault>, i: nat, k: nat, f: Fault)
    requires BillingInv(rows) && DistinctFaults(faults) && DistinctContracts(cs) && IsDue(cs, today, i, k)
    requires !PeriodTaken(rows.drafts, cs[i].id, PeriodsFor(cs[i])[k].start)
    requires f in faults && ToBill(f, cs[i], PeriodsFor(cs[i])[k])
    ensures FaultBilled(Generate(rows, cs, today, faults).lines, f.id)
  {
    hide PeriodTaken, DraftPeriods, FaultBilled, BillingInv, PeriodsFor, ToBill, DistinctFaults, EachFaultOnce;
    var n := |cs| - 1;
    var before := Generate(rows, cs[..n], today, faults);
    GenerateKeeps(rows, cs[..n], today, faults);
    if i == n {
      GenerateElsewhere(rows, cs[..n], today, faults, cs[n].id, PeriodsFor(cs[n])[k].start);
      PeriodsForStarts(cs[n]);
      UntakenIsDrafted(before, cs[n], PeriodsFor(cs[n]), today, faults, k, f);
    } else {
      UntakenIsGenerated(rows, cs[..n], today, faults, i, k, f);
      if Generated(cs[n], today) {
        DraftPeriodsExtends(before, cs[n], PeriodsFor(cs[n]), today, faults);
        BilledStays(before, DraftPeriods(before, cs[n], PeriodsFor(cs[n]), today, faults), f.id);
      }
    }
  }

  // Cancelling gives back --------------------------------------------------------------------------------

  /** Cancelling gives the period back: no live draft bills it. */
  lemma CancelFreesPeriod(rows: Rows, d: nat, reversed: bool)
    requires BillingInv(rows) && Cancel(rows, d, reversed).Ok?
    ensures !PeriodTaken(Cancel(rows, d, reversed).value.drafts, rows.drafts[d].contract, rows.drafts[d].start)
  {
    hide TotalsFollow, AllPriced, IssuedArePriced, NumbersUnique, HeldByLive, EachFaultOnce;
    var after := Cancel(rows, d, reversed).value;
    forall e | 0 <= e < |after.drafts| && after.drafts[e].contract == rows.drafts[d].contract
                && after.drafts[e].start == rows.drafts[d].start
      ensures !Live(after.drafts[e])
    {
      assert e != d ==> after.drafts[e] == rows.drafts[e];
    }
  }

  lemma ReleasedHolds(lines: seq<Line>, d: nat, k: nat, fault: nat)
    requires k < |lines| && HoldsFault(Released(lines, d)[k], fault)
    ensures HoldsFault(lines[k], fault) && lines[k].draft != d
  {
  }

  /** Released, a fault one of the draft's lines held is held by no line. */
  lemma ReleasedIsFree(lines: seq<Line>, d: nat, l: nat, fault: nat)
    requires EachFaultOnce(lines) && l < |lines| && lines[l].draft == d && HoldsFault(lines[l], fault)
    ensures !FaultBilled(Released(lines, d), fault)
  {
    if FaultBilled(Released(lines, d), fault) {
      var k :| 0 <= k < |lines| && HoldsFault(Released(lines, d)[k], fault);
      ReleasedHolds(lines, d, k, fault);
    }
  }

  /** Cancelling gives the draft's faults back: no line holds them. */
  lemma CancelFreesFaults(rows: Rows, d: nat, reversed: bool, l: nat)
    requires BillingInv(rows) && Cancel(rows, d, reversed).Ok?
    requires l < |rows.lines| && rows.lines[l].draft == d
    requires rows.lines[l].fault.Some? && HoldsFault(rows.lines[l], rows.lines[l].fault.value)
    ensures !FaultBilled(Cancel(rows, d, reversed).value.lines, rows.lines[l].fault.value)
  {
    hide BillingInv, FaultBilled, HoldsFault, EachFaultOnce;
    InvParts(rows);
    ReleasedIsFree(rows.lines, d, l, rows.lines[l].fault.value);
  }

  // The fault ends up on the new draft -----------------------------------------------------------------

  /** A live draft of the period, numbered `from` or later, has a line that bills the fault. */
  ghost predicate Bills(rows: Rows, from: nat, contract: nat, start: int, f: Fault) {
    exists d, l ::
      && from <= d < |rows.drafts| && 0 <= l < |rows.lines|
      && rows.drafts[d].contract == contract && rows.drafts[d].start == start && Live(rows.drafts[d])
      && rows.lines[l] == FaultLine(d, f)
  }

  lemma BillsStays(rows: Rows, more: Rows, from: nat, contract: nat, start: int, f: Fault)
    requires Extends(rows, more) && Bills(rows, from, contract, start, f)
    ensures Bills(more, from, contract, start, f)
  {
    var d, l :|
      && from <= d < |rows.drafts| && 0 <= l < |rows.lines|
      && rows.drafts[d].contract == contract && rows.drafts[d].start == start && Live(rows.drafts[d])
      && rows.lines[l] == FaultLine(d, f);
    assert more.drafts[..|rows.drafts|][d] == more.drafts[d];
    assert more.lines[..|rows.lines|][l] == more.lines[l];
  }

  lemma NotChosen(lines: seq<Line>, c: Contract, p: Period, faults: seq<Fault>, f: Fault)
    requires DistinctFaults(faults) && f in faults && !ToBill(f, c, p)
    ensures forall k :: 0 <= k < |BillableFaults(lines, c, p, faults)| ==> BillableFaults(lines, c, p, faults)[k].id != f.id
  {
    hide BillableFaults, FaultBilled;
    var fs := BillableFaults(lines, c, p, faults);
    BillableAre(lines, c, p, faults);
    forall k | 0 <= k < |fs|
      ensures fs[k].id != f.id
    {
      assert fs[k] in fs;
    }
  }

  lemma MoreLinesFree(lines: seq<Line>, fees: seq<Line>, d: nat, fs: seq<Fault>, fault: nat)
    requires !FaultBilled(lines, fault) && (forall k :: 0 <= k < |fees| ==> fees[k].fault == None)
    requires forall k :: 0 <= k < |fs| ==> fs[k].id != fault
    ensures !FaultBilled(lines + (fees + FaultLines(d, fs)), fault)
  {
  }

  /** A new draft for another period leaves the fault free, unless that period bills it too. */
  lemma DraftForLeavesFree(rows: Rows, c: Contract, p: Period, rate: nat, faults: seq<Fault>, f: Fault)
    requires NominalDays(p) > 0 && DistinctFaults(faults) && f in faults && !FaultBilled(rows.lines, f.id)
    requires ToBill(f, c, p) ==> PeriodTaken(rows.drafts, c.id, p.start)
    ensures !FaultBilled(DraftFor(rows, c, p, rate, faults).lines, f.id)
  {
    hide FeeLines, FaultLines, BillableFaults, Drafted, ToBill, EachFaultOnce, PeriodTaken, FaultBilled, DistinctFaults;
    if !ToBill(f, c, p) {
      var d := |rows.drafts|;
      NotChosen(rows.lines, c, p, faults, f);
      MoreLinesFree(rows.lines, FeeLines(d, c, p), d, BillableFaults(rows.lines, c, p, faults), f.id);
      DraftedLines(rows, c, p, rate, faults);
    }
  }

  /** Every due period but k that bills the fault has its live draft already. */
  ghost predicate OthersTaken(rows: Rows, c: Contract, ps: seq<Period>, today: int, f: Fault, k: int) {
    forall j :: 0 <= j < |ps| && j != k && Due(ps[j], today) && ToBill(f, c, ps[j]) ==>
      PeriodTaken(rows.drafts, c.id, ps[j].start)
  }

  lemma {:induction false} DraftPeriodsLeaveFree(
      rows: Rows, c: Contract, ps: seq<Period>, today: int, faults: seq<Fault>, f: Fault)
    requires (forall j :: 0 <= j < |ps| ==> NominalDays(ps[j]) > 0) && DistinctFaults(faults) && f in faults
    requires !FaultBilled(rows.lines, f.id) && OthersTaken(rows, c, ps, today, f, -1)
    ensures !FaultBilled(DraftPeriods(rows, c, ps, today, faults).lines, f.id)
  {
    hide PeriodTaken, DraftFor, FaultBilled, ToBill;
    if ps != [] {
      var n := |ps| - 1;
      var before := DraftPeriods(rows, c, ps[..n], today, faults);
      DraftPeriodsLeaveFree(rows, c, ps[..n], today, faults, f);
      DraftPeriodsExtends(rows, c, ps[..n], today, faults);
      if Due(ps[n], today) && c.rate.Some? {
        if ToBill(f, c, ps[n]) {
          TakenStays(rows, before, c.id, ps[n].start);
        }
        DraftForLeavesFree(before, c, ps[n], c.rate.value, faults, f);
      }
    }
  }

  lemma DraftForBills(rows: Rows, c: Contract, p: Period, rate: nat, faults: seq<Fault>, f: Fault)
    requires NominalDays(p) > 0 && EachFaultOnce(rows.lines) && DistinctFaults(faults)
    requires f in faults && ToBill(f, c, p) && !FaultBilled(rows.lines, f.id)
    requires !PeriodTaken(rows.drafts, c.id, p.start)
    ensures Bills(DraftFor(rows, c, p, rate, faults), |rows.drafts|, c.id, p.start, f)
  {
    hide Drafted, DraftFor;
    DraftForMakesIt(rows, c, p, rate, faults);
    DraftedBills(rows, c, p, rate, faults, f);
  }

  lemma DraftedBills(rows: Rows, c: Contract, p: Period, rate: nat, faults: seq<Fault>, f: Fault)
    requires NominalDays(p) > 0 && f in faults && ToBill(f, c, p) && !FaultBilled(rows.lines, f.id)
    ensures Bills(Drafted(rows, c, p, rate, faults), |rows.drafts|, c.id, p.start, f)
  {
    hide FeeLines, BillableFaults, ToBill, EachFaultOnce, FaultBilled, Money.TotalsOf, AmountsOf;
    var d := |rows.drafts|;
    var fs := BillableFaults(rows.lines, c, p, faults);
    BillableAre(rows.lines, c, p, faults);
    var after := Drafted(rows, c, p, rate, faults);
    var k :| 0 <= k < |fs| && fs[k] == f;
    assert after.lines[|rows.lines| + |FeeLines(d, c, p)| + k] == FaultLine(d, f);
    assert after.drafts[d].contract == c.id && after.drafts[d].start == p.start && Live(after.drafts[d]);
  }

  lemma {:induction false} DraftPeriodsBill(
      rows: Rows, c: Contract, ps: seq<Period>, today: int, faults: seq<Fault>, k: nat, f: Fault)
    requires BillingInv(rows) && DistinctFaults(faults) && c.rate.Some?
    requires (forall j :: 0 <= j < |ps| ==> NominalDays(ps[j]) > 0) && DistinctStarts(ps)
    requires k < |ps| && Due(ps[k], today) && !PeriodTaken(rows.drafts, c.id, ps[k].start)
    requires f in faults && ToBill(f, c, ps[k]) && !FaultBilled(rows.lines, f.id)
    requires OthersTaken(rows, c, ps, today, f, k)
    ensures Bills(DraftPeriods(rows, c, ps, today, faults), |rows.drafts|, c.id, ps[k].start, f)
  {
    hide PeriodTaken, DraftFor, Bills, FaultBilled, BillingInv, EachFaultOnce, ToBill;
    var n := |ps| - 1;
    var before := DraftPeriods(rows, c, ps[..n], today, faults);
    DraftPeriodsKeep(rows, c, ps[..n], today, faults);
    DraftPeriodsExtends(rows, c, ps[..n], today, faults);
    InvParts(before);
    if k == n {
      DraftPeriodsElsewhere(rows, c, ps[..n], today, faults, c.id, ps[n].start);
      DraftPeriodsLeaveFree(rows, c, ps[..n], today, faults, f);
      DraftForBills(before, c, ps[n], c.rate.value, faults, f);
      BillsFromEarlier(DraftFor(before, c, ps[n], c.rate.value, faults), |before.drafts|, |rows.drafts|, c.id,
                       ps[n].start, f);
    } else {
      DraftPeriodsBill(rows, c, ps[..n], today, faults, k, f);
      if Due(ps[n], today) {
        DraftForExtends(before, c, ps[n], c.rate.value, faults);
        BillsStays(before, DraftFor(before, c, ps[n], c.rate.value, faults), |rows.drafts|, c.id, ps[k].start, f);
      }
    }
  }

  lemma BillsFromEarlier(rows: Rows, from: nat, earlier: nat, contract: nat, start: int, f: Fault)
    requires Bills(rows, from, contract, start, f) && earlier <= from
    ensures Bills(rows, earlier, contract, start, f)
  {
  }

  /** No other due period still waiting for its draft bills the fault. */
  ghost predicate OnlyBiller(rows: Rows, cs: seq<Contract>, today: int, f: Fault, i: int, k: int) {
    forall i': nat, k': nat ::
      IsDue(cs, today, i', k') && (i' != i || k' != k) && ToBill(f, cs[i'], PeriodsFor(cs[i'])[k']) ==>
        PeriodTaken(rows.drafts, cs[i'].id, PeriodsFor(cs[i'])[k'].start)
  }

  lemma OnlyBillerOf(rows: Rows, cs: seq<Contract>, today: int, f: Fault, i: int, k: int, n: nat)
    requires OnlyBiller(rows, cs, today, f, i, k) && n < |cs| && Generated(cs[n], today) && cs[n].rate.Some?
    ensures OthersTaken(rows, cs[n], PeriodsFor(cs[n]), today, f, if n == i then k else -1)
  {
    hide PeriodTaken, ToBill, PeriodsFor, Due;
    var ps := PeriodsFor(cs[n]);
    forall j | 0 <= j < |ps| && j != (if n == i then k else -1) && Due(ps[j], today) && ToBill(f, cs[n], ps[j])
      ensures PeriodTaken(rows.drafts, cs[n].id, ps[j].start)
    {
      DueMeans(cs[n], ps[j], today);
      assert IsDue(cs, today, n, j);
    }
  }

  lemma OnlyBillerInit(rows: Rows, cs: seq<Contract>, today: int, f: Fault, i: int, k: int)
    requires OnlyBiller(rows, cs, today, f, i, k) && cs != []
    ensures OnlyBiller(rows, cs[..|cs| - 1], today, f, i, k)
  {
    hide PeriodTaken, ToBill, PeriodsFor;
    var init := cs[..|cs| - 1];
    forall i': nat, k': nat |
      IsDue(init, today, i', k') && (i' != i || k' != k) && ToBill(f, init[i'], PeriodsFor(init[i'])[k'])
      ensures PeriodTaken(rows.drafts, init[i'].id, PeriodsFor(init[i'])[k'].start)
    {
      assert IsDue(cs, today, i', k');
    }
  }

  lemma OthersTakenLater(rows: Rows, more: Rows, c: Contract, ps: seq<Period>, today: int, f: Fault, k: int)
    requires Extends(rows, more) && OthersTaken(rows, c, ps, today, f, k)
    ensures OthersTaken(more, c, ps, today, f, k)
  {
    hide PeriodTaken, ToBill, Extends;
    forall j | 0 <= j < |ps| && j != k && Due(ps[j], today) && ToBill(f, c, ps[j])
      ensures PeriodTaken(more.drafts, c.id, ps[j].start)
    {
      TakenStays(rows, more, c.id, ps[j].start);
    }
  }

  lemma {:induction false} GenerateLeavesFree(rows: Rows, cs: seq<Contract>, today: int, faults: seq<Fault>, f: Fault)
    requires DistinctFaults(faults) && f in faults && !FaultBilled(rows.lines, f.id)
    requires OnlyBiller(rows, cs, today, f, -1, -1)
    ensures !FaultBilled(Generate(rows, cs, today, faults).lines, f.id)
  {
    hide PeriodTaken, DraftPeriods, FaultBilled, PeriodsFor, ToBill, OnlyBiller, OthersTaken, DistinctFaults, Extends;
    if cs != [] {
      var n := |cs| - 1;
      var before := Generate(rows, cs[..n], today, faults);
      OnlyBillerInit(rows, cs, today, f, -1, -1);
      GenerateLeavesFree(rows, cs[..n], today, faults, f);
      if Generated(cs[n], today) {
        if cs[n].rate.Some? {
          OnlyBillerOf(rows, cs, today, f, -1, -1, n);
          GenerateExtends(rows, cs[..n], today, faults);
          OthersTakenLater(rows, before, cs[n], PeriodsFor(cs[n]), today, f, -1);
          DraftPeriodsLeaveFree(before, cs[n], PeriodsFor(cs[n]), today, faults, f);
        } else {
          NoRateNoDrafts(before, cs[n], PeriodsFor(cs[n]), today, faults);
        }
      }
    }
  }

  lemma {:induction false} NoRateNoDrafts(rows: Rows, c: Contract, ps: seq<Period>, today: int, faults: seq<Fault>)
    requires c.rate.None? && forall k :: 0 <= k < |ps| ==> NominalDays(ps[k]) > 0
    ensures DraftPeriods(rows, c, ps, today, faults) == rows
  {
    if ps != [] {
      NoRateNoDrafts(rows, c, ps[..|ps| - 1], today, faults);
    }
  }

  /** A free fault is billed on the new draft of the period it belongs to, if no other period takes it first. */
  lemma {:induction false} GenerateBills(
      rows: Rows, cs: seq<Contract>, today: int, faults: seq<Fault>, i: nat, k: nat, f: Fault)
    requires BillingInv(rows) && DistinctFaults(faults) && DistinctContracts(cs) && IsDue(cs, today, i, k)
    requires !PeriodTaken(rows.drafts, cs[i].id, PeriodsFor(cs[i])[k].start) && !FaultBilled(rows.lines, f.id)
    requires f in faults && ToBill(f, cs[i], PeriodsFor(cs[i])[k]) && OnlyBiller(rows, cs, today, f, i, k)
    ensures Bills(Generate(rows, cs, today, faults), |rows.drafts|, cs[i].id, PeriodsFor(cs[i])[k].start, f)
  {
    var n := |cs| - 1;
    var before := Generate(rows, cs[..n], today, faults);
    GenerateKeeps(rows, cs[..n], today, faults);
    GenerateExtends(rows, cs[..n], today, faults);
    OnlyBillerInit(rows, cs, today, f, i, k);
    if i == n {
      GenerateElsewhere(rows, cs[..n], today, faults, cs[n].id, PeriodsFor(cs[n])[k].start);
      PeriodsForStarts(cs[n]);
      NoneAmongOthers(rows, cs, today, f, k);
      hide PeriodTaken, DraftPeriods, FaultBilled, BillingInv, PeriodsFor, ToBill, OnlyBiller, OthersTaken, Bills, Extends;
      GenerateLeavesFree(rows, cs[..n], today, faults, f);
      OnlyBillerOf(rows, cs, today, f, n, k, n);
      OthersTakenLater(rows, before, cs[n], PeriodsFor(cs[n]), today, f, k);
      DraftPeriodsBill(before, cs[n], PeriodsFor(cs[n]), today, faults, k, f);
      assert |rows.drafts| <= |before.drafts| by {
        ExtendsMore(rows, before);
      }
      BillsFromEarlier(Generate(rows, cs, today, faults), |before.drafts|, |rows.drafts|, cs[n].id,
                       PeriodsFor(cs[n])[k].start, f);
    } else {
      hide PeriodTaken, DraftPeriods, FaultBilled, BillingInv, PeriodsFor, ToBill, OnlyBiller, Bills, Extends;
      GenerateBills(rows, cs[..n], today, faults, i, k, f);
      if Generated(cs[n], today) {
        DraftPeriodsExtends(before, cs[n], PeriodsFor(cs[n]), today, faults);
        BillsStays(before, DraftPeriods(before, cs[n], PeriodsFor(cs[n]), today, faults), |rows.drafts|, cs[i].id,
                   PeriodsFor(cs[i])[k].start, f);
      }
    }
  }

  lemma NoneAmongOthers(rows: Rows, cs: seq<Contract>, today: int, f: Fault, k: nat)
    requires cs != [] && OnlyBiller(rows, cs, today, f, |cs| - 1, k)
    ensures OnlyBiller(rows, cs[..|cs| - 1], today, f, -1, -1)
  {
    hide PeriodTaken, ToBill, PeriodsFor;
    var init := cs[..|cs| - 1];
    forall i': nat, k': nat | IsDue(init, today, i', k') && ToBill(f, init[i'], PeriodsFor(init[i'])[k'])
      ensures PeriodTaken(rows.drafts, init[i'].id, PeriodsFor(init[i'])[k'].start)
    {
      assert IsDue(cs, today, i', k');
    }
  }

  // Between the cancel and the run ---------------------------------------------------------------------

  /** Nothing but the generator takes a period or a fault. */
  lemma CallLeavesFree(rows: Rows, call: Call, contract: nat, start: int, fault: nat)
    requires !call.CallGenerate? && !PeriodTaken(rows.drafts, contract, start) && !FaultBilled(rows.lines, fault)
    ensures var after := After(rows, call);
            !PeriodTaken(after.drafts, contract, start) && !FaultBilled(after.lines, fault)
  {
    hide Money.TotalsOf, AmountsOf, AmountOf, WaitsForPrice, NumberTaken;
    var after := After(rows, call);
    forall d | 0 <= d < |after.drafts| && after.drafts[d].contract == contract && after.drafts[d].start == start
      ensures !Live(after.drafts[d])
    {
      assert !Live(rows.drafts[d]);
    }
    forall l | 0 <= l < |after.lines|
      ensures !HoldsFault(after.lines[l], fault)
    {
      assert l < |rows.lines| ==> !HoldsFault(rows.lines[l], fault);
    }
  }

  lemma {:induction false} RunLeavesFree(rows: Rows, calls: seq<Call>, contract: nat, start: int, fault: nat)
    requires forall n :: 0 <= n < |calls| ==> !calls[n].CallGenerate?
    requires BillingInv(rows) && !PeriodTaken(rows.drafts, contract, start) && !FaultBilled(rows.lines, fault)
    ensures var after := Run(rows, calls);
            && BillingInv(after) && |after.drafts| >= |rows.drafts|
            && !PeriodTaken(after.drafts, contract, start) && !FaultBilled(after.lines, fault)
  {
    hide BillingInv, PeriodTaken, FaultBilled, After;
    if calls != [] {
      var n := |calls| - 1;
      RunLeavesFree(rows, calls[..n], contract, start, fault);
      CallKeepsBilling(Run(rows, calls[..n]), calls[n]);
      CallLeavesFree(Run(rows, calls[..n]), calls[n], contract, start, fault);
      DraftsStay(Run(rows, calls[..n]), calls[n]);
    }
  }

  lemma DraftsStay(rows: Rows, call: Call)
    ensures |After(rows, call).drafts| >= |rows.drafts|
  {
    hide Money.TotalsOf, AmountsOf, AmountOf, WaitsForPrice, NumberTaken, Generate;
    if call.CallGenerate? {
      GenerateExtends(rows, call.contracts, call.today, call.faults);
    }
  }

  /** A draft is cancelled, anything but the generator is called, and the generator runs with the period still due: the
      period has a new draft, and each fault the cancelled one billed that is still to bill is on it, billed once,
      if no other period waiting for its draft bills it too. */
  lemma RedraftedAfterCancel(rows: Rows, d: nat, reversed: bool, l: nat, between: seq<Call>, cs: seq<Contract>, today: int,
                             faults: seq<Fault>, i: nat, k: nat, f: Fault)
    requires BillingInv(rows) && Cancel(rows, d, reversed).Ok?
    requires l < |rows.lines| && rows.lines[l].draft == d && HoldsFault(rows.lines[l], f.id)
    requires forall n :: 0 <= n < |between| ==> !between[n].CallGenerate?
    requires DistinctFaults(faults) && DistinctContracts(cs) && IsDue(cs, today, i, k)
    requires cs[i].id == rows.drafts[d].contract && PeriodsFor(cs[i])[k].start == rows.drafts[d].start
    requires f in faults && ToBill(f, cs[i], PeriodsFor(cs[i])[k])
    ensures var waiting := Run(Cancel(rows, d, reversed).value, between);
            var again := Generate(waiting, cs, today, faults);
            && PeriodTaken(again.drafts, rows.drafts[d].contract, rows.drafts[d].start)
            && FaultBilled(again.lines, f.id) && EachFaultOnce(again.lines)
            && (OnlyBiller(waiting, cs, today, f, i, k) ==>
                  Bills(again, |rows.drafts|, rows.drafts[d].contract, rows.drafts[d].start, f))
  {
    var cancelled := Cancel(rows, d, reversed).value;
    var waiting := Run(cancelled, between);
    var again := Generate(waiting, cs, today, faults);
    CancelFreesPeriod(rows, d, reversed);
    CancelFreesFaults(rows, d, reversed, l);
    CancelKeeps(rows, d, reversed);
    assert |cancelled.drafts| == |rows.drafts|;
    hide BillingInv, PeriodTaken, FaultBilled, EachFaultOnce, PeriodsFor, Generate, ToBill, Cancel, Run, OnlyBiller, Bills;
    RunLeavesFree(cancelled, between, rows.drafts[d].contract, rows.drafts[d].start, f.id);
    GenerateKeeps(waiting, cs, today, faults);
    InvParts(again);
    DuePeriodsAreDrafted(waiting, cs, today, faults, i, k);
    UntakenIsGenerated(waiting, cs, today, faults, i, k, f);
    if OnlyBiller(waiting, cs, today, f, i, k) {
      GenerateBills(waiting, cs, today, faults, i, k, f);
      BillsFromEarlier(again, |waiting.drafts|, |rows.drafts|, cs[i].id, PeriodsFor(cs[i])[k].start, f);
    }
  }
}
