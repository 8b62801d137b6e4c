/** What every run of the generator, the edits and the lifecycle keeps (apps/billing/services.py, apps/billing/models.py). */
module DraftingRuns {
  import opened Drafting
  import opened Money
  import opened Periods
  import opened Results
  import opened Sums

  // The invariant ---------------------------------------------------------------------

  ghost predicate LinesKnown(rows: Rows) {
    forall l :: 0 <= l < |rows.lines| ==> rows.lines[l].draft < |rows.drafts|
  }

  /** At most one draft not cancelled for each contract and period start. */
  ghost predicate OnePerPeriod(drafts: seq<Invoice>) {
    forall d, e :: 0 <= d < e < |drafts| && drafts[d].status != Cancelled && drafts[e].status != Cancelled ==>
      drafts[d].contract != drafts[e].contract || drafts[d].start != drafts[e].start
  }

  /** A fault is held only by a line of a draft that is not cancelled. */
  ghost predicate HeldByLive(rows: Rows)
    requires LinesKnown(rows)
  {
    forall l :: 0 <= l < |rows.lines| && rows.lines[l].fault.Some? && !rows.lines[l].released && !rows.lines[l].deleted
      ==> rows.drafts[rows.lines[l].draft].status != Cancelled
  }

  ghost predicate AllPriced(lines: seq<Line>) {
    forall l :: 0 <= l < |lines| ==> WellPriced(lines[l])
  }

  /** The amount of each line of the draft that is not removed, by the line's place. */
  function AmountAt(lines: seq<Line>, d: nat): nat -> int {
    (l: nat) => if l < |lines| && lines[l].draft == d && !lines[l].deleted then lines[l].amount else 0
  }

  /** What the lines of a draft come to. */
  function Subtotal(lines: seq<Line>, d: nat): int {
    SumTo(|lines|, AmountAt(lines, d))
  }

  /** The draft asks what its lines come to, with VAT at its rate. */
  ghost predicate AsksItsLines(rows: Rows, d: nat)
    requires d < |rows.drafts|
  {
    var t := rows.drafts[d].totals;
    && t.subtotal == Subtotal(rows.lines, d)
    && t.vat == VatOf(t.subtotal, rows.drafts[d].rate)
    && t.total == t.subtotal + t.vat
  }

  ghost predicate TotalsFollow(rows: Rows) {
    forall d :: 0 <= d < |rows.drafts| ==> AsksItsLines(rows, d)
  }

  lemma SumAppend(amounts: seq<int>, amount: int)
    ensures Sum(amounts + [amount]) == Sum(amounts) + amount
  {
    assert (amounts + [amount])[..|amounts|] == amounts;
  }

  lemma {:induction false} SubtotalIsSum(lines: seq<Line>, d: nat)
    ensures Sum(AmountsOf(lines, d)) == Subtotal(lines, d)
  {
    hide Sum, SumTo;
    if lines != [] {
      var n := |lines| - 1;
      var before := AmountsOf(lines[..n], d);
      SubtotalIsSum(lines[..n], d);
      SumCongruent(n, AmountAt(lines[..n], d), AmountAt(lines, d));
      SumStep(|lines|, AmountAt(lines, d));
      SumAppend(before, lines[n].amount);
      assert before + [] == before;
    } else {
      SumZero(0, AmountAt(lines, d));
      EmptySum();
    }
  }

  lemma EmptySum()
    ensures Sum([]) == 0
  {
  }

  /** Totals set from the amounts of a draft's lines are those, and no others are. */
  lemma TotalsMean(rows: Rows, d: nat)
    requires d < |rows.drafts|
    ensures AsksItsLines(rows, d) <==>
            rows.drafts[d].totals == TotalsOf(AmountsOf(rows.lines, d), rows.drafts[d].rate)
  {
    SubtotalIsSum(rows.lines, d);
    hide Subtotal, VatOf, AmountsOf, Sum;
  }

  predicate IsIssued(d: Invoice) {
    d.status in {Issued, Paid}
  }

  /** No line of an issued draft waits for a price, but a removed one. */
  ghost predicate IssuedArePriced(rows: Rows)
    requires LinesKnown(rows)
  {
    forall l :: 0 <= l < |rows.lines| && !rows.lines[l].deleted && IsIssued(rows.drafts[rows.lines[l].draft]) ==>
      !rows.lines[l].needsPrice
  }

  ghost predicate NumbersUnique(drafts: seq<Invoice>) {
    && (forall d :: 0 <= d < |drafts| && IsIssued(drafts[d]) ==> drafts[d].number.Some?)
    && forall d, e :: 0 <= d < e < |drafts| && IsIssued(drafts[d]) && IsIssued(drafts[e]) ==>
         drafts[d].number != drafts[e].number
  }

  /** A fault is given back only by cancelling its draft. */
  ghost predicate ReleasedByCancel(rows: Rows)
    requires LinesKnown(rows)
  {
    forall l :: 0 <= l < |rows.lines| && rows.lines[l].released ==> rows.drafts[rows.lines[l].draft].status == Cancelled
  }

  ghost predicate BillingInv(rows: Rows) {
    && LinesKnown(rows) && ReleasedByCancel(rows) && OnePerPeriod(rows.drafts)
    && EachFaultOnce(rows.lines) && HeldByLive(rows)
    && AllPriced(rows.lines) && TotalsFollow(rows) && IssuedArePriced(rows) && NumbersUnique(rows.drafts)
  }

  // Lines of one draft ------------------------------------------------------------------

  /** Only lines of this draft are new or changed. */
  ghost predicate OnlyLinesOf(lines: seq<Line>, lines': seq<Line>, d: nat) {
    && |lines| <= |lines'|
    && (forall l :: 0 <= l < |lines| ==>
          lines'[l].draft == lines[l].draft && (lines[l].draft != d ==> lines'[l] == lines[l]))
    && (forall l :: |lines| <= l < |lines'| ==> lines'[l].draft == d)
  }

  /** No line is given back: not by the change, and not from the start. */
  ghost predicate NoneReleased(lines: seq<Line>, lines': seq<Line>) {
    forall l :: 0 <= l < |lines'| && lines'[l].released ==> l < |lines| && lines[l].released
  }

  lemma {:induction false} OtherAmountsSame(lines: seq<Line>, lines': seq<Line>, d: nat, e: nat)
    requires OnlyLinesOf(lines, lines', d) && e != d
    ensures AmountsOf(lines', e) == AmountsOf(lines, e)
    decreases |lines'|
  {
    var n := |lines'| - 1;
    if |lines| < |lines'| {
      OtherAmountsSame(lines, lines'[..n], d, e);
    } else if n >= 0 {
      OtherAmountsSame(lines[..n], lines'[..n], d, e);
    }
  }

  lemma {:induction false} NoLinesNoAmounts(lines: seq<Line>, d: nat)
    requires forall l :: 0 <= l < |lines| ==> lines[l].draft != d
    ensures AmountsOf(lines, d) == []
  {
    if lines != [] {
      NoLinesNoAmounts(lines[..|lines| - 1], d);
    }
  }

  /** A draft's lines changed, and its totals set from them: all as before, if the changed lines are well priced and
      no fault is held twice. */
  lemma ReworkKeeps(rows: Rows, lines': seq<Line>, d: nat)
    requires BillingInv(rows) && d < |rows.drafts| && rows.drafts[d].status == InDraft
    requires OnlyLinesOf(rows.lines, lines', d) && NoneReleased(rows.lines, lines')
    requires AllPriced(lines') && EachFaultOnce(lines')
    ensures BillingInv(Recomputed(Rows(rows.drafts, lines'), d))
  {
    hide TotalsOf, AmountsOf, WellPriced, AsksItsLines;
    var after := Recomputed(Rows(rows.drafts, lines'), d);
    forall e | 0 <= e < |after.drafts|
      ensures AsksItsLines(after, e)
    {
      if e != d {
        OtherAmountsSame(rows.lines, lines', d, e);
        assert AsksItsLines(rows, e);
        TotalsMean(rows, e);
      }
      TotalsMean(after, e);
    }
    ReworkedLines(rows, lines', d);
  }

  lemma ReworkedLines(rows: Rows, lines': seq<Line>, d: nat)
    requires LinesKnown(rows) && HeldByLive(rows) && IssuedArePriced(rows) && ReleasedByCancel(rows)
    requires d < |rows.drafts| && rows.drafts[d].status == InDraft && OnlyLinesOf(rows.lines, lines', d)
    requires NoneReleased(rows.lines, lines')
    ensures var after := Recomputed(Rows(rows.drafts, lines'), d);
            LinesKnown(after) && HeldByLive(after) && IssuedArePriced(after) && ReleasedByCancel(after)
  {
    hide TotalsOf, AmountsOf;
  }

  // Edits ---------------------------------------------------------------------------------

  lemma AddLineKeeps(rows: Rows, d: nat, quantity: int, price: int)
    requires BillingInv(rows) && AddLine(rows, d, quantity, price).Ok?
    ensures BillingInv(AddLine(rows, d, quantity, price).value)
  {
    hide TotalsOf, AmountsOf, BillingInv;
    var line := Line(d, None, None, false, quantity, None, Some(price), LineAmount(quantity, Some(price)), false, false);
    InvParts(rows);
    ReworkKeeps(rows, rows.lines + [line], d);
  }

  lemma InvParts(rows: Rows)
    requires BillingInv(rows)
    ensures LinesKnown(rows) && AllPriced(rows.lines) && EachFaultOnce(rows.lines)
  {
  }

  lemma EditLineKeeps(rows: Rows, l: nat, quantity: Option<int>, price: Option<Option<int>>)
    requires BillingInv(rows) && EditLine(rows, l, quantity, price).Ok?
    ensures BillingInv(EditLine(rows, l, quantity, price).value)
  {
    hide TotalsOf, AmountsOf, BillingInv, AmountOf;
    InvParts(rows);
    ReworkKeeps(rows, rows.lines[l := Edited(rows.lines[l], quantity, price)], rows.lines[l].draft);
  }

  lemma RemoveLineKeeps(rows: Rows, l: nat)
    requires BillingInv(rows) && RemoveLine(rows, l).Ok?
    ensures BillingInv(RemoveLine(rows, l).value)
  {
    hide TotalsOf, AmountsOf, BillingInv, AmountOf;
    InvParts(rows);
    ReworkKeeps(rows, rows.lines[l := rows.lines[l].(deleted := true)], rows.lines[l].draft);
  }

  // The lifecycle ---------------------------------------------------------------------------

  /** Totals set again from lines that have not changed are the same totals. */
  lemma RecomputeAgain(rows: Rows, d: nat)
    requires TotalsFollow(rows) && d < |rows.drafts|
    ensures Recomputed(rows, d) == rows
  {
    hide TotalsOf, AmountsOf, AsksItsLines;
    assert AsksItsLines(rows, d);
    TotalsMean(rows, d);
    assert rows.drafts[d := rows.drafts[d]] == rows.drafts;
  }

  lemma IssuedNumbers(drafts: seq<Invoice>, d: nat, number: nat, draft: Invoice)
    requires NumbersUnique(drafts) && d < |drafts| && !NumberTaken(drafts, number, d)
    requires draft.number == Some(number)
    ensures NumbersUnique(drafts[d := draft])
  {
  }

  lemma SameTotals(rows: Rows, after: Rows)
    requires TotalsFollow(rows) && after.lines == rows.lines && |after.drafts| == |rows.drafts|
    requires forall e :: 0 <= e < |rows.drafts| ==>
               after.drafts[e].totals == rows.drafts[e].totals && after.drafts[e].rate == rows.drafts[e].rate
    ensures TotalsFollow(after)
  {
    forall e | 0 <= e < |after.drafts|
      ensures AsksItsLines(after, e)
    {
      assert AsksItsLines(rows, e);
    }
  }

  /** A draft with another status and number, and nothing else. */
  lemma RestatusKeeps(rows: Rows, d: nat, draft: Invoice)
    requires BillingInv(rows) && d < |rows.drafts| && Live(rows.drafts[d]) && Live(draft)
    requires draft == rows.drafts[d].(status := draft.status, number := draft.number)
    requires !WaitsForPrice(rows.lines, d) && NumbersUnique(rows.drafts[d := draft])
    ensures BillingInv(rows.(drafts := rows.drafts[d := draft]))
  {
    hide TotalsOf, AmountsOf, WellPriced;
    var after := rows.(drafts := rows.drafts[d := draft]);
    assert forall e :: 0 <= e < |rows.drafts| && e != d ==> after.drafts[e] == rows.drafts[e];
    SameTotals(rows, after);
  }

  lemma IssueKeeps(rows: Rows, d: nat, number: nat, posted: bool)
    requires BillingInv(rows) && Issue(rows, d, number, posted).Ok?
    ensures BillingInv(Issue(rows, d, number, posted).value)
  {
    RecomputeAgain(rows, d);
    var draft := Issue(rows, d, number, posted).value.drafts[d];
    IssuedNumbers(rows.drafts, d, number, draft);
    hide BillingInv, Recomputed;
    RestatusKeeps(rows, d, draft);
  }

  lemma SyncKeeps(rows: Rows, d: nat, covered: bool)
    requires BillingInv(rows) && Sync(rows, d, covered).Ok?
    ensures BillingInv(Sync(rows, d, covered).value)
  {
    hide TotalsOf, AmountsOf;
    var after := Sync(rows, d, covered).value;
    assert forall e :: 0 <= e < |rows.drafts| && e != d ==> after.drafts[e] == rows.drafts[e];
    SameTotals(rows, after);
  }

  /** Lines that differ only in being released. */
  ghost predicate SameButReleased(lines: seq<Line>, lines': seq<Line>) {
    && |lines'| == |lines|
    && forall l :: 0 <= l < |lines| ==> lines'[l] == lines[l].(released := lines'[l].released)
  }

  lemma {:induction false} ReleasedAmounts(lines: seq<Line>, lines': seq<Line>, e: nat)
    requires SameButReleased(lines, lines')
    ensures AmountsOf(lines', e) == AmountsOf(lines, e)
  {
    if lines != [] {
      ReleasedAmounts(lines[..|lines| - 1], lines'[..|lines| - 1], e);
    }
  }

  lemma CancelKeeps(rows: Rows, d: nat, reversed: bool)
    requires BillingInv(rows) && Cancel(rows, d, reversed).Ok?
    ensures BillingInv(Cancel(rows, d, reversed).value)
  {
    hide TotalsOf, AmountsOf, AmountOf;
    var after := Cancel(rows, d, reversed).value;
    CancelReleases(rows, d);
    forall e | 0 <= e < |after.drafts|
      ensures AsksItsLines(after, e)
    {
      assert AsksItsLines(rows, e);
      ReleasedAmounts(rows.lines, after.lines, e);
      TotalsMean(rows, e);
      TotalsMean(after, e);
    }
    CancelledPriced(rows, after, d);
  }

  lemma CancelReleases(rows: Rows, d: nat)
    requires LinesKnown(rows) && HeldByLive(rows) && EachFaultOnce(rows.lines) && d < |rows.drafts|
    requires ReleasedByCancel(rows)
    ensures SameButReleased(rows.lines, Released(rows.lines, d))
    ensures var after := Rows(rows.drafts[d := rows.drafts[d].(status := Cancelled)], Released(rows.lines, d));
            LinesKnown(after) && HeldByLive(after) && EachFaultOnce(after.lines) && ReleasedByCancel(after)
  {
    var lines := Released(rows.lines, d);
    forall k, l | 0 <= k < l < |lines| && lines[k].fault.Some? && HoldsFault(lines[k], lines[k].fault.value)
      ensures !HoldsFault(lines[l], lines[k].fault.value)
    {
      assert !HoldsFault(rows.lines[l], rows.lines[k].fault.value);
    }
  }

  lemma CancelledPriced(rows: Rows, after: Rows, d: nat)
    requires LinesKnown(rows) && AllPriced(rows.lines) && IssuedArePriced(rows)
    requires NumbersUnique(rows.drafts) && OnePerPeriod(rows.drafts)
    requires d < |rows.drafts| && after.drafts == rows.drafts[d := rows.drafts[d].(status := Cancelled)]
    requires SameButReleased(rows.lines, after.lines)
    ensures LinesKnown(after) && AllPriced(after.lines) && IssuedArePriced(after)
    ensures NumbersUnique(after.drafts) && OnePerPeriod(after.drafts)
  {
    hide AmountOf;
  }

  // Generation ---------------------------------------------------------------------------------

  lemma EmptyTotals(rate: nat)
    ensures TotalsOf([], rate) == Totals(0, 0, 0)
  {
  }

  lemma NewDraftTotals(rows: Rows, draft: Invoice)
    requires LinesKnown(rows) && TotalsFollow(rows) && draft.totals == Totals(0, 0, 0)
    ensures TotalsFollow(Rows(rows.drafts + [draft], rows.lines))
  {
    hide TotalsOf, AmountsOf, AsksItsLines;
    var d := |rows.drafts|;
    var after := Rows(rows.drafts + [draft], rows.lines);
    NoLinesNoAmounts(rows.lines, d);
    EmptyTotals(draft.rate);
    TotalsMean(after, d);
    forall e | 0 <= e < d
      ensures AsksItsLines(after, e)
    {
      assert AsksItsLines(rows, e);
      TotalsMean(rows, e);
      TotalsMean(after, e);
    }
  }

  lemma NewDraftPriced(rows: Rows, draft: Invoice)
    requires LinesKnown(rows) && IssuedArePriced(rows) && !IsIssued(draft)
    ensures LinesKnown(Rows(rows.drafts + [draft], rows.lines))
    ensures IssuedArePriced(Rows(rows.drafts + [draft], rows.lines))
  {
    hide WaitsForPrice;
  }

  /** A draft without lines, for a period not taken. */
  lemma NewDraftKeeps(rows: Rows, c: nat, start: int, end: int, rate: nat)
    requires BillingInv(rows) && !PeriodTaken(rows.drafts, c, start)
    ensures BillingInv(Rows(rows.drafts + [Invoice(c, start, end, rate, InDraft, Totals(0, 0, 0), None)], rows.lines))
  {
    hide TotalsFollow, IssuedArePriced, AllPriced, EachFaultOnce;
    var draft := Invoice(c, start, end, rate, InDraft, Totals(0, 0, 0), None);
    NewDraftTotals(rows, draft);
    NewDraftPriced(rows, draft);
  }

  lemma NewLinesPriced(d: nat, c: Contract, p: Period, fs: seq<Fault>)
    requires NominalDays(p) > 0
    ensures var lines := FeeLines(d, c, p) + FaultLines(d, fs);
            AllPriced(lines) && forall l :: 0 <= l < |lines| ==> lines[l].draft == d && !lines[l].released
  {
    hide FeeLines, ProratedAmount;
    forall k | 0 <= k < |fs|
      ensures WellPriced(FaultLine(d, fs[k]))
    {
    }
  }

  lemma FilledKeeps(rows: Rows, more: seq<Line>, d: nat)
    requires BillingInv(rows) && d < |rows.drafts| && rows.drafts[d].status == InDraft
    requires AllPriced(more) && (forall l :: 0 <= l < |more| ==> more[l].draft == d && !more[l].released)
    requires EachFaultOnce(rows.lines + more)
    ensures BillingInv(Recomputed(Rows(rows.drafts, rows.lines + more), d))
  {
    hide BillingInv, WellPriced, EachFaultOnce;
    InvParts(rows);
    ReworkKeeps(rows, rows.lines + more, d);
  }

  lemma DraftForKeeps(rows: Rows, c: Contract, p: Period, rate: nat, faults: seq<Fault>)
    requires BillingInv(rows) && NominalDays(p) > 0
    ensures BillingInv(DraftFor(rows, c, p, rate, faults))
  {
    hide BillingInv, FeeLines, FaultLines, BillableFaults, EachFaultOnce, PeriodTaken, Recomputed, AllPriced;
    if !PeriodTaken(rows.drafts, c.id, p.start) {
      var d := |rows.drafts|;
      var fs := BillableFaults(rows.lines, c, p, faults);
      var lines := FeeLines(d, c, p) + FaultLines(d, fs);
      NewDraftKeeps(rows, c.id, p.start, p.end, rate);
      NewLinesPriced(d, c, p, fs);
      DraftedLines(rows, c, p, rate, faults);
      if EachFaultOnce(rows.lines + lines) {
        FilledKeeps(Rows(rows.drafts + [Invoice(c.id, p.start, p.end, rate, InDraft, Totals(0, 0, 0), None)], rows.lines),
                    lines, d);
      }
    }
  }

  lemma DraftedLines(rows: Rows, c: Contract, p: Period, rate: nat, faults: seq<Fault>)
    requires NominalDays(p) > 0
    ensures Drafted(rows, c, p, rate, faults).lines ==
            rows.lines + (FeeLines(|rows.drafts|, c, p)
                          + FaultLines(|rows.drafts|, BillableFaults(rows.lines, c, p, faults)))
  {
  }

  lemma {:induction false} DraftPeriodsKeep(rows: Rows, c: Contract, ps: seq<Period>, today: int, faults: seq<Fault>)
    requires BillingInv(rows) && forall k :: 0 <= k < |ps| ==> NominalDays(ps[k]) > 0
    ensures BillingInv(DraftPeriods(rows, c, ps, today, faults))
  {
    hide BillingInv, DraftFor;
    if ps != [] {
      DraftPeriodsKeep(rows, c, ps[..|ps| - 1], today, faults);
      var before, p := DraftPeriods(rows, c, ps[..|ps| - 1], today, faults), ps[|ps| - 1];
      if Due(p, today) && c.rate.Some? {
        DraftForKeeps(before, c, p, c.rate.value, faults);
      }
    }
  }

  lemma {:induction false} GenerateKeeps(rows: Rows, cs: seq<Contract>, today: int, faults: seq<Fault>)
    requires BillingInv(rows)
    ensures BillingInv(Generate(rows, cs, today, faults))
  {
    hide BillingInv, DraftPeriods, PeriodsFor;
    if cs != [] {
      GenerateKeeps(rows, cs[..|cs| - 1], today, faults);
      var before, c := Generate(rows, cs[..|cs| - 1], today, faults), cs[|cs| - 1];
      if Generated(c, today) {
        DraftPeriodsKeep(before, c, PeriodsFor(c), today, faults);
      }
    }
  }

  // Main results ---------------------------------------------------------------------------------

  lemma CallKeepsBilling(rows: Rows, call: Call)
    requires BillingInv(rows)
    ensures BillingInv(After(rows, call))
  {
    hide BillingInv, AddLine, EditLine, RemoveLine, Issue, Sync, Cancel, Generate;
    if Perform(rows, call).Ok? {
      match call
      case CallGenerate(cs, today, faults) => GenerateKeeps(rows, cs, today, faults);
      case CallAddLine(d, quantity, price) => AddLineKeeps(rows, d, quantity, price);
      case CallEditLine(l, quantity, price) => EditLineKeeps(rows, l, quantity, price);
      case CallRemoveLine(l) => RemoveLineKeeps(rows, l);
      case CallIssue(d, number, posted) => IssueKeeps(rows, d, number, posted);
      case CallSync(d, covered) => SyncKeeps(rows, d, covered);
      case CallCancel(d, reversed) => CancelKeeps(rows, d, reversed);
    }
  }

  /** Over any run: one live draft for each contract and period, each fault on one line of a live draft at most,
      every draft's totals those of its lines, no issued line unpriced and no number used twice. */
  lemma {:induction false} RunKeepsBilling(calls: seq<Call>)
    ensures BillingInv(Run(NO_ROWS, calls))
  {
    hide After;
    if calls != [] {
      RunKeepsBilling(calls[..|calls| - 1]);
      CallKeepsBilling(Run(NO_ROWS, calls[..|calls| - 1]), calls[|calls| - 1]);
    }
  }

  /** No fault is ever billed twice: of two lines that bill it, one has been removed or its draft cancelled. */
  lemma FaultBilledOnce(calls: seq<Call>, k: nat, l: nat)
    requires var rows := Run(NO_ROWS, calls);
             k < l < |rows.lines| && rows.lines[k].fault.Some? && rows.lines[k].fault == rows.lines[l].fault
    ensures var rows := Run(NO_ROWS, calls);
            || rows.lines[k].deleted || rows.lines[l].deleted
            || (rows.lines[k].draft < |rows.drafts| && rows.drafts[rows.lines[k].draft].status == Cancelled)
            || (rows.lines[l].draft < |rows.drafts| && rows.drafts[rows.lines[l].draft].status == Cancelled)
  {
    hide Run;
    RunKeepsBilling(calls);
    var rows := Run(NO_ROWS, calls);
    assert HoldsFault(rows.lines[k], rows.lines[k].fault.value) ==> !HoldsFault(rows.lines[l], rows.lines[k].fault.value);
    hide AllPriced, TotalsFollow, NumbersUnique;
  }
}
