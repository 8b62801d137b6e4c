/** The invoice drafts and lines of a firm, changed in place (apps/billing/services.py). */
module DraftingStore {
  import Calendar
  import opened Drafting
  import DraftingLaws
  import Money
  import opened Periods
  import opened Results

  /** The lifts the period covers, each for the days it was covered. */
  method LiftLines(d: nat, covers: seq<Cover>, p: Period) returns (lines: seq<Line>)
    requires NominalDays(p) > 0
    ensures lines == CoverLines(d, covers, p)
  {
    hide Prorated;
    lines := [];
    for k := 0 to |covers|
      invariant lines == CoverLines(d, covers[..k], p)
    {
      assert covers[..k + 1][..k] == covers[..k];
      var cover := covers[k];
      if cover.added <= p.end && (cover.removed.None? || cover.removed.value >= p.start) {
        var covered := CoverDays(cover, p);
        if covered == 0 {
          continue;
        }
        lines := lines + [Prorated(d, Some(cover.elevator), p, covered, cover.price)];
      }
    }
    assert covers[..|covers|] == covers;
  }

  /** The faults to bill, looked through in order. */
  method ChosenFaults(lines: seq<Line>, c: Contract, p: Period, faults: seq<Fault>) returns (chosen: seq<Fault>)
    ensures chosen == BillableFaults(lines, c, p, faults)
  {
    hide ToBill, FaultBilled;
    chosen := [];
    for k := 0 to |faults|
      invariant chosen == BillableFaults(lines, c, p, faults[..k])
    {
      assert faults[..k + 1][..k] == faults[..k];
      if ToBill(faults[k], c, p) && !FaultBilled(lines, faults[k].id) {
        chosen := chosen + [faults[k]];
      }
    }
    assert faults[..|faults|] == faults;
  }

  class Store {
    var drafts: seq<Invoice>
    var lines: seq<Line>

    function Contents(): Rows
      reads this
    {
      Rows(drafts, lines)
    }

    constructor ()
      ensures Contents() == NO_ROWS
    {
      drafts, lines := [], [];
    }

    /** Totals from the lines, while it is a draft. */
    method Recompute(d: nat)
      requires d < |drafts|
      modifies `drafts
      ensures Contents() == Recomputed(old(Contents()), d)
    {
      var draft := drafts[d];
      if draft.status != InDraft {
        return;
      }
      var amounts := [];
      for l := 0 to |lines|
        invariant amounts == AmountsOf(lines[..l], d) && drafts == old(drafts)
      {
        assert lines[..l + 1][..l] == lines[..l];
        if lines[l].draft == d && !lines[l].deleted {
          amounts := amounts + [lines[l].amount];
        }
      }
      assert lines[..|lines|] == lines;
      drafts := drafts[d := draft.(totals := Money.TotalsOf(amounts, draft.rate))];
    }

    /** The draft for one period with its lines, or nothing when a unique key refuses it. */
    method DraftFor(c: Contract, p: Period, rate: nat, faults: seq<Fault>) returns (created: bool)
      requires NominalDays(p) > 0
      modifies this
      ensures Contents() == Drafting.DraftFor(old(Contents()), c, p, rate, faults)
      ensures created == (Contents() != old(Contents()))
    {
      var before, linesBefore := drafts, lines;
      if PeriodTaken(drafts, c.id, p.start) {
        return false;
      }
      var d := |drafts|;
      drafts := drafts + [Invoice(c.id, p.start, p.end, rate, InDraft, Money.Totals(0, 0, 0), None)];
      var fees := [];
      if c.pricing.Flat? {
        fees := [Prorated(d, None, p, OverlapDays(p.start, p.end, Calendar.Ordinal(c.start), LastBilledDay(c)),
            c.pricing.monthlyFee)];
      } else {
        fees := LiftLines(d, c.covers, p);
      }
      var chosen := ChosenFaults(lines, c, p, faults);
      lines := lines + (fees + FaultLines(d, chosen));
      Recompute(d);
      if !EachFaultOnce(lines) {
        drafts, lines := before, linesBefore;
        return false;
      }
      return true;
    }

    /** Drafts every due period of every contract still billed. */
    method Generate(contracts: seq<Contract>, today: int, faults: seq<Fault>)
      modifies this
      ensures Contents() == Drafting.Generate(old(Contents()), contracts, today, faults)
    {
      hide DraftPeriods, PeriodsFor;
      for i := 0 to |contracts|
        invariant Contents() == Drafting.Generate(old(Contents()), contracts[..i], today, faults)
      {
        assert contracts[..i + 1][..i] == contracts[..i];
        if Generated(contracts[i], today) {
          GenerateFor(contracts[i], today, faults);
        }
      }
      assert contracts[..|contracts|] == contracts;
    }

    /** One contract's periods, up to the first that has not ended. */
    method GenerateFor(c: Contract, today: int, faults: seq<Fault>)
      modifies this
      ensures Contents() == DraftPeriods(old(Contents()), c, PeriodsFor(c), today, faults)
    {
      ghost var rows := Rows(drafts, lines);
      assert rows == Contents();
      hide *;
      var existing := LiveStarts(drafts, c.id);
      var ps := PeriodsOf(c.start, LastBilledDay(c), c.billing);
      EndsRise(c, ps);
      var yesterday := today - 1;
      var k := 0;
      NothingDrafted(rows, c, ps, today, faults);
      while k < |ps|
        invariant k <= |ps| && Rising(ps)
        invariant forall j :: 0 <= j < |ps| ==> NominalDays(ps[j]) > 0
        invariant Contents() == DraftPeriods(rows, c, ps[..k], today, faults)
      {
        var p := ps[k];
        if p.end > yesterday {
          break;
        }
        OnePeriodMore(rows, c, ps, today, faults, k, existing);
        k := k + 1;
        if p.end < today - LOOKBACK || p.start in existing {
          continue;
        }
        if c.rate.None? {
          continue;
        }
        var _ := DraftFor(c, p, c.rate.value, faults);
      }
      NoneDueAfter(rows, c, ps, today, faults, k);
    }

    method AddLine(d: nat, quantity: int, price: int) returns (done: Result<bool, Refusal>)
      modifies this
      ensures done == Answer(Drafting.AddLine(old(Contents()), d, quantity, price))
      ensures Contents() == After(old(Contents()), CallAddLine(d, quantity, price))
    {
      if d >= |drafts| {
        return Refused(NotFound);
      }
      if drafts[d].status != InDraft {
        return Refused(TransitionNotAllowed);
      }
      lines := lines + [Line(d, None, None, false, quantity, None, Some(price), Money.LineAmount(quantity, Some(price)),
          false, false)];
      Recompute(d);
      return Ok(true);
    }

    method EditLine(l: nat, quantity: Option<int>, price: Option<Option<int>>) returns (done: Result<bool, Refusal>)
      modifies this
      ensures done == Answer(Drafting.EditLine(old(Contents()), l, quantity, price))
      ensures Contents() == After(old(Contents()), CallEditLine(l, quantity, price))
    {
      if l >= |lines| || lines[l].deleted || lines[l].draft >= |drafts| {
        return Refused(NotFound);
      }
      var line := lines[l];
      if drafts[line.draft].status != InDraft {
        return Refused(TransitionNotAllowed);
      }
      if quantity.Some? {
        line := line.(quantity := quantity.value, share := None);
      }
      if price.Some? {
        line := line.(price := price.value);
      }
      line := line.(needsPrice := line.price.None?, amount := AmountOf(line.quantity, line.share, line.price));
      lines := lines[l := line];
      Recompute(line.draft);
      return Ok(true);
    }

    method RemoveLine(l: nat) returns (done: Result<bool, Refusal>)
      modifies this
      ensures done == Answer(Drafting.RemoveLine(old(Contents()), l))
      ensures Contents() == After(old(Contents()), CallRemoveLine(l))
    {
      if l >= |lines| || lines[l].deleted || lines[l].draft >= |drafts| {
        return Refused(NotFound);
      }
      if drafts[lines[l].draft].status != InDraft {
        return Refused(TransitionNotAllowed);
      }
      lines := lines[l := lines[l].(deleted := true)];
      Recompute(lines[l].draft);
      return Ok(true);
    }

    method Issue(d: nat, number: nat, posted: bool) returns (done: Result<bool, Refusal>)
      modifies this
      ensures done == Answer(Drafting.Issue(old(Contents()), d, number, posted))
      ensures Contents() == After(old(Contents()), CallIssue(d, number, posted))
    {
      hide AmountsOf, WaitsForPrice, NumberTaken;
      if d >= |drafts| {
        return Refused(NotFound);
      }
      if drafts[d].status != InDraft {
        return Refused(TransitionNotAllowed);
      }
      if WaitsForPrice(lines, d) {
        return Refused(LinesNeedPrice);
      }
      if NumberTaken(drafts, number, d) {
        return Refused(DuplicateNumber);
      }
      var before := drafts;
      Recompute(d);
      var total := drafts[d].totals.total;
      drafts := drafts[d := drafts[d].(status := Issued, number := Some(number))];
      if total != 0 && !(posted && total > 0) {
        drafts := before;
        return Refused(LedgerRefused);
      }
      if total == 0 {
        drafts := drafts[d := drafts[d].(status := Paid)];
      }
      return Ok(true);
    }

    method Cancel(d: nat, reversed: bool) returns (done: Result<bool, Refusal>)
      modifies this
      ensures done == Answer(Drafting.Cancel(old(Contents()), d, reversed))
      ensures Contents() == After(old(Contents()), CallCancel(d, reversed))
    {
      if d >= |drafts| {
        return Refused(NotFound);
      }
      if drafts[d].status == Cancelled {
        return Refused(TransitionNotAllowed);
      }
      if drafts[d].status != InDraft && !reversed {
        return Refused(LedgerRefused);
      }
      drafts := drafts[d := drafts[d].(status := Cancelled)];
      ghost var cancelled := drafts;
      for l := 0 to |lines|
        invariant drafts == cancelled && |lines| == |old(lines)|
        invariant forall k :: 0 <= k < |lines| ==> lines[k] == if k < l then Released(old(lines), d)[k] else old(lines)[k]
      {
        if lines[l].draft == d && lines[l].fault.Some? && !lines[l].released && !lines[l].deleted {
          lines := lines[l := lines[l].(released := true)];
        }
      }
      assert lines == Released(old(lines), d);
      return Ok(true);
    }
  }

  function Answer(outcome: Result<Rows, Refusal>): Result<bool, Refusal> {
    if outcome.Ok? then Ok(true) else Refused(outcome.error)
  }

  // Why the loop may stop early, and skip what it read before it ----------------------------

  ghost predicate Rising(ps: seq<Period>) {
    && (forall k :: 0 <= k < |ps| ==> NominalDays(ps[k]) > 0)
    && forall j, k :: 0 <= j < k < |ps| ==> ps[j].end < ps[k].end
  }

  lemma EndsRise(c: Contract, ps: seq<Period>)
    requires ps == PeriodsFrom(c.start, LastBilledDay(c), MonthsOf(c.billing), 0)
    requires AllPeriods(StartsOf(c.start, MonthsOf(c.billing)), LastBilledDay(c), MonthsOf(c.billing), ps)
    ensures Rising(ps) && ps == PeriodsFor(c)
  {
    var starts := StartsOf(c.start, MonthsOf(c.billing));
    StartsOfGrow(c.start, MonthsOf(c.billing));
    PeriodsApart(starts, LastBilledDay(c), MonthsOf(c.billing), ps);
    PeriodsAreConsecutive(starts, LastBilledDay(c), MonthsOf(c.billing), ps);
  }

  /** The period starts the contract's live drafts bill. */
  function LiveStarts(drafts: seq<Invoice>, contract: nat): set<int> {
    set d | 0 <= d < |drafts| && drafts[d].contract == contract && Live(drafts[d]) :: drafts[d].start
  }

  /** A start read as taken before the loop is taken still, so its period is skipped either way. */
  lemma ExistingIsTaken(rows: Rows, c: Contract, ps: seq<Period>, today: int, faults: seq<Fault>, p: Period,
      existing: set<int>)
    requires forall k :: 0 <= k < |ps| ==> NominalDays(ps[k]) > 0
    requires NominalDays(p) > 0
    requires existing == LiveStarts(rows.drafts, c.id)
    ensures p.start in existing ==>
              var now := DraftPeriods(rows, c, ps, today, faults);
              DraftPeriod(now, c, p, today, faults) == now
  {
    hide DraftPeriods, DraftingLaws.Extends;
    DraftingLaws.DraftPeriodsExtends(rows, c, ps, today, faults);
    if p.start in existing {
      assert PeriodTaken(rows.drafts, c.id, p.start);
      DraftingLaws.TakenStays(rows, DraftPeriods(rows, c, ps, today, faults), c.id, p.start);
    }
  }

  lemma NothingDrafted(rows: Rows, c: Contract, ps: seq<Period>, today: int, faults: seq<Fault>)
    requires Rising(ps)
    ensures forall j :: 0 <= j < |ps| ==> NominalDays(ps[j]) > 0
    ensures DraftPeriods(rows, c, ps[..0], today, faults) == rows
  {
  }

  /** What the loop does with a period that has ended is what `DraftPeriod` does. */
  lemma OnePeriodMore(rows: Rows, c: Contract, ps: seq<Period>, today: int, faults: seq<Fault>, k: nat, existing: set<int>)
    requires Rising(ps) && k < |ps| && ps[k].end <= today - 1
    requires existing == LiveStarts(rows.drafts, c.id)
    ensures var now := DraftPeriods(rows, c, ps[..k], today, faults);
            DraftPeriods(rows, c, ps[..k + 1], today, faults) ==
            if ps[k].end < today - LOOKBACK || ps[k].start in existing || c.rate.None? then now
            else Drafting.DraftFor(now, c, ps[k], c.rate.value, faults)
  {
    hide Drafting.DraftFor;
    assert ps[..k + 1][..k] == ps[..k];
    ExistingIsTaken(rows, c, ps[..k], today, faults, ps[k], existing);
  }

  lemma {:induction false} NoneDueAfter(rows: Rows, c: Contract, ps: seq<Period>, today: int, faults: seq<Fault>, k: nat)
    requires k <= |ps| && Rising(ps) && (k < |ps| ==> ps[k].end > today - 1)
    ensures DraftPeriods(rows, c, ps, today, faults) == DraftPeriods(rows, c, ps[..k], today, faults)
    decreases |ps|
  {
    hide DraftFor;
    if k == |ps| {
      assert ps[..k] == ps;
    } else {
      var n := |ps| - 1;
      assert ps[..n][..k] == ps[..k];
      NoneDueAfter(rows, c, ps[..n], today, faults, k);
    }
  }
}
