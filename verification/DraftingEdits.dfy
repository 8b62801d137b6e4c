/** What each edit of a draft's lines does to what the draft asks, and when a draft is issued and cancelled
    (apps/billing/services.py). */
module DraftingEdits {
  import Decimals
  import opened Drafting
  import opened DraftingLaws
  import opened DraftingRuns
  import opened Money
  import opened Results
  import opened Sums

  /** The draft asks `more` than it did before VAT, and the others, their lines and what they ask are as they were. */
  ghost predicate AsksMore(rows: Rows, after: Rows, d: nat, more: int) {
    && d < |rows.drafts| == |after.drafts|
    && Subtotal(after.lines, d) == Subtotal(rows.lines, d) + more
    && after.drafts[d] == rows.drafts[d].(totals := after.drafts[d].totals)
    && AsksItsLines(after, d)
    && forall e :: 0 <= e < |rows.drafts| && e != d ==>
         after.drafts[e] == rows.drafts[e] && Subtotal(after.lines, e) == Subtotal(rows.lines, e)
  }

  lemma RecomputedAsks(rows: Rows, d: nat)
    requires d < |rows.drafts| && rows.drafts[d].status == InDraft
    ensures var after := Recomputed(rows, d);
            && after.lines == rows.lines && |after.drafts| == |rows.drafts| && AsksItsLines(after, d)
            && after.drafts[d] == rows.drafts[d].(totals := after.drafts[d].totals)
            && forall e :: 0 <= e < |rows.drafts| && e != d ==> after.drafts[e] == rows.drafts[e]
  {
    hide AsksItsLines, AmountsOf, TotalsOf;
    TotalsMean(Recomputed(rows, d), d);
  }

  /** One line changed: its own draft asks as much more as the line does, and no other draft anything. */
  lemma LineChanged(lines: seq<Line>, l: nat, line: Line, e: nat)
    requires l < |lines| && line.draft == lines[l].draft
    ensures Subtotal(lines[l := line], e) == Subtotal(lines, e) +
              (if e != line.draft then 0
               else (if line.deleted then 0 else line.amount) - (if lines[l].deleted then 0 else lines[l].amount))
  {
    SumChange(|lines|, AmountAt(lines, e), AmountAt(lines[l := line], e), l);
  }

  lemma LineAppended(lines: seq<Line>, line: Line, e: nat)
    ensures Subtotal(lines + [line], e) ==
            Subtotal(lines, e) + (if e == line.draft && !line.deleted then line.amount else 0)
  {
    SumCongruent(|lines|, AmountAt(lines, e), AmountAt(lines + [line], e));
  }

  /** Only a draft takes a line; it then asks the line's quantity times its price more, to the nearest cent. */
  lemma AddedLine(rows: Rows, d: nat, quantity: int, price: int)
    requires Decimals.Abs(quantity) < TWELVE_DIGITS && Decimals.Abs(price) < TWELVE_DIGITS
    ensures Perform(rows, CallAddLine(d, quantity, price)).Ok? <==> d < |rows.drafts| && rows.drafts[d].status == InDraft
    ensures Perform(rows, CallAddLine(d, quantity, price)).Ok? ==>
              var after := Perform(rows, CallAddLine(d, quantity, price)).value;
              && AsksMore(rows, after, d, Decimals.SignedHalfUp(quantity * price, 10000))
              && |after.lines| == |rows.lines| + 1 && after.lines[..|rows.lines|] == rows.lines
              && after.lines[|rows.lines|].quantity == quantity && after.lines[|rows.lines|].price == Some(price)
  {
    hide Subtotal, AsksItsLines, AmountsOf, TotalsOf, LineAmount, Recomputed, Decimals.SignedHalfUp;
    if d < |rows.drafts| && rows.drafts[d].status == InDraft {
      var line := Line(d, None, None, false, quantity, None, Some(price), LineAmount(quantity, Some(price)), false, false);
      LineAmountIsExact(quantity, price);
      RecomputedAsks(rows.(lines := rows.lines + [line]), d);
      forall e: nat
        ensures Subtotal(rows.lines + [line], e) == Subtotal(rows.lines, e) + (if e == d then line.amount else 0)
      {
        LineAppended(rows.lines, line, e);
      }
    }
  }

  /** A line still there, of a draft that takes changes. */
  predicate Editable(rows: Rows, l: nat) {
    && l < |rows.lines| && !rows.lines[l].deleted && rows.lines[l].draft < |rows.drafts|
    && rows.drafts[rows.lines[l].draft].status == InDraft
  }

  /** Removed, a line is asked for no more; its fault, if it bills one, is free for another draft. */
  lemma RemovedLine(rows: Rows, l: nat)
    ensures Perform(rows, CallRemoveLine(l)).Ok? <==> Editable(rows, l)
    ensures Perform(rows, CallRemoveLine(l)).Ok? ==>
              var after := Perform(rows, CallRemoveLine(l)).value;
              && AsksMore(rows, after, rows.lines[l].draft, -rows.lines[l].amount)
              && after.lines == rows.lines[l := rows.lines[l].(deleted := true)]
              && forall fault ::
                   EachFaultOnce(rows.lines) && rows.lines[l].fault == Some(fault) && !rows.lines[l].released ==>
                     IsFree(after.lines, fault)
  {
    hide Subtotal, AsksItsLines, AmountsOf, TotalsOf, Recomputed;
    if Editable(rows, l) {
      var gone := rows.lines[l].(deleted := true);
      RecomputedAsks(rows.(lines := rows.lines[l := gone]), gone.draft);
      forall e: nat
        ensures Subtotal(rows.lines[l := gone], e) ==
                Subtotal(rows.lines, e) - (if e == gone.draft then rows.lines[l].amount else 0)
      {
        LineChanged(rows.lines, l, gone, e);
      }
    }
  }

  /** What a line asks: nothing without a price; its share of the fee if it bills one, to the nearest cent; otherwise its
      quantity times its price, to the nearest cent. */
  function Asked(quantity: int, share: Option<Share>, price: Option<int>): int {
    if price.None? then 0
    else if share.Some? && share.value.period > 0
    then Decimals.SignedHalfUp(price.value * share.value.months * share.value.covered, share.value.period)
    else Decimals.SignedHalfUp(quantity * price.value, 10000)
  }

  predicate Fits(quantity: int, share: Option<Share>, price: Option<int>) {
    && Decimals.Abs(quantity) < TWELVE_DIGITS && (price.Some? ==> Decimals.Abs(price.value) < TWELVE_DIGITS)
    && (share.Some? ==> share.value.months <= SMALL_INTEGER && share.value.covered <= SMALL_INTEGER)
  }

  lemma AskedIsAmount(quantity: int, share: Option<Share>, price: Option<int>)
    requires Fits(quantity, share, price)
    ensures AmountOf(quantity, share, price) == Asked(quantity, share, price)
  {
    hide LineAmount, ProratedAmount, Decimals.SignedHalfUp;
    NoPriceNothing(quantity);
    if price.Some? {
      LineAmountIsExact(quantity, price.value);
      if share.Some? && share.value.period > 0 {
        ProrationIsExact(price.value, share.value.months, share.value.covered, share.value.period);
      }
    } else if share.Some? && share.value.period > 0 {
      NoPriceNoFee(share.value);
    }
  }

  lemma NoPriceNothing(quantity: int)
    ensures LineAmount(quantity, None) == 0
  {
  }

  lemma NoPriceNoFee(share: Share)
    requires share.period > 0
    ensures ProratedAmount(None, share.months, share.covered, share.period) == 0
  {
  }

  /** Edited, a line has the quantity and price typed, or those it had; a quantity typed takes its share of the fee away, a
      price alone leaves it; it asks accordingly, and its draft that much more or less. */
  lemma EditedLine(rows: Rows, l: nat, quantity: Option<int>, price: Option<Option<int>>)
    requires l < |rows.lines| ==>
               Fits(if quantity.Some? then quantity.value else rows.lines[l].quantity, rows.lines[l].share,
                    if price.Some? then price.value else rows.lines[l].price)
    ensures Perform(rows, CallEditLine(l, quantity, price)).Ok? <==> Editable(rows, l)
    ensures Perform(rows, CallEditLine(l, quantity, price)).Ok? ==>
              var before, after := rows.lines[l], Perform(rows, CallEditLine(l, quantity, price)).value;
              var q := if quantity.Some? then quantity.value else before.quantity;
              var p := if price.Some? then price.value else before.price;
              var share := if quantity.Some? then None else before.share;
              && after.lines == rows.lines[l := before.(quantity := q, price := p, share := share, needsPrice := p.None?,
                                                        amount := Asked(q, share, p))]
              && AsksMore(rows, after, before.draft, Asked(q, share, p) - before.amount)
  {
    hide Subtotal, AsksItsLines, AmountsOf, TotalsOf, Recomputed, AmountOf, Asked;
    if Editable(rows, l) {
      var line := Edited(rows.lines[l], quantity, price);
      AskedIsAmount(line.quantity, line.share, line.price);
      RecomputedAsks(rows.(lines := rows.lines[l := line]), line.draft);
      forall e: nat
        ensures Subtotal(rows.lines[l := line], e) ==
                Subtotal(rows.lines, e) + (if e == line.draft then line.amount - rows.lines[l].amount else 0)
      {
        LineChanged(rows.lines, l, line, e);
      }
    }
  }

  // The lifecycle ----------------------------------------------------------------------------

  /** A draft is issued exactly when every line left has its price, no other issued draft has the number, and the ledger
      takes the posting of a total above zero, or the total is zero; then it alone changes: paid already if it asks
      nothing. */
  lemma IssuedDraft(rows: Rows, d: nat, number: nat, posted: bool)
    requires BillingInv(rows)
    ensures Perform(rows, CallIssue(d, number, posted)).Ok? <==>
              && d < |rows.drafts| && rows.drafts[d].status == InDraft
              && (forall l :: 0 <= l < |rows.lines| && rows.lines[l].draft == d && !rows.lines[l].deleted ==>
                    rows.lines[l].price.Some?)
              && (forall e :: 0 <= e < |rows.drafts| && e != d && rows.drafts[e].number == Some(number) ==>
                    rows.drafts[e].status != Issued && rows.drafts[e].status != Paid)
              && (rows.drafts[d].totals.total == 0 || (rows.drafts[d].totals.total > 0 && posted))
    ensures Perform(rows, CallIssue(d, number, posted)).Ok? ==>
              Perform(rows, CallIssue(d, number, posted)).value == rows.(drafts := rows.drafts[d := rows.drafts[d].(
                status := if rows.drafts[d].totals.total == 0 then Paid else Issued, number := Some(number))])
  {
    hide Recomputed, TotalsFollow, OnePerPeriod, EachFaultOnce, HeldByLive, NumbersUnique, AmountOf;
    if d < |rows.drafts| {
      RecomputeAgain(rows, d);
      PricesMissing(rows.lines, d);
    }
  }

  lemma PricesMissing(lines: seq<Line>, d: nat)
    requires AllPriced(lines)
    ensures WaitsForPrice(lines, d) <==>
              exists l :: 0 <= l < |lines| && lines[l].draft == d && !lines[l].deleted && lines[l].price.None?
  {
    hide AmountOf;
    assert forall l :: 0 <= l < |lines| ==> WellPriced(lines[l]);
  }

  /** A fault is billed without a price, so its draft waits until somebody enters one. */
  lemma FaultWaitsForPrice(rows: Rows, d: nat, f: Fault, l: nat, number: nat, posted: bool)
    requires BillingInv(rows) && l < |rows.lines| && rows.lines[l] == FaultLine(d, f)
    ensures rows.lines[l].fault == Some(f.id) && rows.lines[l].elevator == Some(f.elevator)
    ensures rows.lines[l].amount == 0 && rows.lines[l].quantity == 10000
    ensures Perform(rows, CallIssue(d, number, posted)).Refused?
  {
    hide BillingInv, Issue;
    IssuedDraft(rows, d, number, posted);
  }

  /** A draft is cancelled exactly when it is not yet and, once issued, when the ledger reverses it; its own faults are given
      back, and nothing else changes. */
  lemma CancelledDraft(rows: Rows, d: nat, reversed: bool)
    ensures Perform(rows, CallCancel(d, reversed)).Ok? <==>
              d < |rows.drafts| && rows.drafts[d].status != Cancelled && (rows.drafts[d].status == InDraft || reversed)
    ensures Perform(rows, CallCancel(d, reversed)).Ok? ==>
              var after := Perform(rows, CallCancel(d, reversed)).value;
              && after.drafts == rows.drafts[d := rows.drafts[d].(status := Cancelled)]
              && |after.lines| == |rows.lines|
              && forall l :: 0 <= l < |rows.lines| ==>
                   after.lines[l] == if rows.lines[l].draft == d && rows.lines[l].fault.Some? && !rows.lines[l].deleted
                                     then rows.lines[l].(released := true) else rows.lines[l]
  {
  }

  /** The ledger's word changes an issued draft's status, and nothing else. */
  lemma SyncedDraft(rows: Rows, d: nat, covered: bool)
    ensures Perform(rows, CallSync(d, covered)).Ok? <==> d < |rows.drafts| && rows.drafts[d].status in {Issued, Paid}
    ensures Perform(rows, CallSync(d, covered)).Ok? ==>
              Perform(rows, CallSync(d, covered)).value ==
              rows.(drafts := rows.drafts[d := rows.drafts[d].(status := if covered then Paid else Issued)])
  {
  }
}
