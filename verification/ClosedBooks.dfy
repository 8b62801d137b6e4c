/**
 * Closed books are frozen: while the closing date is not moved back or cleared,
 * nothing dated on or before it changes, neither a balance nor a statement.
 */
module ClosedBooks {
  import opened Results
  import opened Books
  import Posting
  import opened Services
  import CallShapes
  import Reversal
  import opened Statements

  /** A business date a call may write under: not in the future, not in a closed period. */
  predicate OpenDay(b: Books, day: Day) {
    day <= b.today && (b.closedThrough.Some? ==> b.closedThrough.value < day)
  }

  /** Movements are only ever added, and only on days that were open. */
  ghost predicate AddsOnOpenDays(b: Books, after: Books) {
    && b.movements <= after.movements
    && forall j :: |b.movements| <= j < |after.movements| ==> OpenDay(b, after.movements[j].date)
  }

  ghost predicate SameCalendar(b: Books, c: Books) {
    b.today == c.today && b.closedThrough == c.closedThrough
  }

  lemma {:induction false} LegsOnOpenDays(b: Books, p: Paper, r: DocumentRef, legs: seq<(PartyLeg, CashLeg)>)
    requires PostLegs(b, p, r, legs).Ok?
    ensures AddsOnOpenDays(b, PostLegs(b, p, r, legs).value)
    ensures SameCalendar(b, PostLegs(b, p, r, legs).value)
    decreases |legs|
  {
    if legs != [] {
      var next := Posting.Post(b, LegMovement(p, r, legs[0])).value;
      LegsOnOpenDays(next, p, r, legs[1..]);
    }
  }

  lemma MirrorsOnOpenDays(b: Books, r: DocumentRef, source: Source)
    requires Posting.ReverseDocument(b, r, b.today, source).Ok?
    ensures AddsOnOpenDays(b, Posting.ReverseDocument(b, r, b.today, source).value)
  {
    var ms := b.movements;
    var made := Posting.Mirrors(ms, r, |ms|, b.today, source);
    Reversal.MirrorsShape(ms, r, |ms|, b.today, source);
    forall j | |ms| <= j < |ms + made|
      ensures OpenDay(b, (ms + made)[j].date)
    {
      assert (ms + made)[j] == made[j - |ms|] && made[j - |ms|] in made;
    }
  }

  lemma RecordOnOpenDays(b: Books, p: Paper)
    requires Record(b, p).Ok?
    ensures AddsOnOpenDays(b, Record(b, p).value)
  {
    LegsOnOpenDays(b.(papers := b.papers + [p]), p, PaperRef(|b.papers|), Legs(p.kind));
  }

  lemma CollectionOnOpenDays(b: Books, account: Id, till: Id, amount: Decimal, date: Day, applies: seq<Applied>)
    requires RecordCollection(b, account, till, amount, date, applies).Ok?
    ensures AddsOnOpenDays(b, RecordCollection(b, account, till, amount, date, applies).value)
  {
    var c := |b.papers|;
    var p := Paper(Collection(account, till), Cents(amount), b.accounts[account].currency, date,
                   b.lastCollection + 1, false);
    var created := b.(papers := b.papers + [p], lastCollection := b.lastCollection + 1);
    var applied := Apply(created, c, b.accounts[account], applies, Cents(amount)).value;
    LegsOnOpenDays(applied, p, PaperRef(c), Legs(p.kind));
  }

  lemma IssueOnOpenDays(b: Books, call: Call)
    requires call.CallIssue? && Perform(b, call).Ok?
    ensures AddsOnOpenDays(b, After(b, call))
  {
    var CallIssue(i, number, date, _) := call;
    var issued := b.invoices[i].(status := Issued, number := Some(number), date := Some(date));
    PostedOnOpenDay(b, b.(invoices := b.invoices[i := issued]), i);
  }

  lemma PostedOnOpenDay(b: Books, marked: Books, i: Id)
    requires marked.movements == b.movements && SameCalendar(b, marked)
    requires PostInvoice(marked, i, None).Ok?
    ensures AddsOnOpenDays(b, PostInvoice(marked, i, None).value)
  {
  }

  lemma MarkPaidOnOpenDays(b: Books, call: Call)
    requires call.CallMarkPaid? && Perform(b, call).Ok?
    ensures AddsOnOpenDays(b, After(b, call))
  {
    hide RecordCollection;
    var start, account, into, owed := CallShapes.MarkPaidCollects(b, call.paid, call.paidOn, call.paidInto);
    CollectionOnOpenDays(start, account, into, owed, call.paidOn, [Applied(call.paid, owed)]);
  }

  lemma PaperCallOnOpenDays(b: Books, call: Call)
    requires CallShapes.RecordsPaper(call) && Perform(b, call).Ok?
    ensures AddsOnOpenDays(b, After(b, call))
  {
    var counted, p := CallShapes.PaperCall(b, call);
    RecordOnOpenDays(counted, p);
  }

  /** No call writes a movement into a closed period, or in the future. */
  lemma CallOnOpenDays(b: Books, call: Call)
    ensures AddsOnOpenDays(b, After(b, call))
  {
    if Perform(b, call).Ok? {
      if call.CallIssue? {
        IssueOnOpenDays(b, call);
      } else if call.CallMarkPaid? {
        MarkPaidOnOpenDays(b, call);
      } else if call.CallCancelInvoice? {
        if After(b, call).movements != b.movements {
          MirrorsOnOpenDays(b, InvoiceRef(call.cancelledInvoice), InvoiceCancelSource);
        }
      } else if CallShapes.RecordsPaper(call) {
        PaperCallOnOpenDays(b, call);
      } else if call.CallRecordCollection? {
        CollectionOnOpenDays(b, call.account, call.intoTill, call.amount, call.date, call.applies);
      } else if call.CallCancelCollection? {
        MirrorsOnOpenDays(b, PaperRef(call.collection), ReversalSource);
      } else if call.CallCancelPaper? {
        MirrorsOnOpenDays(b, PaperRef(call.paper), ReversalSource);
      } else {
        WritesNoMovement(b, call);
      }
    }
  }

  lemma WritesNoMovement(b: Books, call: Call)
    requires call.NextDay? || call.CallOpenAccount? || call.CallOpenTill? || call.CallSetTillActive? ||
             call.CallSetClosedThrough? || call.CallDraftInvoice? || call.CallRetotal? || call.CallApplyCollection?
    ensures After(b, call).movements == b.movements
  {
  }

  // Frozen --------------------------------------------------------------------------

  /** `ns` adds to `ms` only movements dated after `day`. */
  ghost predicate AddsAfter(ms: seq<Movement>, ns: seq<Movement>, day: Day) {
    ms <= ns && forall j :: |ms| <= j < |ns| ==> ns[j].date > day
  }

  /** The books stay closed through `day`, at least, before every one of these calls. */
  ghost predicate StaysClosed(b: Books, calls: seq<Call>, day: Day)
    decreases |calls|
  {
    calls != [] ==>
      && b.closedThrough.Some? && day <= b.closedThrough.value
      && StaysClosed(After(b, calls[0]), calls[1..], day)
  }

  lemma {:induction false} RunAddsAfter(b: Books, calls: seq<Call>, day: Day)
    requires StaysClosed(b, calls, day)
    ensures AddsAfter(b.movements, Run(b, calls).movements, day)
    decreases |calls|
  {
    if calls != [] {
      var next := After(b, calls[0]);
      CallOnOpenDays(b, calls[0]);
      RunAddsAfter(next, calls[1..], day);
      forall j | |b.movements| <= j < |Run(b, calls).movements|
        ensures Run(b, calls).movements[j].date > day
      {
        if j < |next.movements| {
          assert Run(b, calls).movements[j] == next.movements[j];
          assert OpenDay(b, next.movements[j].date);
        }
      }
    }
  }

  lemma {:induction false} ChangeFrozen(ms: seq<Movement>, ns: seq<Movement>, s: Side, start: Option<Day>, end: Day,
      day: Day)
    requires AddsAfter(ms, ns, day) && end <= day
    ensures Change(ns, s, start, Some(end)) == Change(ms, s, start, Some(end))
    decreases |ns|
  {
    if |ns| == |ms| {
      assert ns == ms;
    } else {
      var n := |ns| - 1;
      assert ns == ns[..n] + [ns[n]];
      ChangeFrozen(ms, ns[..n], s, start, end, day);
      ChangeAppend(ns[..n], ns[n], s, start, Some(end));
    }
  }

  lemma {:induction false} InsertFrozen(ms: seq<Movement>, ns: seq<Movement>, ids: seq<nat>, k: nat)
    requires ms <= ns && k < |ms| && AllWithin(ids, |ms|)
    ensures Insert(ns, ids, k) == Insert(ms, ids, k)
  {
    if ids != [] {
      InsertFrozen(ms, ns, ids[..|ids| - 1], k);
    }
  }

  lemma {:induction false} SelectedFrozen(ms: seq<Movement>, ns: seq<Movement>, n: nat, a: Id, start: Option<Day>,
      end: Day, day: Day)
    requires AddsAfter(ms, ns, day) && end <= day && n <= |ns|
    ensures AllWithin(Selected(ns, n, a, start, Some(end)), |ms|)
    ensures Selected(ns, n, a, start, Some(end)) ==
            Selected(ms, if n <= |ms| then n else |ms|, a, start, Some(end))
  {
    if n > 0 {
      SelectedFrozen(ms, ns, n - 1, a, start, end, day);
      if n <= |ms| {
        InsertFrozen(ms, ns, Selected(ms, n - 1, a, start, Some(end)), n - 1);
      }
    }
  }

  lemma {:induction false} RowsFrozen(ms: seq<Movement>, ns: seq<Movement>, ids: seq<nat>, a: Id, opening: int)
    requires ms <= ns && AllWithin(ids, |ms|)
    ensures Running(ns, ids, a) == Running(ms, ids, a)
    ensures RowsOf(ns, ids, a, opening) == RowsOf(ms, ids, a, opening)
  {
    if ids != [] {
      RowsFrozen(ms, ns, ids[..|ids| - 1], a, opening);
    }
  }

  /** While the books stay closed through a day, no balance of a range ending by then changes. */
  lemma ClosedBalancesAreFrozen(b: Books, calls: seq<Call>, day: Day, end: Day, start: Option<Day>, s: Side)
    requires StaysClosed(b, calls, day) && end <= day
    ensures Change(Run(b, calls).movements, s, start, Some(end)) == Change(b.movements, s, start, Some(end))
  {
    RunAddsAfter(b, calls, day);
    ChangeFrozen(b.movements, Run(b, calls).movements, s, start, end, day);
  }

  lemma StatementFrozen(ms: seq<Movement>, ns: seq<Movement>, a: Id, start: Option<Day>, end: Day, day: Day)
    requires AddsAfter(ms, ns, day) && end <= day
    requires start.Some? ==> start.value <= end + 1
    ensures StatementOf(ns, a, start, Some(end)) == StatementOf(ms, a, start, Some(end))
  {
    if start.Some? {
      ChangeFrozen(ms, ns, AccountSide(a), None, start.value - 1, day);
    }
    SelectedFrozen(ms, ns, |ns|, a, start, end, day);
    RowsFrozen(ms, ns, Selected(ms, |ms|, a, start, Some(end)), a, OpeningBalance(ms, a, start));
  }

  /**
   * While the books stay closed through a day, every statement ending by then is the
   * same after the run as before it: opening, rows, running balances and closing.
   */
  lemma ClosedStatementsAreFrozen(b: Books, calls: seq<Call>, day: Day, end: Day, start: Option<Day>, a: Id)
    requires StaysClosed(b, calls, day) && end <= day
    requires start.Some? ==> start.value <= end + 1
    ensures StatementOf(Run(b, calls).movements, a, start, Some(end)) == StatementOf(b.movements, a, start, Some(end))
  {
    RunAddsAfter(b, calls, day);
    StatementFrozen(b.movements, Run(b, calls).movements, a, start, end, day);
  }

  /** Closing is refused exactly for a day to come. Closed through a day, the books take no movement and no reversal dated
      on it or earlier; they take what they took, with nothing closed, on any later one. Nothing else changes. */
  lemma ClosingCloses(b: Books, through: Option<Day>, m: Movement, r: DocumentRef, date: Day, source: Source)
    requires m.reverses.None?
    ensures Perform(b, CallSetClosedThrough(through)).Ok? <==> (through.Some? ==> through.value <= b.today)
    ensures Perform(b, CallSetClosedThrough(through)).Ok? ==>
              var closed := Perform(b, CallSetClosedThrough(through)).value;
              var free := b.(closedThrough := None);
              && closed == b.(closedThrough := closed.closedThrough)
              && (Posting.Post(closed, m).Ok? <==>
                    Posting.Post(free, m).Ok? && (through.Some? ==> through.value < m.date))
              && (Posting.ReverseDocument(closed, r, date, source).Ok? <==>
                    Posting.ReverseDocument(free, r, date, source).Ok? && (through.Some? ==> through.value < date))
  {
    hide Posting.BeforeAnOpening, Posting.KeyTaken, Posting.AnyStanding, Posting.MirrorsClash;
  }
}
