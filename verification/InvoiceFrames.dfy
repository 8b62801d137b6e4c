/** What the ledger's calls leave of the invoices, and which movements they write (apps/ledger/services.py). */
module InvoiceFrames {
  import opened Books
  import opened CallShapes
  import opened Collecting
  import opened Posting
  import opened Results
  import Reversal
  import opened Services

  /** Calls that are none of billing's: collections and their cancelling, papers, days, accounts and tills. */
  predicate OfTheLedger(call: Call) {
    !call.CallDraftInvoice? && !call.CallRetotal? && !call.CallIssue? && !call.CallCancelInvoice?
  }

  /** Only the status of live invoices and the date they were paid may differ. */
  predicate OnlyStatuses(before: seq<Invoice>, after: seq<Invoice>) {
    && |after| == |before|
    && forall i :: 0 <= i < |before| ==>
         && after[i] == before[i].(status := after[i].status, paidOn := after[i].paidOn)
         && Payable(after[i].status) == Payable(before[i].status)
         && (!Payable(before[i].status) ==> after[i].status == before[i].status)
  }

  lemma SyncOnlyStatuses(b: Books, which: set<Id>)
    ensures OnlyStatuses(b.invoices, SyncIn(b, which).invoices)
  {
    hide Collected, LatestPayment;
  }

  lemma RecordOnlyStatuses(b: Books, account: Id, till: Id, amount: Decimal, date: Day, applies: seq<Applied>)
    requires RecordCollection(b, account, till, amount, date, applies).Ok?
    ensures OnlyStatuses(b.invoices, RecordCollection(b, account, till, amount, date, applies).value.invoices)
  {
    hide RecordCollection, Collected, LatestPayment, Named, NewApplications;
    CollectionRows(b, account, till, amount, date, applies);
  }

  lemma {:induction false} LegsLeaveInvoices(b: Books, p: Paper, r: DocumentRef, legs: seq<(PartyLeg, CashLeg)>)
    requires PostLegs(b, p, r, legs).Ok?
    ensures PostLegs(b, p, r, legs).value.invoices == b.invoices
    decreases |legs|
  {
    if legs != [] {
      LegsLeaveInvoices(Post(b, LegMovement(p, r, legs[0])).value, p, r, legs[1..]);
    }
  }

  lemma PaperLeavesInvoices(b: Books, call: Call)
    requires RecordsPaper(call) && Perform(b, call).Ok?
    ensures Perform(b, call).value.invoices == b.invoices
  {
    hide Perform, PostLegs;
    var counted, p := PaperCall(b, call);
    LegsLeaveInvoices(counted.(papers := counted.papers + [p]), p, PaperRef(|counted.papers|), Legs(p.kind));
  }

  lemma LedgerOnlyStatuses(b: Books, call: Call)
    requires OfTheLedger(call)
    ensures OnlyStatuses(b.invoices, Services.After(b, call).invoices)
  {
    hide RecordCollection, CollectInvoice, SyncIn, Record, RecordTransfer, RecordOpening, ReverseDocument, Apply,
         AppliedInvoices, Allocated, Remaining;
    if Perform(b, call).Ok? {
      if RecordsPaper(call) {
        PaperLeavesInvoices(b, call);
      } else {
        match call
        case CallMarkPaid(i, paidOn, till) =>
          MarkPaidOnlyStatuses(b, i, paidOn, till);
        case CallRecordCollection(a, t, amount, date, applies) => RecordOnlyStatuses(b, a, t, amount, date, applies);
        case CallApplyCollection(c, applies) =>
          var applied := Apply(b, c, b.accounts[b.papers[c].kind.account], applies,
                               b.papers[c].amount - Allocated(b.applications, c)).value;
          ApplyLeavesInvoices(b, c, b.accounts[b.papers[c].kind.account], applies,
                              b.papers[c].amount - Allocated(b.applications, c));
          SyncOnlyStatuses(applied, Named(applies));
        case CallCancelCollection(c) =>
          SyncOnlyStatuses(StampCancelled(b, c).value, AppliedInvoices(b.applications, c));
        case _ =>
      }
    }
  }

  lemma ApplyLeavesInvoices(b: Books, c: Id, account: Account, applies: seq<Applied>, limit: int)
    requires Apply(b, c, account, applies, limit).Ok?
    ensures Apply(b, c, account, applies, limit).value.invoices == b.invoices
    ensures Apply(b, c, account, applies, limit).value.movements == b.movements
  {
  }

  lemma MarkPaidOnlyStatuses(b: Books, i: Id, paidOn: Day, till: Option<Id>)
    requires MarkPaid(b, i, paidOn, till).Ok?
    ensures OnlyStatuses(b.invoices, MarkPaid(b, i, paidOn, till).value.invoices)
  {
    hide RecordCollection, MarkPaid, OnlyStatuses;
    var start, account, into, owed := MarkPaidCollects(b, i, paidOn, till);
    RecordOnlyStatuses(start, account, into, owed, paidOn, [Applied(i, owed)]);
  }

  // Movements ---------------------------------------------------------------------------------

  /** The movements added are papers', or their mirrors, and under no key of an invoice. */
  ghost predicate OnlyPapers(b: Books, c: Books) {
    && b.movements <= c.movements
    && forall k :: |b.movements| <= k < |c.movements| ==>
         c.movements[k].document.PaperRef? && !OncePerInvoice(c.movements[k].source)
  }

  lemma {:induction false} LegsArePapers(b: Books, p: Paper, r: DocumentRef, legs: seq<(PartyLeg, CashLeg)>)
    requires r.PaperRef? && PostLegs(b, p, r, legs).Ok?
    ensures OnlyPapers(b, PostLegs(b, p, r, legs).value)
    decreases |legs|
  {
    hide SidesKnown, BeforeAnOpening, KeyTaken, CheckDate;
    if legs != [] {
      LegsArePapers(Post(b, LegMovement(p, r, legs[0])).value, p, r, legs[1..]);
    }
  }

  lemma StampArePapers(b: Books, p: Id)
    requires p < |b.papers| && StampCancelled(b, p).Ok?
    ensures OnlyPapers(b, StampCancelled(b, p).value)
  {
    hide AnyStanding, MirrorsClash, CheckDate;
    var ms := b.movements;
    var made := Mirrors(ms, PaperRef(p), |ms|, b.today, ReversalSource);
    Reversal.MirrorsShape(ms, PaperRef(p), |ms|, b.today, ReversalSource);
    forall k | |ms| <= k < |ms + made|
      ensures (ms + made)[k].document.PaperRef? && !OncePerInvoice((ms + made)[k].source)
    {
      assert (ms + made)[k] == made[k - |ms|] && made[k - |ms|] in made;
    }
  }

  lemma PaperCallIsPapers(b: Books, call: Call)
    requires RecordsPaper(call) && Perform(b, call).Ok?
    ensures OnlyPapers(b, Perform(b, call).value)
  {
    hide Perform, PostLegs;
    var counted, p := PaperCall(b, call);
    LegsArePapers(counted.(papers := counted.papers + [p]), p, PaperRef(|counted.papers|), Legs(p.kind));
  }

  lemma CollectionIsPapers(b: Books, account: Id, till: Id, amount: Decimal, date: Day, applies: seq<Applied>)
    requires RecordCollection(b, account, till, amount, date, applies).Ok?
    ensures OnlyPapers(b, RecordCollection(b, account, till, amount, date, applies).value)
  {
    hide RecordCollection, Collected, LatestPayment, Named, NewApplications;
    CollectionRows(b, account, till, amount, date, applies);
  }

  lemma LedgerOnlyPapers(b: Books, call: Call)
    requires OfTheLedger(call)
    ensures OnlyPapers(b, Services.After(b, call))
  {
    hide RecordCollection, CollectInvoice, Record, RecordTransfer, RecordOpening, ReverseDocument, Apply,
         AppliedInvoices, Allocated, Remaining;
    if Perform(b, call).Ok? {
      if RecordsPaper(call) {
        PaperCallIsPapers(b, call);
      } else {
        match call
        case CallMarkPaid(i, paidOn, till) =>
          var start, account, into, owed := MarkPaidCollects(b, i, paidOn, till);
          CollectionIsPapers(start, account, into, owed, paidOn, [Applied(i, owed)]);
        case CallRecordCollection(a, t, amount, date, applies) => CollectionIsPapers(b, a, t, amount, date, applies);
        case CallApplyCollection(c, applies) =>
          ApplyLeavesInvoices(b, c, b.accounts[b.papers[c].kind.account], applies,
                              b.papers[c].amount - Allocated(b.applications, c));
        case CallCancelCollection(c) => StampArePapers(b, c);
        case CallCancelPaper(p) => StampArePapers(b, p);
        case _ =>
      }
    }
  }
}
