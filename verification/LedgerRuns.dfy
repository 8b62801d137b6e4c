/** The ledger's invariant, and that every call keeps it: so it holds over whole runs. */
module LedgerRuns {
  import opened Results
  import opened Books
  import Posting
  import opened Services
  import opened CallShapes
  import opened Effects
  import opened Allocation
  import opened Openings

  ghost predicate PapersSound(papers: seq<Paper>) {
    forall p :: 0 <= p < |papers| ==> PaperSound(papers[p])
  }

  ghost predicate LedgerInv(b: Books) {
    && PapersSound(b.papers)
    && MovesInv(b)
    && AllocationInv(b)
    && OpeningInv(b)
  }

  lemma NewFirmInv(today: Day)
    ensures LedgerInv(NewFirm(today))
  {
    assert NewFirm(today).movements == [];
  }

  // Documents ----------------------------------------------------------------------

  lemma RecordKeeps(b: Books, p: Paper)
    requires LedgerInv(b) && !p.cancelled && PaperSound(p)
    requires PaperSource(p.kind) != OpeningSource
    requires p.kind.Collection? ==> p.kind.account < |b.accounts|
    requires Record(b, p).Ok?
    ensures LedgerInv(Record(b, p).value)
  {
    var c := Record(b, p).value;
    PaperPosted(b, p);
    PaperKeepsOpenings(b, p);
    AllocationFrame(b, c);
  }

  /** Counters, the day and the closing date are no part of the invariant. */
  lemma CountersFrame(b: Books, c: Books)
    requires LedgerInv(b)
    requires c == b.(today := c.today, closedThrough := c.closedThrough, tills := c.tills,
                     lastCollection := c.lastCollection, lastPayment := c.lastPayment)
    requires |c.tills| >= |b.tills|
    requires forall t :: 0 <= t < |b.tills| ==> c.tills[t].currency == b.tills[t].currency
    ensures LedgerInv(c)
  {
    MovesFrame(b, c);
    AllocationFrame(b, c);
  }

  lemma SyncKeeps(b: Books, which: set<Id>)
    requires MovesInv(b) && OpeningInv(b) && PapersSound(b.papers)
    requires AllocationBounds(b) && ShowsStatusExcept(b, which)
    ensures LedgerInv(SyncIn(b, which))
  {
    SyncFrame(b, which);
    SyncRestores(b, which);
  }

  lemma CollectionKeeps(b: Books, account: Id, till: Id, amount: Decimal, date: Day, applies: seq<Applied>)
    requires LedgerInv(b)
    requires RecordCollection(b, account, till, amount, date, applies).Ok?
    ensures LedgerInv(RecordCollection(b, account, till, amount, date, applies).value)
  {
    var c := |b.papers|;
    var p := Paper(Collection(account, till), Cents(amount), b.accounts[account].currency, date,
                   b.lastCollection + 1, false);
    var counted := b.(lastCollection := b.lastCollection + 1);
    var created := counted.(papers := b.papers + [p]);
    var applied := Apply(created, c, b.accounts[account], applies, Cents(amount)).value;
    var posted := PostLegs(applied, p, PaperRef(c), Legs(p.kind)).value;
    CountersFrame(b, counted);
    CreatedAndApplied(counted, p, applies, applied);
    PostedElsewhere(created, applied, p, PaperRef(c), Legs(p.kind));
    RecordKeeps(counted, p);
    ApplicationsMeet(Record(counted, p).value, applied, posted, Named(applies));
    SyncKeeps(posted, Named(applies));
  }

  /** A collection just created may pay what it brought in, and keeps every bound doing it. */
  lemma CreatedAndApplied(b: Books, p: Paper, applies: seq<Applied>, applied: Books)
    requires AllocationInv(b) && p.kind.Collection? && p.kind.account < |b.accounts| && p.amount > 0 && !p.cancelled
    requires Apply(b.(papers := b.papers + [p]), |b.papers|, b.accounts[p.kind.account], applies, p.amount) == Ok(applied)
    ensures AllocationBounds(applied) && ShowsStatusExcept(applied, Named(applies))
  {
    AllocationFrame(b, b.(papers := b.papers + [p]));
    NothingAllocatedYet(b, |b.papers|);
    AppliedAllocation(b.(papers := b.papers + [p]), |b.papers|, applies, p.amount, applied);
  }

  /** Posting on one side, applying on the other: together they keep both halves of the invariant. */
  lemma ApplicationsMeet(recorded: Books, applied: Books, posted: Books, which: set<Id>)
    requires LedgerInv(recorded)
    requires AllocationBounds(applied) && ShowsStatusExcept(applied, which)
    requires posted == recorded.(applications := applied.applications)
    requires posted == applied.(movements := posted.movements)
    ensures MovesInv(posted) && OpeningInv(posted) && PapersSound(posted.papers)
    ensures AllocationBounds(posted) && ShowsStatusExcept(posted, which)
  {
    MovesFrame(recorded, posted);
    forall i: nat | i < |posted.invoices|
      ensures WithinInvoice(posted, i)
      ensures i !in which ==> ShowsStatus(posted, i)
    {
      assert WithinInvoice(applied, i);
      assert i !in which ==> ShowsStatus(applied, i);
    }
    forall k | 0 <= k < |posted.applications| && Counts(posted.papers, posted.applications[k])
      ensures Fits(posted, posted.applications[k])
    {
      assert Fits(applied, applied.applications[k]);
    }
  }

  lemma NothingAllocatedYet(b: Books, c: Id)
    requires ApplicationsKnown(b) && c >= |b.papers|
    ensures Allocated(b.applications, c) == 0
  {
    Sums.SumZero(|b.applications|, TakenFrom(b.applications, c));
  }

  /** Posting does not look at applications. */
  lemma {:induction false} PostedElsewhere(b: Books, c: Books, p: Paper, r: DocumentRef, legs: seq<(PartyLeg, CashLeg)>)
    requires c == b.(applications := c.applications)
    requires PostLegs(c, p, r, legs).Ok?
    ensures PostLegs(b, p, r, legs).Ok?
    ensures PostLegs(c, p, r, legs).value == PostLegs(b, p, r, legs).value.(applications := c.applications)
    decreases |legs|
  {
    if legs != [] {
      var m := LegMovement(p, r, legs[0]);
      PostedElsewhere(Posting.Post(b, m).value, Posting.Post(c, m).value, p, r, legs[1..]);
    }
  }

  lemma ApplyKeeps(b: Books, c: Id, applies: seq<Applied>)
    requires LedgerInv(b)
    requires ApplyCollection(b, c, applies).Ok?
    ensures LedgerInv(ApplyCollection(b, c, applies).value)
  {
    var account := b.accounts[b.papers[c].kind.account];
    var limit := b.papers[c].amount - Allocated(b.applications, c);
    var applied := Apply(b, c, account, applies, limit).value;
    AppliedAllocation(b, c, applies, limit, applied);
    MovesFrame(b, applied);
    SyncKeeps(applied, Named(applies));
  }

  lemma CancelCollectionKeeps(b: Books, c: Id)
    requires LedgerInv(b)
    requires CancelCollection(b, c).Ok?
    ensures LedgerInv(CancelCollection(b, c).value)
  {
    var cancelled := StampCancelled(b, c).value;
    PaperCancelled(b, c);
    CancelKeepsOpenings(b, c);
    CancelledAllocation(b, cancelled, c);
    SyncKeeps(cancelled, AppliedInvoices(b.applications, c));
  }

  lemma CancelPaperKeeps(b: Books, p: Id)
    requires LedgerInv(b)
    requires CancelPaper(b, p).Ok?
    ensures LedgerInv(CancelPaper(b, p).value)
  {
    var cancelled := StampCancelled(b, p).value;
    PaperCancelled(b, p);
    CancelKeepsOpenings(b, p);
    CancelledOther(b, cancelled, p);
  }

  lemma OpeningKeeps(b: Books, p: Paper)
    requires LedgerInv(b) && !p.cancelled && PaperSound(p)
    requires PaperSource(p.kind) == OpeningSource && OpeningChecked(b, p)
    requires Record(b, p).Ok?
    ensures LedgerInv(Record(b, p).value)
  {
    PaperPosted(b, p);
    OpeningPosted(b, p, if p.kind.AccountOpening? then AccountSide(p.kind.account) else TillSide(p.kind.till));
    AllocationFrame(b, Record(b, p).value);
  }

  // Invoices -----------------------------------------------------------------------

  lemma AccountOnAskKeeps(b: Books, customer: Id, currency: Currency)
    requires LedgerInv(b)
    ensures LedgerInv(AccountForCustomer(b, customer, currency))
  {
    AccountOnAsk(b, customer, currency);
    AllocationFrame(b, AccountForCustomer(b, customer, currency));
  }

  /** A draft goes live under a number of its own, is posted on an open day and reads the status it should. */
  lemma GoingLiveKeeps(b: Books, i: Id, issued: Invoice, date: Option<Day>)
    requires LedgerInv(b) && i < |b.invoices| && b.invoices[i].status == Draft
    requires issued == b.invoices[i].(status := Issued, number := issued.number, date := issued.date)
    requires issued.number.Some? && !NumberTaken(b.invoices, i, issued.number.value)
    requires PostInvoice(b.(invoices := b.invoices[i := issued]), i, date).Ok?
    ensures LedgerInv(SyncIn(PostInvoice(b.(invoices := b.invoices[i := issued]), i, date).value, {i}))
  {
    var marked := b.(invoices := b.invoices[i := issued]);
    var posted := PostInvoice(marked, i, date).value;
    InvoiceIssued(b, i, issued, date);
    OnlyLiveCollected(b, i);
    assert issued.total >= 0 by {
      assert PostedAsLive(b, i);
    }
    OneInvoiceChanged(b, i, issued);
    IssuedElsewhere(b, marked, posted, i, date);
    SyncKeeps(posted, {i});
  }

  lemma IssueKeeps(b: Books, i: Id, number: nat, date: Day, linesNeedPrice: bool)
    requires LedgerInv(b)
    requires Issue(b, i, number, date, linesNeedPrice).Ok?
    ensures LedgerInv(Issue(b, i, number, date, linesNeedPrice).value)
  {
    hide LedgerInv, PostInvoice;
    GoingLiveKeeps(b, i, b.invoices[i].(status := Issued, number := Some(number), date := Some(date)), None);
  }

  lemma IssuedElsewhere(b: Books, marked: Books, posted: Books, i: Id, date: Option<Day>)
    requires OpeningInv(b)
    requires marked.papers == b.papers && marked.movements == b.movements
    requires AllocationBounds(marked) && ShowsStatusExcept(marked, {i})
    requires PostInvoice(marked, i, date) == Ok(posted)
    ensures OpeningInv(posted)
    ensures AllocationBounds(posted) && ShowsStatusExcept(posted, {i})
  {
    var inv := marked.invoices[i];
    assert marked.accounts <= posted.accounts;
    if posted != marked {
      var a := FindAccount(marked.accounts, Customer, inv.customer, inv.currency);
      var m := Movement(OnAccount(a, Debit), NoCash, if date.Some? then date.value else inv.date.value, inv.total,
                        inv.currency, InvoiceSource, InvoiceRef(i), None);
      assert posted.movements == marked.movements + [m];
      PostKeepsOpenings(marked.papers, marked.movements, m);
    }
    forall k | 0 <= k < |posted.applications| && Counts(posted.papers, posted.applications[k])
      ensures Fits(posted, posted.applications[k])
    {
      assert Fits(marked, marked.applications[k]);
    }
    forall j: nat | j < |posted.invoices|
      ensures WithinInvoice(posted, j)
      ensures j != i ==> ShowsStatus(posted, j)
    {
      assert WithinInvoice(marked, j);
      assert j != i ==> ShowsStatus(marked, j);
    }
  }

  lemma MarkPaidKeeps(b: Books, i: Id, paidOn: Day, till: Option<Id>)
    requires LedgerInv(b)
    requires MarkPaid(b, i, paidOn, till).Ok?
    ensures LedgerInv(MarkPaid(b, i, paidOn, till).value)
  {
    var start, account, into, owed := MarkPaidCollects(b, i, paidOn, till);
    AccountOnAskKeeps(b, b.invoices[i].customer, b.invoices[i].currency);
    CollectionKeeps(start, account, into, owed, paidOn, [Applied(i, owed)]);
  }

  lemma CancelInvoiceKeeps(b: Books, i: Id)
    requires LedgerInv(b)
    requires CancelInvoice(b, i).Ok?
    ensures LedgerInv(CancelInvoice(b, i).value)
  {
    var c := CancelInvoice(b, i).value;
    InvoiceCancelled(b, i);
    if !Payable(b.invoices[i].status) {
      OnlyLiveCollected(b, i);
    }
    assert WithinInvoice(b, i);
    OneInvoiceChanged(b, i, b.invoices[i].(status := Cancelled));
    var marked := b.(invoices := c.invoices);
    NoneLeftToRead(marked, c, i);
    if c.movements != b.movements {
      ReverseKeepsOpenings(b, InvoiceRef(i), InvoiceCancelSource);
    }
  }

  /** An invoice that is not live shows no status collections could change. */
  lemma NoneLeftToRead(b: Books, c: Books, i: nat)
    requires AllocationBounds(b) && ShowsStatusExcept(b, {i})
    requires i < |b.invoices| && !Payable(b.invoices[i].status)
    requires c == b.(movements := c.movements)
    ensures AllocationInv(c)
  {
    forall j: nat | j < |c.invoices|
      ensures WithinInvoice(c, j) && ShowsStatus(c, j)
    {
      assert WithinInvoice(b, j);
      assert j != i ==> ShowsStatus(b, j);
    }
    forall k | 0 <= k < |c.applications| && Counts(c.papers, c.applications[k])
      ensures Fits(c, c.applications[k])
    {
      assert Fits(b, b.applications[k]);
    }
  }

  lemma RetotalKeeps(b: Books, i: Id, total: int)
    requires LedgerInv(b)
    requires Retotal(b, i, total).Ok?
    ensures LedgerInv(Retotal(b, i, total).value)
  {
    InvoiceRetotalled(b, i, total);
    OnlyLiveCollected(b, i);
    OneInvoiceChanged(b, i, b.invoices[i].(total := total));
    NoneLeftToRead(Retotal(b, i, total).value, Retotal(b, i, total).value, i);
  }

  // Every call, every run ------------------------------------------------------------

  lemma PaperCallKeeps(b: Books, call: Call)
    requires LedgerInv(b) && RecordsPaper(call) && Perform(b, call).Ok?
    ensures LedgerInv(Perform(b, call).value)
  {
    var counted, p := PaperCall(b, call);
    CountersFrame(b, counted);
    if PaperSource(p.kind) == OpeningSource {
      OpeningKeeps(counted, p);
    } else {
      RecordKeeps(counted, p);
    }
  }

  /** Whatever is called, and whether it commits or refuses, the invariant holds after. */
  lemma CallKeeps(b: Books, call: Call)
    requires LedgerInv(b)
    ensures LedgerInv(After(b, call))
  {
    if Perform(b, call).Ok? {
      match call
      case NextDay => CountersFrame(b, After(b, call));
      case CallOpenAccount(kind, party, currency) =>
        AccountAdded(b, kind, party, currency);
        AllocationFrame(b, After(b, call));
      case CallOpenTill(_) => CountersFrame(b, After(b, call));
      case CallSetTillActive(_, _) => CountersFrame(b, After(b, call));
      case CallSetClosedThrough(_) => CountersFrame(b, After(b, call));
      case CallDraftInvoice(customer, currency, total) =>
        InvoiceAdded(b, customer, currency, total);
        InvoiceAppended(b, Invoice(customer, currency, Draft, total, None, None, None));
      case CallRetotal(i, total) => RetotalKeeps(b, i, total);
      case CallIssue(i, number, date, unpriced) => IssueKeeps(b, i, number, date, unpriced);
      case CallMarkPaid(i, paidOn, till) => MarkPaidKeeps(b, i, paidOn, till);
      case CallCancelInvoice(i) => CancelInvoiceKeeps(b, i);
      case CallRecordCollection(a, t, amount, date, applies) => CollectionKeeps(b, a, t, amount, date, applies);
      case CallApplyCollection(c, applies) => ApplyKeeps(b, c, applies);
      case CallCancelCollection(c) => CancelCollectionKeeps(b, c);
      case CallRecordPaymentOut(_, _, _, _) => PaperCallKeeps(b, call);
      case CallRecordManualEntry(_, _, _, _, _) => PaperCallKeeps(b, call);
      case CallRecordTransfer(_, _, _, _, _, _, _) => PaperCallKeeps(b, call);
      case CallRecordOpening(_, _, _, _, _) => PaperCallKeeps(b, call);
      case CallCancelPaper(p) => CancelPaperKeeps(b, p);
    }
  }

  /** The books of a firm, after any calls in any order, refused ones among them. */
  lemma {:induction false} RunKeeps(b: Books, calls: seq<Call>)
    requires LedgerInv(b)
    ensures LedgerInv(Run(b, calls))
    decreases |calls|
  {
    if calls != [] {
      CallKeeps(b, calls[0]);
      RunKeeps(After(b, calls[0]), calls[1..]);
    }
  }
}
