/** The movements' unique key over invoices, in every run (apps/ledger/models.py, apps/ledger/posting.py). */
module InvoiceKeys {
  import opened Books
  import opened InvoiceFrames
  import opened Posting
  import opened Results
  import Reversal
  import opened Services

  /** An invoice posts once, and is cancelled once. */
  ghost predicate PostsOnce(ms: seq<Movement>) {
    forall j, k :: 0 <= j < k < |ms| && ms[j].source == ms[k].source && OncePerInvoice(ms[j].source) ==>
      ms[j].document != ms[k].document
  }

  /** A movement of an invoice is for its whole total, and the invoice is no draft. */
  predicate ForItsTotal(invoices: seq<Invoice>, m: Movement) {
    m.document.InvoiceRef? ==>
      && m.document.invoice < |invoices|
      && m.amount == invoices[m.document.invoice].total
      && invoices[m.document.invoice].status != Draft
  }

  ghost predicate KeysInv(b: Books) {
    PostsOnce(b.movements) && forall k :: 0 <= k < |b.movements| ==> ForItsTotal(b.invoices, b.movements[k])
  }

  lemma PapersKeepKeys(b: Books, c: Books)
    requires KeysInv(b) && OnlyPapers(b, c) && OnlyStatuses(b.invoices, c.invoices)
    ensures KeysInv(c)
  {
    forall k | 0 <= k < |c.movements|
      ensures ForItsTotal(c.invoices, c.movements[k])
    {
      assert k < |b.movements| ==> c.movements[k] == b.movements[k] && ForItsTotal(b.invoices, b.movements[k]);
    }
    forall j, k | 0 <= j < k < |c.movements| && c.movements[j].source == c.movements[k].source
                  && OncePerInvoice(c.movements[j].source)
      ensures c.movements[j].document != c.movements[k].document
    {
      assert c.movements[j] == b.movements[j] && c.movements[k] == b.movements[k];
    }
  }

  /** One more movement under a key not taken. */
  lemma OneMoreKey(ms: seq<Movement>, m: Movement)
    requires PostsOnce(ms) && !KeyTaken(ms, m.source, m.document)
    ensures PostsOnce(ms + [m])
  {
    var ns := ms + [m];
    forall j, k | 0 <= j < k < |ns| && ns[j].source == ns[k].source && OncePerInvoice(ns[j].source)
      ensures ns[j].document != ns[k].document
    {
      assert ns[j] == ms[j];
    }
  }

  /** The invoices as they are but for one that no movement names. */
  lemma UnnamedChanged(invoices: seq<Invoice>, ms: seq<Movement>, i: Id, inv: Invoice)
    requires i < |invoices| && invoices[i].status == Draft
    requires forall k :: 0 <= k < |ms| ==> ForItsTotal(invoices, ms[k])
    ensures forall k :: 0 <= k < |ms| ==> ForItsTotal(invoices[i := inv], ms[k])
  {
  }

  lemma PostingIsOne(b: Books, i: Id)
    requires PostInvoice(b, i, None).Ok? && i < |b.invoices|
    ensures var c := PostInvoice(b, i, None).value;
            && c.invoices == b.invoices
            && (c.movements == b.movements
                || (|c.movements| == |b.movements| + 1 && c.movements[..|b.movements|] == b.movements
                    && var m := c.movements[|b.movements|];
                       && m.document == InvoiceRef(i) && m.source == InvoiceSource && m.amount == b.invoices[i].total
                       && !KeyTaken(b.movements, m.source, m.document)))
  {
    hide FindAccount, BeforeAnOpening, KeyTaken, CheckDate, SidesKnown, SameCurrency;
  }

  lemma IssueKeepsKeys(b: Books, i: Id, number: nat, date: Day, linesNeedPrice: bool)
    requires KeysInv(b) && Issue(b, i, number, date, linesNeedPrice).Ok?
    ensures KeysInv(Issue(b, i, number, date, linesNeedPrice).value)
  {
    hide PostInvoice, NumberTaken, PostsOnce, ForItsTotal, SyncIn;
    var issued := b.invoices[i].(status := Issued, number := Some(number), date := Some(date));
    var marked := b.(invoices := b.invoices[i := issued]);
    var posted := PostInvoice(marked, i, None).value;
    UnnamedChanged(b.invoices, b.movements, i, issued);
    PostingIsOne(marked, i);
    if posted.movements != b.movements {
      var m := posted.movements[|b.movements|];
      OneMoreKey(b.movements, m);
      assert posted.movements == b.movements + [m];
      IssuedForItsTotal(marked.invoices, m, i);
    }
    SyncOnlyStatuses(posted, {i});
    SyncedKeys(posted, i);
  }

  lemma IssuedForItsTotal(invoices: seq<Invoice>, m: Movement, i: Id)
    requires i < |invoices| && m.document == InvoiceRef(i) && m.amount == invoices[i].total && invoices[i].status != Draft
    ensures ForItsTotal(invoices, m)
  {
  }

  lemma SyncedKeys(b: Books, i: Id)
    requires KeysInv(b)
    ensures KeysInv(SyncIn(b, {i}))
  {
    hide PostsOnce, Collected, LatestPayment;
    SyncOnlyStatuses(b, {i});
    var c := SyncIn(b, {i});
    forall k | 0 <= k < |c.movements|
      ensures ForItsTotal(c.invoices, c.movements[k])
    {
      assert ForItsTotal(b.invoices, b.movements[k]);
    }
  }

  lemma TwoWouldClash(ms: seq<Movement>, r: DocumentRef, date: Day, made: seq<Movement>)
    requires |made| > 1 && Reversal.InOrder(made, |ms|)
    requires forall m :: m in made ==> Reversal.MadeFrom(ms, r, |ms|, date, InvoiceCancelSource, m)
    ensures MirrorsClash(ms, r, InvoiceCancelSource)
  {
    hide Standing;
    assert made[0] in made && made[1] in made;
    assert Standing(ms, r, made[0].reverses.value) && Standing(ms, r, made[1].reverses.value);
  }

  /** A cancel writes one mirror at most, of the invoice's one posting. */
  lemma CancelIsOne(ms: seq<Movement>, r: DocumentRef, date: Day)
    requires !MirrorsClash(ms, r, InvoiceCancelSource)
    ensures |Mirrors(ms, r, |ms|, date, InvoiceCancelSource)| <= 1
  {
    hide Standing, MirrorsClash;
    var made := Mirrors(ms, r, |ms|, date, InvoiceCancelSource);
    Reversal.MirrorsShape(ms, r, |ms|, date, InvoiceCancelSource);
    Reversal.MirrorsInOrder(ms, r, |ms|, date, InvoiceCancelSource);
    if |made| > 1 {
      TwoWouldClash(ms, r, date, made);
    }
  }

  lemma CancelledKeys(b: Books, i: Id)
    requires KeysInv(b) && i < |b.invoices| && b.invoices[i].status != Draft
    requires ReverseDocument(b, InvoiceRef(i), b.today, InvoiceCancelSource).Ok?
    ensures KeysInv(ReverseDocument(b, InvoiceRef(i), b.today, InvoiceCancelSource).value)
  {
    hide PostsOnce, AnyStanding, CheckDate;
    var ms, r := b.movements, InvoiceRef(i);
    var made := Mirrors(ms, r, |ms|, b.today, InvoiceCancelSource);
    CancelIsOne(ms, r, b.today);
    Reversal.MirrorsShape(ms, r, |ms|, b.today, InvoiceCancelSource);
    if made == [] {
      assert ms + made == ms;
    } else {
      assert made[0] in made && made == [made[0]];
      assert ForItsTotal(b.invoices, ms[made[0].reverses.value]);
      OneMoreKey(ms, made[0]);
    }
  }

  lemma CancelKeepsKeys(b: Books, i: Id)
    requires KeysInv(b) && CancelInvoice(b, i).Ok?
    ensures KeysInv(CancelInvoice(b, i).value)
  {
    hide PostsOnce, ReverseDocument, Collected, KeyTaken;
    var gone := b.invoices[i].(status := Cancelled);
    if b.invoices[i].status != Draft && KeyTaken(b.movements, InvoiceSource, InvoiceRef(i)) {
      CancelledKeys(b, i);
    }
    var c := CancelInvoice(b, i).value;
    forall k | 0 <= k < |c.movements|
      ensures ForItsTotal(c.invoices, c.movements[k])
    {
      assert ForItsTotal(b.invoices, c.movements[k]);
    }
  }

  lemma CallKeepsKeys(b: Books, call: Call)
    requires KeysInv(b)
    ensures KeysInv(Services.After(b, call))
  {
    hide KeysInv, Issue, CancelInvoice, OnlyStatuses, OnlyPapers;
    if OfTheLedger(call) {
      LedgerOnlyPapers(b, call);
      LedgerOnlyStatuses(b, call);
      PapersKeepKeys(b, Services.After(b, call));
    } else if Perform(b, call).Ok? {
      match call
      case CallDraftInvoice(customer, currency, total) => DraftKeepsKeys(b, customer, currency, total);
      case CallRetotal(i, total) => RetotalKeepsKeys(b, i, total);
      case CallIssue(i, number, date, unpriced) => IssueKeepsKeys(b, i, number, date, unpriced);
      case CallCancelInvoice(i) => CancelKeepsKeys(b, i);
    }
  }

  lemma DraftKeepsKeys(b: Books, customer: Id, currency: Currency, total: int)
    requires KeysInv(b)
    ensures KeysInv(DraftInvoice(b, customer, currency, total))
  {
    hide PostsOnce;
    var c := DraftInvoice(b, customer, currency, total);
    forall k | 0 <= k < |c.movements|
      ensures ForItsTotal(c.invoices, c.movements[k])
    {
      assert ForItsTotal(b.invoices, b.movements[k]);
    }
  }

  lemma RetotalKeepsKeys(b: Books, i: Id, total: int)
    requires KeysInv(b) && Retotal(b, i, total).Ok?
    ensures KeysInv(Retotal(b, i, total).value)
  {
    hide PostsOnce;
    UnnamedChanged(b.invoices, b.movements, i, b.invoices[i].(total := total));
  }

  lemma {:induction false} RunKeepsKeys(b: Books, calls: seq<Call>)
    requires KeysInv(b)
    ensures KeysInv(Run(b, calls))
    decreases |calls|
  {
    hide KeysInv, Services.After;
    if calls != [] {
      CallKeepsKeys(b, calls[0]);
      RunKeepsKeys(Services.After(b, calls[0]), calls[1..]);
    }
  }

  /** In every run each invoice is posted once at most and cancelled once at most, and each of its movements is for its
      whole total. */
  lemma EachInvoiceOnce(today: Day, calls: seq<Call>)
    ensures KeysInv(Run(NewFirm(today), calls))
  {
    RunKeepsKeys(NewFirm(today), calls);
  }
}
