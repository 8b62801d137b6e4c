/**
 * Over every run, transfers between tills and their reversals cancel out, currency
 * by currency and window by window: so what a currency's cash moved is its money in
 * less its money out, and openings.
 */
module FinanceRuns {
  import opened Results
  import opened Books
  import opened Posting
  import opened Services
  import CallShapes
  import opened Reversal
  import opened Effects
  import opened LedgerRuns
  import Statements
  import ClosedBooks
  import opened Finance

  ghost predicate TransfersCancel(ms: seq<Movement>) {
    forall c: Currency, lo: Day, hi: Day :: SpringNet(ms, Pool(c), TransferSource, lo, hi) == 0
  }

  // Posting -------------------------------------------------------------------------

  lemma OtherOriginal(ms: seq<Movement>, m: Movement)
    requires WellMirrored(ms) && TransfersCancel(ms)
    requires m.reverses.None? && m.amount > 0
    requires m.source != TransferSource || m.cash.NoCash?
    ensures WellMirrored(ms + [m]) && TransfersCancel(ms + [m])
  {
    AppendOriginalWell(ms, m);
    forall c: Currency, lo: Day, hi: Day
      ensures SpringNet(ms + [m], Pool(c), TransferSource, lo, hi) == 0
    {
      SpringAppend(ms, m, Pool(c), TransferSource, lo, hi);
    }
  }

  /** Legs of any paper but a till transfer carry no transferred cash. */
  lemma {:induction false} OtherLegs(b: Books, p: Paper, r: DocumentRef, legs: seq<(PartyLeg, CashLeg)>)
    requires WellMirrored(b.movements) && TransfersCancel(b.movements)
    requires PaperSource(p.kind) != TransferSource || forall i :: 0 <= i < |legs| ==> legs[i].1.NoCash?
    requires PostLegs(b, p, r, legs).Ok?
    ensures TransfersCancel(PostLegs(b, p, r, legs).value.movements)
    decreases |legs|
  {
    if legs != [] {
      var m := LegMovement(p, r, legs[0]);
      OtherOriginal(b.movements, m);
      OtherLegs(Post(b, m).value, p, r, legs[1..]);
    }
  }

  /** A till transfer's two legs cancel on the day they share. */
  lemma TransferLegs(b: Books, p: Paper, r: DocumentRef)
    requires WellMirrored(b.movements) && TransfersCancel(b.movements)
    requires p.kind.TillTransfer?
    requires PostLegs(b, p, r, Legs(p.kind)).Ok?
    ensures TransfersCancel(PostLegs(b, p, r, Legs(p.kind)).value.movements)
  {
    var legs := Legs(p.kind);
    assert legs[1..] == [legs[1]] && legs[1..][1..] == [];
    var first, second := LegMovement(p, r, legs[0]), LegMovement(p, r, legs[1]);
    var ms := b.movements;
    var between := Post(b, first).value;
    var after := Post(between, second).value;
    assert PostLegs(after, p, r, []) == Ok(after);
    assert PostLegs(between, p, r, legs[1..]) == Ok(after);
    assert after.movements == (ms + [first]) + [second];
    AppendOriginalWell(ms, first);
    AppendOriginalWell(ms + [first], second);
    forall c: Currency, lo: Day, hi: Day
      ensures SpringNet(after.movements, Pool(c), TransferSource, lo, hi) == 0
    {
      SpringAppend(ms, first, Pool(c), TransferSource, lo, hi);
      SpringAppend(ms + [first], second, Pool(c), TransferSource, lo, hi);
    }
  }

  lemma LegsCancel(b: Books, p: Paper, r: DocumentRef)
    requires WellMirrored(b.movements) && TransfersCancel(b.movements)
    requires PostLegs(b, p, r, Legs(p.kind)).Ok?
    ensures TransfersCancel(PostLegs(b, p, r, Legs(p.kind)).value.movements)
  {
    if p.kind.TillTransfer? {
      TransferLegs(b, p, r);
    } else {
      OtherLegs(b, p, r, Legs(p.kind));
    }
  }

  // Reversing -----------------------------------------------------------------------

  predicate IsTransfer(b: Books, r: DocumentRef) {
    r.PaperRef? && r.paper < |b.papers| && PaperSource(b.papers[r.paper].kind) == TransferSource
  }

  lemma MirrorSprings(ms: seq<Movement>, so: seq<Movement>, k: nat, date: Day, source: Source, s: Side, lo: Day, hi: Day)
    requires ms <= so && k < |ms| && MirrorSource(source)
    requires WellMirrored(so) && ms[k].reverses.None? && !Reversed(so, k)
    ensures SpringNet(so + [Mirror(ms[k], k, date, source)], s, TransferSource, lo, hi)
         == SpringNet(so, s, TransferSource, lo, hi)
            - (if InWindow(date, lo, hi) && ms[k].source == TransferSource then SignedOn(ms[k], s) else 0)
  {
    var m := Mirror(ms[k], k, date, source);
    var all := so + [m];
    AppendMirrorWell(so, m, k);
    SpringAppend(so, m, s, TransferSource, lo, hi);
    assert all[k] == ms[k] && all[|so|] == m;
    assert IsMirrorOf(all[|so|], k, all[k]);
    MirrorNegates(m, k, ms[k], s);
  }

  lemma StandingIsTransfer(b: Books, r: DocumentRef, k: nat)
    requires MovementsKnown(b) && Standing(b.movements, r, k)
    ensures b.movements[k].source == TransferSource <==> IsTransfer(b, r)
  {
    assert RefKnown(b, r) && SourceFits(b, b.movements[k]);
  }

  /** Every standing original of the document springs from a transfer, or none does. */
  ghost predicate AllTransfers(ms: seq<Movement>, r: DocumentRef, transfers: bool) {
    forall k: nat :: Standing(ms, r, k) ==> (ms[k].source == TransferSource) == transfers
  }

  lemma SpringUnfolds(ms: seq<Movement>, r: DocumentRef, n: nat, date: Day, source: Source, s: Side, lo: Day, hi: Day)
    requires WellMirrored(ms) && 0 < n <= |ms| && MirrorSource(source)
    requires Standing(ms, r, n - 1)
    ensures SpringNet(Mirrored(ms, r, n, date, source), s, TransferSource, lo, hi)
         == SpringNet(Mirrored(ms, r, n - 1, date, source), s, TransferSource, lo, hi)
            - (if InWindow(date, lo, hi) && ms[n - 1].source == TransferSource then SignedOn(ms[n - 1], s) else 0)
  {
    MirrorsWell(ms, r, n - 1, date, source);
    StandingMirrored(ms, r, n - 1, date, source);
    MirroredUnfolds(ms, r, n, date, source);
    MirroredUnfolds(ms, r, n - 1, date, source);
    MirrorSprings(ms, Mirrored(ms, r, n - 1, date, source), n - 1, date, source, s, lo, hi);
  }

  /** A transfer's mirrors take back, on one day, what its standing legs had moved. */
  lemma {:induction false} MirrorsSpring(ms: seq<Movement>, r: DocumentRef, transfers: bool, n: nat, date: Day,
      source: Source,
                                         s: Side, lo: Day, hi: Day)
    requires WellMirrored(ms) && AllTransfers(ms, r, transfers) && n <= |ms| && MirrorSource(source)
    ensures SpringNet(Mirrored(ms, r, n, date, source), s, TransferSource, lo, hi)
         == SpringNet(ms, s, TransferSource, lo, hi)
            - (if InWindow(date, lo, hi) && transfers then StandingNet(ms, r, s, n) else 0)
  {
    if n == 0 {
      MirroredUnfolds(ms, r, n, date, source);
    } else {
      MirrorsSpring(ms, r, transfers, n - 1, date, source, s, lo, hi);
      if Standing(ms, r, n - 1) {
        SpringUnfolds(ms, r, n, date, source, s, lo, hi);
      } else {
        MirroredUnfolds(ms, r, n, date, source);
      }
    }
  }

  lemma ReversalCancels(b: Books, r: DocumentRef, source: Source)
    requires MovesInv(b) && PapersSound(b.papers) && TransfersCancel(b.movements)
    requires ReverseDocument(b, r, b.today, source).Ok?
    ensures TransfersCancel(ReverseDocument(b, r, b.today, source).value.movements)
  {
    var ms := b.movements;
    var after := ReverseDocument(b, r, b.today, source).value.movements;
    forall k: nat | Standing(ms, r, k)
      ensures (ms[k].source == TransferSource) == IsTransfer(b, r)
    {
      StandingIsTransfer(b, r, k);
    }
    forall c: Currency, lo: Day, hi: Day
      ensures SpringNet(after, Pool(c), TransferSource, lo, hi) == 0
    {
      MirrorsSpring(ms, r, IsTransfer(b, r), |ms|, b.today, source, Pool(c), lo, hi);
      if IsTransfer(b, r) {
        NetIsStanding(ms, r, Pool(c));
        assert Net(ms, PaperRef(r.paper), Pool(c)) == StandingEffect(b.papers[r.paper], Pool(c)) == 0;
      }
    }
  }

  // Every call ----------------------------------------------------------------------

  lemma RecordCancels(b: Books, p: Paper)
    requires WellMirrored(b.movements) && TransfersCancel(b.movements)
    requires Record(b, p).Ok?
    ensures TransfersCancel(Record(b, p).value.movements)
  {
    LegsCancel(b.(papers := b.papers + [p]), p, PaperRef(|b.papers|));
  }

  lemma CollectionCancels(b: Books, account: Id, till: Id, amount: Decimal, date: Day, applies: seq<Applied>)
    requires WellMirrored(b.movements) && TransfersCancel(b.movements)
    requires RecordCollection(b, account, till, amount, date, applies).Ok?
    ensures TransfersCancel(RecordCollection(b, account, till, amount, date, applies).value.movements)
  {
    var c := |b.papers|;
    var p := Paper(Collection(account, till), Cents(amount), b.accounts[account].currency, date,
                   b.lastCollection + 1, false);
    var created := b.(papers := b.papers + [p], lastCollection := b.lastCollection + 1);
    var applied := Apply(created, c, b.accounts[account], applies, Cents(amount)).value;
    LegsCancel(applied, p, PaperRef(c));
  }

  lemma IssueCancels(b: Books, call: Call)
    requires LedgerInv(b) && TransfersCancel(b.movements)
    requires call.CallIssue? && Perform(b, call).Ok?
    ensures TransfersCancel(After(b, call).movements)
  {
    var CallIssue(i, number, date, _) := call;
    var issued := b.invoices[i].(status := Issued, number := Some(number), date := Some(date));
    PostedCancels(b, b.(invoices := b.invoices[i := issued]), i);
  }

  lemma MarkPaidCancels(b: Books, call: Call)
    requires LedgerInv(b) && TransfersCancel(b.movements)
    requires call.CallMarkPaid? && Perform(b, call).Ok?
    ensures TransfersCancel(After(b, call).movements)
  {
    assert WellMirrored(b.movements);
    hide RecordCollection, TransfersCancel, LedgerInv, WellMirrored;
    var start, account, into, owed := CallShapes.MarkPaidCollects(b, call.paid, call.paidOn, call.paidInto);
    CollectionCancels(start, account, into, owed, call.paidOn, [Applied(call.paid, owed)]);
  }

  lemma PostedCancels(b: Books, marked: Books, i: Id)
    requires WellMirrored(b.movements) && TransfersCancel(b.movements)
    requires marked.movements == b.movements && PostInvoice(marked, i, None).Ok?
    ensures TransfersCancel(PostInvoice(marked, i, None).value.movements)
  {
    var inv := marked.invoices[i];
    var a := FindAccount(marked.accounts, Customer, inv.customer, inv.currency);
    var m := Movement(OnAccount(a, Debit), NoCash, inv.date.value, inv.total, inv.currency,
                      InvoiceSource, InvoiceRef(i), None);
    if PostInvoice(marked, i, None).value.movements != b.movements {
      OtherOriginal(b.movements, m);
    }
  }

  lemma PaperCallCancels(b: Books, call: Call)
    requires LedgerInv(b) && TransfersCancel(b.movements)
    requires CallShapes.RecordsPaper(call) && Perform(b, call).Ok?
    ensures TransfersCancel(After(b, call).movements)
  {
    var counted, p := CallShapes.PaperCall(b, call);
    RecordCancels(counted, p);
  }

  lemma CallCancels(b: Books, call: Call)
    requires LedgerInv(b) && TransfersCancel(b.movements)
    ensures TransfersCancel(After(b, call).movements)
  {
    if Perform(b, call).Ok? {
      if call.CallIssue? {
        IssueCancels(b, call);
      } else if call.CallMarkPaid? {
        MarkPaidCancels(b, call);
      } else if call.CallCancelInvoice? {
        if After(b, call).movements != b.movements {
          ReversalCancels(b, InvoiceRef(call.cancelledInvoice), InvoiceCancelSource);
        }
      } else if CallShapes.RecordsPaper(call) {
        PaperCallCancels(b, call);
      } else if call.CallRecordCollection? {
        CollectionCancels(b, call.account, call.intoTill, call.amount, call.date, call.applies);
      } else if call.CallCancelCollection? {
        ReversalCancels(b, PaperRef(call.collection), ReversalSource);
      } else if call.CallCancelPaper? {
        ReversalCancels(b, PaperRef(call.paper), ReversalSource);
      } else {
        ClosedBooks.WritesNoMovement(b, call);
      }
    }
  }

  lemma {:induction false} RunCancels(b: Books, calls: seq<Call>)
    requires LedgerInv(b) && TransfersCancel(b.movements)
    ensures LedgerInv(Run(b, calls)) && TransfersCancel(Run(b, calls).movements)
    decreases |calls|
  {
    if calls != [] {
      CallKeeps(b, calls[0]);
      CallCancels(b, calls[0]);
      RunCancels(After(b, calls[0]), calls[1..]);
    }
  }

  /**
   * In every run, what all the tills of a currency hold moved over a window by exactly
   * the money in less the money out the summary shows, and the openings of that window.
   */
  lemma CurrencyExplained(today: Day, calls: seq<Call>, c: Currency, lo: Day, hi: Day)
    requires lo <= hi + 1
    ensures var ms := Run(NewFirm(today), calls).movements;
            Statements.Change(ms, Pool(c), None, Some(hi)) - Statements.BalanceBefore(ms, Pool(c), lo) ==
              MoneyIn(ms, Pool(c), lo, hi) - MoneyOut(ms, Pool(c), lo, hi)
              + SpringNet(ms, Pool(c), OpeningSource, lo, hi)
  {
    NewFirmInv(today);
    RunCancels(NewFirm(today), calls);
    var ms := Run(NewFirm(today), calls).movements;
    WindowExplained(ms, Pool(c), lo, hi);
    NetIsInLessOut(ms, Pool(c), lo, hi);
    Statements.ChangeSplits(ms, Pool(c), lo, Some(hi));
  }
}
