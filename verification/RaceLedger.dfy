/** The rows the lock-by-lock model races over are the ledger's: what one of its transactions may write, and writes when it
    commits, is one call of the ledger. (apps/ledger/services.py) */
module RaceLedger {
  import opened Acceptance
  import opened Allocation
  import opened Books
  import CallEffects
  import CallShapes
  import Posting
  import opened LedgerRuns
  import Race = CancelRace
  import opened Results
  import opened Services
  import opened Sums

  function Natural(n: int): nat {
    if n < 0 then 0 else n
  }

  /** The books as that model sees them; papers of other kinds are collections that never stand. */
  function DbOf(b: Books): (db: Race.Db)
    ensures |db.invoices| == |b.invoices| && |db.collections| == |b.papers| && |db.applications| == |b.applications|
    ensures forall i :: 0 <= i < |b.invoices| ==>
              db.invoices[i] == Race.Invoice(Natural(b.invoices[i].total), b.invoices[i].status == Paid)
    ensures forall c :: 0 <= c < |b.papers| ==>
              db.collections[c] == Race.Collection(Natural(b.papers[c].amount),
                                                   b.papers[c].cancelled || !b.papers[c].kind.Collection?)
    ensures db.applications == Rows(b.applications)
  {
    Race.Db(
      seq(|b.invoices|, i requires 0 <= i < |b.invoices| =>
        Race.Invoice(Natural(b.invoices[i].total), b.invoices[i].status == Paid)),
      seq(|b.papers|, c requires 0 <= c < |b.papers| =>
        Race.Collection(Natural(b.papers[c].amount), b.papers[c].cancelled || !b.papers[c].kind.Collection?)),
      Rows(b.applications))
  }

  function Rows(apps: seq<Application>): (rows: seq<Race.Application>)
    ensures |rows| == |apps|
    ensures forall k :: 0 <= k < |apps| ==>
              rows[k] == Race.Application(apps[k].collection, apps[k].invoice, Natural(apps[k].amount))
  {
    seq(|apps|, k requires 0 <= k < |apps| =>
      Race.Application(apps[k].collection, apps[k].invoice, Natural(apps[k].amount)))
  }

  lemma {:induction false} CollectedIs(b: Books, n: nat, i: nat)
    requires ApplicationsKnown(b) && n <= |b.applications|
    ensures Race.Collected(DbOf(b).applications[..n], DbOf(b).collections, i) ==
            SumTo(n, PaidBy(b.papers, b.applications, i))
  {
    hide DbOf, ApplicationsKnown;
    if n > 0 {
      CollectedIs(b, n - 1, i);
      LastKnown(b, n - 1);
      var rows := DbOf(b).applications;
      assert rows[..n][..n - 1] == rows[..n - 1] && rows[..n][n - 1] == rows[n - 1];
    }
  }

  lemma LastKnown(b: Books, k: nat)
    requires ApplicationsKnown(b) && k < |b.applications|
    ensures b.applications[k].amount > 0 && b.applications[k].collection < |b.papers|
    ensures b.papers[b.applications[k].collection].kind.Collection?
  {
  }

  lemma {:induction false} AppliedIs(b: Books, n: nat, c: nat)
    requires ApplicationsKnown(b) && n <= |b.applications|
    ensures Race.Applied(DbOf(b).applications[..n], c) == SumTo(n, TakenFrom(b.applications, c))
  {
    if n > 0 {
      AppliedIs(b, n - 1, c);
      var rows := DbOf(b).applications;
      assert rows[..n][..n - 1] == rows[..n - 1] && rows[..n][n - 1] == rows[n - 1];
    }
  }

  /** The sums of the two models are the same sums. */
  lemma SumsAgree(b: Books, c: nat, i: nat)
    requires ApplicationsKnown(b)
    ensures Race.Paying(DbOf(b), i) == Collected(b.papers, b.applications, i)
    ensures Race.Applied(DbOf(b).applications, c) == Allocated(b.applications, c)
    ensures i in Race.AppliedInvoices(DbOf(b).applications, c) <==>
              exists k :: 0 <= k < |b.applications| && b.applications[k].collection == c && b.applications[k].invoice == i
  {
    var rows := DbOf(b).applications;
    assert rows[..|rows|] == rows;
    CollectedIs(b, |rows|, i);
    AppliedIs(b, |rows|, c);
    forall k | 0 <= k < |b.applications| && b.applications[k].collection == c && b.applications[k].invoice == i
      ensures i in Race.AppliedInvoices(rows, c)
    {
      assert rows[k] in rows;
    }
  }

  // What is asked ---------------------------------------------------------------------------

  function AskedFor(wants: Race.Wants): (applies: seq<Applied>)
    ensures |applies| == |wants|
    ensures forall k :: 0 <= k < |wants| ==> applies[k] == Applied(wants[k].0, OfCents(wants[k].1))
  {
    seq(|wants|, k requires 0 <= k < |wants| => Applied(wants[k].0, OfCents(wants[k].1)))
  }

  predicate AllAsk(wants: Race.Wants) {
    forall k :: 0 <= k < |wants| ==> wants[k].1 > 0
  }

  lemma PerInvoiceAsked(wants: Race.Wants, k: nat)
    requires Race.InKeyOrder(wants) && AllAsk(wants) && k < |wants|
    ensures PerInvoice(AskedFor(wants), wants[k].0) == wants[k].1
  {
    var applies := AskedFor(wants);
    SumOnly(|applies|, AmountFor(applies, wants[k].0), k);
  }

  lemma {:induction false} TotalAsked(wants: Race.Wants, n: nat)
    requires AllAsk(wants) && n <= |wants|
    ensures SumTo(n, AnyAmount(AskedFor(wants))) == Race.Total(wants[..n])
  {
    if n > 0 {
      TotalAsked(wants, n - 1);
      assert wants[..n][..n - 1] == wants[..n - 1];
    }
  }

  /** Invoice i is one the collection's customer may pay, in its currency. */
  predicate Payer(b: Books, c: nat, i: nat) {
    && c < |b.papers| && b.papers[c].kind.Collection? && i < |b.invoices| && Payable(b.invoices[i].status)
    && b.papers[c].kind.account < |b.accounts|
    && IsAccountOf(b.accounts[b.papers[c].kind.account], Customer, b.invoices[i].customer, b.invoices[i].currency)
  }

  /** A transaction goes on to write its applications just when the ledger accepts them. */
  lemma ApplyIsAllowed(b: Books, c: nat, wants: Race.Wants)
    requires LedgerInv(b) && Race.InKeyOrder(wants)
    ensures Perform(b, CallApplyCollection(c, AskedFor(wants))).Ok? <==>
              && wants != [] && Race.Stands(DbOf(b).collections, c) && Race.Allowed(DbOf(b), c, wants)
              && forall k :: 0 <= k < |wants| ==> Payer(b, c, wants[k].0)
  {
    hide LedgerInv, Perform, Collected, Allocated, PerInvoice, TotalApplied, Race.Applied, Race.Total, Race.Paying;
    var applies := AskedFor(wants);
    ApplyAccepted(b, c, applies);
    if c < |b.papers| && b.papers[c].kind.Collection? && wants != [] {
      Known(b, c);
      if AllAsk(wants) {
        TotalAsked(wants, |wants|);
        assert wants[..|wants|] == wants;
        forall k | 0 <= k < |wants|
          ensures MayPay(b, c, b.accounts[b.papers[c].kind.account], wants[k].0, PerInvoice(applies, wants[k].0)) <==>
                    && Payer(b, c, wants[k].0)
                    && Race.Paying(DbOf(b), wants[k].0) + wants[k].1 <= DbOf(b).invoices[wants[k].0].total
                    && wants[k].0 !in Race.AppliedInvoices(DbOf(b).applications, c)
        {
          PerInvoiceAsked(wants, k);
          MayPayIs(b, c, wants[k].0, wants[k].1);
        }
        SumsAgree(b, c, 0);
        assert TotalApplied(applies) == Race.Total(wants) by { TotalIs(applies); }
        hide MayPay, Payer;
      } else {
        var k :| 0 <= k < |wants| && wants[k].1 <= 0;
        assert !IsMoney(applies[k].amount);
      }
    }
  }

  lemma TotalIs(applies: seq<Applied>)
    ensures TotalApplied(applies) == SumTo(|applies|, AnyAmount(applies))
  {
  }

  lemma Known(b: Books, c: nat)
    requires LedgerInv(b) && c < |b.papers| && b.papers[c].kind.Collection?
    ensures ApplicationsKnown(b) && b.papers[c].kind.account < |b.accounts| && b.papers[c].amount > 0
    ensures forall i :: 0 <= i < |b.invoices| && Payable(b.invoices[i].status) ==> b.invoices[i].total >= 0
  {
    assert CallShapes.PaperSound(b.papers[c]);
    forall i | 0 <= i < |b.invoices| && Payable(b.invoices[i].status)
      ensures b.invoices[i].total >= 0
    {
      assert WithinInvoice(b, i);
    }
  }

  lemma MayPayIs(b: Books, c: nat, i: nat, asked: int)
    requires ApplicationsKnown(b) && c < |b.papers| && b.papers[c].kind.Collection?
    requires b.papers[c].kind.account < |b.accounts|
    requires i < |b.invoices| && Payable(b.invoices[i].status) ==> b.invoices[i].total >= 0
    ensures MayPay(b, c, b.accounts[b.papers[c].kind.account], i, asked) <==>
              && Payer(b, c, i) && Race.Paying(DbOf(b), i) + asked <= DbOf(b).invoices[i].total
              && i !in Race.AppliedInvoices(DbOf(b).applications, c)
  {
    hide Collected, Race.Paying, Race.AppliedInvoices;
    SumsAgree(b, c, i);
  }

  // What is written -------------------------------------------------------------------------

  lemma NamedIs(wants: Race.Wants, i: nat)
    ensures i in Named(AskedFor(wants)) <==> exists k :: 0 <= k < |wants| && wants[k].0 == i
  {
    forall k | 0 <= k < |wants| && wants[k].0 == i
      ensures i in Named(AskedFor(wants))
    {
      assert AskedFor(wants)[k].invoice == i;
    }
  }

  /** The applications written for the invoices below n are those of the first m wants. */
  lemma {:induction false} NewIsAsked(c: nat, wants: Race.Wants, n: nat, m: nat)
    requires Race.InKeyOrder(wants) && AllAsk(wants) && m <= |wants|
    requires (forall k :: 0 <= k < m ==> wants[k].0 < n) && forall k :: m <= k < |wants| ==> wants[k].0 >= n
    ensures Rows(NewApplications(c, AskedFor(wants), n)) == Race.NewApplications(c, wants[..m])
  {
    if n > 0 {
      NamedIs(wants, n - 1);
      if m > 0 && wants[m - 1].0 == n - 1 {
        NewIsAsked(c, wants, n - 1, m - 1);
        PerInvoiceAsked(wants, m - 1);
      } else {
        if m > 0 {
          assert forall k :: 0 <= k < m ==> wants[k].0 <= wants[m - 1].0;
        }
        NewIsAsked(c, wants, n - 1, m);
      }
    }
  }

  /** The statuses given at the end are those read after the writes. */
  lemma SyncIsPublished(b: Books, written: Books, which: set<Id>, job: Race.Job)
    requires ApplicationsKnown(written) && written.invoices == b.invoices
    requires DbOf(written) == Race.Written(DbOf(b), job)
    requires forall i :: i in which && i < |b.invoices| ==> Payable(b.invoices[i].status) && b.invoices[i].total >= 0
    ensures DbOf(SyncIn(written, which)) == Race.Published(DbOf(b), job, Race.Statuses(DbOf(written), which))
  {
    hide Collected, Race.Paying, LatestPayment, Race.Written;
    var after, paid := SyncIn(written, which), Race.Statuses(DbOf(written), which);
    var published := Race.Published(DbOf(b), job, paid);
    forall i | 0 <= i < |b.invoices|
      ensures DbOf(after).invoices[i] == published.invoices[i]
    {
      SumsAgree(written, 0, i);
    }
    assert DbOf(after).invoices == published.invoices;
    assert DbOf(after).collections == DbOf(written).collections;
  }

  /** A transaction that applies an advance, at the end of its locks, publishes what the ledger's call makes of the books. */
  lemma ApplyIsCommit(b: Books, c: nat, wants: Race.Wants)
    requires LedgerInv(b) && Race.InKeyOrder(wants) && Perform(b, CallApplyCollection(c, AskedFor(wants))).Ok?
    ensures var job := Race.Apply(c, wants);
            DbOf(Perform(b, CallApplyCollection(c, AskedFor(wants))).value) ==
              Race.Published(DbOf(b), job, Race.Statuses(Race.Written(DbOf(b), job), Race.InvoicesOf(wants)))
  {
    hide LedgerInv, Perform, Payer, Race.Allowed, Race.Stands, Race.Statuses, Race.Published, SyncIn;
    var call, job := CallApplyCollection(c, AskedFor(wants)), Race.Apply(c, wants);
    ApplyIsAllowed(b, c, wants);
    AllowedAsks(DbOf(b), c, wants);
    CallKeeps(b, call);
    var after := Perform(b, call).value;
    var written := AppliedRows(b, c, wants);
    assert wants[..|wants|] == wants;
    NewIsAsked(c, wants, |b.invoices|, |wants|);
    WantsAreNamed(wants);
    forall i | i in Named(AskedFor(wants)) && i < |b.invoices|
      ensures Payable(b.invoices[i].status) && b.invoices[i].total >= 0
    {
      WantsArePayable(b, c, wants, i);
    }
    assert DbOf(written) == Race.Written(DbOf(b), job);
    WrittenKnown(written, Named(AskedFor(wants)));
    SyncIsPublished(b, written, Named(AskedFor(wants)), job);
  }

  lemma WrittenKnown(written: Books, which: set<Id>)
    requires LedgerInv(SyncIn(written, which))
    ensures ApplicationsKnown(written)
  {
  }

  lemma AllowedAsks(db: Race.Db, c: nat, wants: Race.Wants)
    requires Race.Allowed(db, c, wants)
    ensures AllAsk(wants) && forall k :: 0 <= k < |wants| ==> wants[k].0 < |db.invoices|
  {
  }

  lemma WantsAreNamed(wants: Race.Wants)
    ensures Named(AskedFor(wants)) == Race.InvoicesOf(wants)
  {
    forall i: nat
      ensures i in Named(AskedFor(wants)) <==> i in Race.InvoicesOf(wants)
    {
      NamedIs(wants, i);
    }
  }

  lemma WantsArePayable(b: Books, c: nat, wants: Race.Wants, i: nat)
    requires LedgerInv(b) && i in Named(AskedFor(wants)) && i < |b.invoices|
    requires forall k :: 0 <= k < |wants| ==> Payer(b, c, wants[k].0)
    ensures Payable(b.invoices[i].status) && b.invoices[i].total >= 0
  {
    NamedIs(wants, i);
    assert WithinInvoice(b, i);
  }

  /** The books once the applications are written. */
  lemma AppliedRows(b: Books, c: nat, wants: Race.Wants) returns (written: Books)
    requires Perform(b, CallApplyCollection(c, AskedFor(wants))).Ok?
    ensures written == b.(applications := b.applications + NewApplications(c, AskedFor(wants), |b.invoices|))
    ensures Perform(b, CallApplyCollection(c, AskedFor(wants))).value == SyncIn(written, Named(AskedFor(wants)))
  {
    hide Named, NewApplications, FirstObstacle, SyncIn, AskedFor, TotalApplied, Allocated;
    written := b.(applications := b.applications + NewApplications(c, AskedFor(wants), |b.invoices|));
  }

  /** A transaction that cancels a collection goes on past its document's lock, on an open day, just when the ledger's call
      is accepted, and publishes what that makes of the books. */
  lemma CancelIsCommit(b: Books, c: nat)
    requires LedgerInv(b)
    ensures Perform(b, CallCancelCollection(c)).Ok? <==> Race.Stands(DbOf(b).collections, c) && DayOpen(b, b.today)
    ensures var job, ids := Race.Cancel(c), Race.AppliedInvoices(DbOf(b).applications, c);
            Perform(b, CallCancelCollection(c)).Ok? ==>
              DbOf(Perform(b, CallCancelCollection(c)).value) ==
              Race.Published(DbOf(b), job, Race.Statuses(Race.Written(DbOf(b), job), ids))
  {
    hide LedgerInv, Perform, Race.Statuses, Race.Published, SyncIn, Race.AppliedInvoices, AppliedInvoices;
    CallEffects.CancelCollectionMoves(b, c, TillSide(0));
    if Perform(b, CallCancelCollection(c)).Ok? {
      var job := Race.Cancel(c);
      CallKeeps(b, CallCancelCollection(c));
      var written := CancelledRows(b, c);
      WrittenKnown(written, AppliedInvoices(b.applications, c));
      SameInvoices(b, c);
      forall i | i in AppliedInvoices(b.applications, c) && i < |b.invoices|
        ensures Payable(b.invoices[i].status) && b.invoices[i].total >= 0
      {
        PaidArePayable(b, c, i);
      }
      assert DbOf(written) == Race.Written(DbOf(b), job);
      SyncIsPublished(b, written, AppliedInvoices(b.applications, c), job);
    }
  }

  lemma CancelledRows(b: Books, c: nat) returns (written: Books)
    requires LedgerInv(b) && Perform(b, CallCancelCollection(c)).Ok?
    ensures c < |b.papers| && !b.papers[c].cancelled
    ensures written == b.(movements := written.movements, papers := b.papers[c := b.papers[c].(cancelled := true)])
    ensures Perform(b, CallCancelCollection(c)).value == SyncIn(written, AppliedInvoices(b.applications, c))
  {
    hide LedgerInv, SyncIn, AppliedInvoices, Posting.Mirrors, Posting.AnyStanding;
    written := StampCancelled(b, c).value;
  }

  lemma SameInvoices(b: Books, c: nat)
    requires LedgerInv(b)
    ensures AppliedInvoices(b.applications, c) == Race.AppliedInvoices(DbOf(b).applications, c)
  {
    forall i: nat
      ensures i in AppliedInvoices(b.applications, c) <==> i in Race.AppliedInvoices(DbOf(b).applications, c)
    {
      SumsAgree(b, c, i);
    }
  }

  lemma PaidArePayable(b: Books, c: nat, i: nat)
    requires LedgerInv(b) && c < |b.papers| && !b.papers[c].cancelled
    requires i in AppliedInvoices(b.applications, c) && i < |b.invoices|
    ensures Payable(b.invoices[i].status) && b.invoices[i].total >= 0
  {
    var k :| 0 <= k < |b.applications| && b.applications[k].collection == c && b.applications[k].invoice == i;
    assert Counts(b.papers, b.applications[k]) && Fits(b, b.applications[k]) && WithinInvoice(b, i);
  }
}
