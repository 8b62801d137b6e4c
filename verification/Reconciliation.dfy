/**
 * The sub-ledger reconciles: an account's balance, which only ever adds movements
 * up, always equals what its documents say is owed.
 */
module Reconciliation {
  import opened Results
  import opened Sums
  import opened Books
  import Posting
  import opened Services
  import CallShapes
  import Reversal
  import opened Effects
  import opened Allocation
  import Openings
  import opened LedgerRuns

  // A balance is the sum over documents --------------------------------------------------

  function NetOfPapers(ms: seq<Movement>, s: Side): nat -> int {
    (p: nat) => Net(ms, PaperRef(p), s)
  }

  function NetOfInvoices(ms: seq<Movement>, s: Side): nat -> int {
    (i: nat) => Net(ms, InvoiceRef(i), s)
  }

  predicate Within(r: DocumentRef, papers: nat, invoices: nat) {
    match r
    case PaperRef(p) => p < papers
    case InvoiceRef(i) => i < invoices
  }

  lemma {:induction false} BalanceByDocument(ms: seq<Movement>, s: Side, papers: nat, invoices: nat)
    requires forall j :: 0 <= j < |ms| ==> Within(ms[j].document, papers, invoices)
    ensures Balance(ms, s) == SumTo(papers, NetOfPapers(ms, s)) + SumTo(invoices, NetOfInvoices(ms, s))
  {
    if ms == [] {
      SumZero(papers, NetOfPapers(ms, s));
      SumZero(invoices, NetOfInvoices(ms, s));
    } else {
      var n := |ms| - 1;
      var before, m := ms[..n], ms[n];
      assert ms == before + [m];
      assert Within(ms[n].document, papers, invoices);
      BalanceByDocument(before, s, papers, invoices);
      Reversal.BalanceAppend(before, m, s);
      forall r: DocumentRef
        ensures Net(ms, r, s) == Net(before, r, s) + (if m.document == r then SignedOn(m, s) else 0)
      {
        Reversal.NetAppend(before, m, r, s);
      }
      if m.document.PaperRef? {
        SumChange(papers, NetOfPapers(before, s), NetOfPapers(ms, s), m.document.paper);
        SumCongruent(invoices, NetOfInvoices(before, s), NetOfInvoices(ms, s));
      } else {
        SumChange(invoices, NetOfInvoices(before, s), NetOfInvoices(ms, s), m.document.invoice);
        SumCongruent(papers, NetOfPapers(before, s), NetOfPapers(ms, s));
      }
    }
  }

  function EffectOfPapers(b: Books, s: Side): nat -> int {
    (p: nat) => if p < |b.papers| then StandingEffect(b.papers[p], s) else 0
  }

  function EffectOfInvoices(b: Books, s: Side): nat -> int {
    (i: nat) => if i < |b.invoices| then InvoiceEffect(b.accounts, b.invoices[i], s) else 0
  }

  /** Every balance, an account's, a till's or a currency's, is what its standing documents mean. */
  lemma BalanceIsDocuments(b: Books, s: Side)
    requires MovesInv(b)
    ensures Balance(b.movements, s)
         == SumTo(|b.papers|, EffectOfPapers(b, s)) + SumTo(|b.invoices|, EffectOfInvoices(b, s))
  {
    forall j | 0 <= j < |b.movements|
      ensures Within(b.movements[j].document, |b.papers|, |b.invoices|)
    {
      assert RefKnown(b, b.movements[j].document);
    }
    BalanceByDocument(b.movements, s, |b.papers|, |b.invoices|);
    forall p: nat | p < |b.papers|
      ensures NetOfPapers(b.movements, s)(p) == EffectOfPapers(b, s)(p)
    {
      assert Net(b.movements, PaperRef(p), s) == StandingEffect(b.papers[p], s);
    }
    forall i: nat | i < |b.invoices|
      ensures NetOfInvoices(b.movements, s)(i) == EffectOfInvoices(b, s)(i)
    {
      assert Net(b.movements, InvoiceRef(i), s) == InvoiceEffect(b.accounts, b.invoices[i], s);
    }
    SumCongruent(|b.papers|, NetOfPapers(b.movements, s), EffectOfPapers(b, s));
    SumCongruent(|b.invoices|, NetOfInvoices(b.movements, s), EffectOfInvoices(b, s));
  }

  // Collected by invoice, or allocated by collection: the same money ------------------------

  predicate InvoiceOn(accounts: seq<Account>, inv: Invoice, a: Id) {
    && Payable(inv.status) && a < |accounts|
    && IsAccountOf(accounts[a], Customer, inv.customer, inv.currency)
  }

  predicate StandingOn(p: Paper, a: Id) {
    p.kind.Collection? && !p.cancelled && p.kind.account == a
  }

  function CollectedOn(b: Books, apps: seq<Application>, a: Id): nat -> int {
    (i: nat) => if i < |b.invoices| && InvoiceOn(b.accounts, b.invoices[i], a)
                then Collected(b.papers, apps, i) else 0
  }

  function AllocatedOn(b: Books, apps: seq<Application>, a: Id): nat -> int {
    (c: nat) => if c < |b.papers| && StandingOn(b.papers[c], a) then Allocated(apps, c) else 0
  }

  lemma FitsBothWays(b: Books, app: Application, a: Id)
    requires Fits(b, app) && AccountsDistinct(b.accounts)
    ensures InvoiceOn(b.accounts, b.invoices[app.invoice], a) <==> b.papers[app.collection].kind.account == a
  {
    var own := b.papers[app.collection].kind.account;
    if InvoiceOn(b.accounts, b.invoices[app.invoice], a) {
      assert b.accounts[own] == b.accounts[a];
    }
  }

  lemma {:induction false} SameMoney(b: Books, apps: seq<Application>, a: Id)
    requires AccountsDistinct(b.accounts)
    requires forall k :: 0 <= k < |apps| ==>
               apps[k].collection < |b.papers| && apps[k].invoice < |b.invoices| &&
               b.papers[apps[k].collection].kind.Collection? &&
               (Counts(b.papers, apps[k]) ==> Fits(b, apps[k]))
    ensures SumTo(|b.invoices|, CollectedOn(b, apps, a)) == SumTo(|b.papers|, AllocatedOn(b, apps, a))
  {
    if apps == [] {
      SumZero(|b.invoices|, CollectedOn(b, apps, a));
      SumZero(|b.papers|, AllocatedOn(b, apps, a));
    } else {
      var n := |apps| - 1;
      var before, app := apps[..n], apps[n];
      assert apps == before + [app];
      SameMoney(b, before, a);
      forall i: Id
        ensures Collected(b.papers, apps, i) ==
                Collected(b.papers, before, i) + (if app.invoice == i && Counts(b.papers, app) then app.amount else 0)
      {
        CollectedAppend(b.papers, before, app, i);
      }
      forall c: Id
        ensures Allocated(apps, c) == Allocated(before, c) + (if app.collection == c then app.amount else 0)
      {
        AllocatedAppend(before, app, c);
      }
      assert Counts(b.papers, apps[n]) ==> Fits(b, apps[n]);
      if Counts(b.papers, app) {
        FitsBothWays(b, app, a);
      }
      SumChange(|b.invoices|, CollectedOn(b, before, a), CollectedOn(b, apps, a), app.invoice);
      SumChange(|b.papers|, AllocatedOn(b, before, a), AllocatedOn(b, apps, a), app.collection);
    }
  }

  // The theorem ---------------------------------------------------------------------

  /** What an invoice still owes on this account. */
  function OwedOn(b: Books, a: Id): nat -> int {
    (i: nat) => if i < |b.invoices| && InvoiceOn(b.accounts, b.invoices[i], a) then Remaining(b, i) else 0
  }

  /** What a standing collection on this account brought in and has not yet paid out. */
  function UnallocatedOn(b: Books, a: Id): nat -> int {
    (c: nat) => if c < |b.papers| && StandingOn(b.papers[c], a)
                then b.papers[c].amount - Allocated(b.applications, c) else 0
  }

  /** Standing payments out, manual entries, transfers and the opening on this account. */
  function OtherwiseOn(b: Books, a: Id): nat -> int {
    (p: nat) => if p < |b.papers| && !b.papers[p].kind.Collection?
                then StandingEffect(b.papers[p], AccountSide(a)) else 0
  }

  function ReceivedOn(b: Books, a: Id): nat -> int {
    (c: nat) => if c < |b.papers| && b.papers[c].kind.Collection?
                then StandingEffect(b.papers[c], AccountSide(a)) else 0
  }

  function Minus(f: nat -> int): nat -> int {
    (i: nat) => -f(i)
  }

  lemma {:induction false} SumMinus(n: nat, f: nat -> int)
    ensures SumTo(n, Minus(f)) == -SumTo(n, f)
  {
    if n > 0 {
      SumMinus(n - 1, f);
    }
  }

  /**
   * Reconciliation. In every state a run can reach, an account's balance equals what
   * its live invoices still owe, less what its standing collections have left
   * unallocated, plus its other standing documents.
   */
  lemma Reconciles(b: Books, a: Id)
    requires LedgerInv(b)
    ensures Balance(b.movements, AccountSide(a))
         == SumTo(|b.invoices|, OwedOn(b, a)) - SumTo(|b.papers|, UnallocatedOn(b, a)) + SumTo(|b.papers|, OtherwiseOn(b, a))
  {
    var s := AccountSide(a);
    var apps := b.applications;
    BalanceIsDocuments(b, s);
    SumPlus(|b.papers|, ReceivedOn(b, a), OtherwiseOn(b, a), EffectOfPapers(b, s));
    SumPlus(|b.invoices|, OwedOn(b, a), CollectedOn(b, apps, a), EffectOfInvoices(b, s));
    var given := AllocatedOn(b, apps, a);
    SumPlus(|b.papers|, Minus(UnallocatedOn(b, a)), Minus(given), ReceivedOn(b, a));
    SumMinus(|b.papers|, UnallocatedOn(b, a));
    SumMinus(|b.papers|, given);
    forall k | 0 <= k < |apps|
      ensures Counts(b.papers, apps[k]) ==> Fits(b, apps[k])
    {
    }
    SameMoney(b, apps, a);
  }

  /** The firm that starts empty reconciles on every account after any calls. */
  lemma RunReconciles(today: Day, calls: seq<Call>, a: Id)
    ensures var b := Run(NewFirm(today), calls);
            Balance(b.movements, AccountSide(a)) ==
              SumTo(|b.invoices|, OwedOn(b, a)) - SumTo(|b.papers|, UnallocatedOn(b, a))
              + SumTo(|b.papers|, OtherwiseOn(b, a))
  {
    NewFirmInv(today);
    RunKeeps(NewFirm(today), calls);
    Reconciles(Run(NewFirm(today), calls), a);
  }

  /** In every run: invoices are never overpaid, and read as paid exactly when nothing remains. */
  lemma RunBounds(today: Day, calls: seq<Call>)
    ensures var b := Run(NewFirm(today), calls);
            && (forall i: nat :: i < |b.invoices| && Payable(b.invoices[i].status) ==>
                  && 0 <= Remaining(b, i) <= b.invoices[i].total
                  && (b.invoices[i].status == Paid <==> Remaining(b, i) == 0))
            && (forall c: nat :: c < |b.papers| && b.papers[c].kind.Collection? ==>
                  Allocated(b.applications, c) <= b.papers[c].amount)
  {
    NewFirmInv(today);
    RunKeeps(NewFirm(today), calls);
    var b := Run(NewFirm(today), calls);
    forall i: nat | i < |b.invoices| && Payable(b.invoices[i].status)
      ensures 0 <= Remaining(b, i) <= b.invoices[i].total
      ensures b.invoices[i].status == Paid <==> Remaining(b, i) == 0
    {
      StatusMeans(b, i);
    }
  }

  /** In every run a cancelled document weighs nothing, and no movement has two mirrors or mirrors a mirror. */
  lemma RunReversals(today: Day, calls: seq<Call>)
    ensures var b := Run(NewFirm(today), calls);
            && (forall p: nat, s: Side :: p < |b.papers| && b.papers[p].cancelled ==> Net(b.movements, PaperRef(p), s) == 0)
            && (forall i: nat, s: Side :: i < |b.invoices| && b.invoices[i].status == Cancelled ==>
                  Net(b.movements, InvoiceRef(i), s) == 0)
            && (forall i, j :: 0 <= i < j < |b.movements| && b.movements[i].reverses.Some? ==>
                  b.movements[i].reverses != b.movements[j].reverses)
            && (forall j :: 0 <= j < |b.movements| && b.movements[j].reverses.Some? ==>
                  b.movements[j].reverses.value < j && b.movements[b.movements[j].reverses.value].reverses.None?)
  {
    NewFirmInv(today);
    RunKeeps(NewFirm(today), calls);
    var b := Run(NewFirm(today), calls);
    forall p: nat, s: Side | p < |b.papers| && b.papers[p].cancelled
      ensures Net(b.movements, PaperRef(p), s) == 0
    {
      assert Net(b.movements, PaperRef(p), s) == StandingEffect(b.papers[p], s);
    }
    forall i: nat, s: Side | i < |b.invoices| && b.invoices[i].status == Cancelled
      ensures Net(b.movements, InvoiceRef(i), s) == 0
    {
      assert Net(b.movements, InvoiceRef(i), s) == InvoiceEffect(b.accounts, b.invoices[i], s);
    }
  }

  /** In every run a side has one live opening at most, and nothing standing is dated before it. */
  lemma RunOpenings(today: Day, calls: seq<Call>)
    ensures Openings.OpeningInv(Run(NewFirm(today), calls))
  {
    NewFirmInv(today);
    RunKeeps(NewFirm(today), calls);
  }

  // Cancelling undoes ------------------------------------------------------------------

  /** Standing papers weigh something, so a standing paper can always be reversed on an open day. */
  lemma StandingCanBeCancelled(b: Books, p: Id)
    requires LedgerInv(b) && p < |b.papers| && !b.papers[p].cancelled
    ensures StampCancelled(b, p).Ok? <==> Posting.CheckDate(b, b.today).None?
  {
    var r := PaperRef(p);
    var s := match b.papers[p].kind
             case Collection(a, _) => AccountSide(a)
             case PaymentOut(a, _) => AccountSide(a)
             case ManualEntry(a, _) => AccountSide(a)
             case AccountTransfer(x, _) => AccountSide(x)
             case TillTransfer(x, _) => TillSide(x)
             case AccountOpening(a, _) => AccountSide(a)
             case TillOpening(t, _) => TillSide(t);
    assert CallShapes.PaperSound(b.papers[p]);
    assert Net(b.movements, r, s) == StandingEffect(b.papers[p], s) != 0;
    Reversal.NetIsStanding(b.movements, r, s);
    if !Posting.AnyStanding(b.movements, r) {
      SumZero(|b.movements|, Reversal.StandingOf(b.movements, r, s));
    }
  }

  /** Books that differ by a cancelled paper alone have the same balances. */
  lemma CancelledPaperWeighsNothing(b: Books, c: Books, p: Paper, s: Side)
    requires MovesInv(b) && MovesInv(c)
    requires c.papers == b.papers + [p] && p.cancelled
    requires c.invoices == b.invoices && c.accounts == b.accounts
    ensures Balance(c.movements, s) == Balance(b.movements, s)
  {
    BalanceIsDocuments(b, s);
    BalanceIsDocuments(c, s);
    SumCongruent(|b.papers|, EffectOfPapers(b, s), EffectOfPapers(c, s));
    SumCongruent(|b.invoices|, EffectOfInvoices(b, s), EffectOfInvoices(c, s));
  }

  /** Recording a paper and then cancelling it puts every balance back. */
  lemma CancelUndoes(b: Books, p: Paper, recorded: Books, cancelled: Books, s: Side)
    requires MovesInv(b) && !p.cancelled
    requires Record(b, p) == Ok(recorded) && |b.papers| < |recorded.papers|
    requires StampCancelled(recorded, |b.papers|) == Ok(cancelled)
    ensures Balance(cancelled.movements, s) == Balance(b.movements, s)
  {
    PaperPosted(b, p);
    assert recorded == b.(papers := b.papers + [p], movements := recorded.movements);
    PaperCancelled(recorded, |b.papers|);
    assert cancelled.papers == b.papers + [p.(cancelled := true)];
    CancelledPaperWeighsNothing(b, cancelled, p.(cancelled := true), s);
  }
}
