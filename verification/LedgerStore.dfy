/**
 * The ledger as the program runs it: rows that methods create, stamp and update in
 * place, inside transactions that put everything back when a rule refuses. Each call
 * is held to its step in Services and keeps the ledger's invariant, refused or not;
 * only the helpers, inside a transaction still open, may leave it for a while.
 */
module LedgerStore {
  import opened Results
  import opened Sums
  import opened Books
  import opened Posting
  import opened Services
  import opened Allocation
  import opened LedgerRuns
  import Reconciliation

  class Store {
    var today: Day
    var closedThrough: Option<Day>
    var accounts: seq<Account>
    var tills: seq<TillAccount>
    var movements: seq<Movement>
    var papers: seq<Paper>
    var applications: seq<Application>
    var invoices: seq<Invoice>
    var lastCollection: nat
    var lastPayment: nat

    constructor (day: Day)
      ensures Snapshot() == NewFirm(day) && Valid()
    {
      today, closedThrough := day, None;
      accounts, tills, movements, papers := [], [TillAccount(TRY, true)], [], [];
      applications, invoices := [], [];
      lastCollection, lastPayment := 0, 0;
      NewFirmInv(day);
    }

    /** The rows reconcile, and every status, allocation, reversal and opening is as it should be. */
    ghost predicate Valid()
      reads this
    {
      LedgerInv(Snapshot())
    }

    function Snapshot(): Books
      reads this
    {
      Books(today, closedThrough, accounts, tills, movements, papers, applications, invoices,
            lastCollection, lastPayment)
    }

    /** The store is where the step leads, or back where it was with the step's refusal. */
    ghost predicate Follows(before: Books, step: Outcome, error: Option<Error>)
      reads this
    {
      match step
      case Ok(after) => error.None? && Snapshot() == after
      case Refused(e) => error == Some(e) && Snapshot() == before
    }

    /** A call is served: the store follows the call's step. */
    ghost predicate Serves(before: Books, call: Call, error: Option<Error>)
      reads this
    {
      Follows(before, Perform(before, call), error)
    }

    /** Served, the store is where a run goes after this call, and valid again. */
    lemma ServedIsValid(before: Books, call: Call, error: Option<Error>)
      requires LedgerInv(before) && Serves(before, call, error)
      ensures Snapshot() == After(before, call) && Valid()
    {
      CallKeeps(before, call);
    }

    /** What leaving a transaction with an exception does. */
    method RollBack(saved: Books)
      modifies this
      ensures Snapshot() == saved
    {
      today, closedThrough := saved.today, saved.closedThrough;
      accounts, tills, movements, papers := saved.accounts, saved.tills, saved.movements, saved.papers;
      applications, invoices := saved.applications, saved.invoices;
      lastCollection, lastPayment := saved.lastCollection, saved.lastPayment;
    }

    // Posting ------------------------------------------------------------------------

    method Write(m: Movement) returns (error: Option<Error>)
      requires m.reverses.None?
      modifies this`movements
      ensures Follows(old(Snapshot()), Post(old(Snapshot()), m), error)
    {
      var b := Snapshot();
      if m.source == ReversalSource { return Some(InvalidSource); }
      if m.party.NoParty? && m.cash.NoCash? { return Some(NoSide); }
      if !SidesKnown(b, m) { return Some(UnknownRecord); }
      if m.amount <= 0 { return Some(BadAmount); }
      if !SameCurrency(b, m) { return Some(CurrencyMismatch); }
      var date := CheckDate(b, m.date);
      if date.Some? { return date; }
      if m.source != OpeningSource && BeforeAnOpening(papers, m) { return Some(BeforeOpening); }
      if KeyTaken(movements, m.source, m.document) { return Some(PostedTwice); }
      movements := movements + [m];
      error := None;
    }

    /** Post the mirror of each standing movement of the document, one by one. */
    method Reverse(r: DocumentRef, date: Day, source: Source) returns (error: Option<Error>)
      modifies this`movements
      ensures Follows(old(Snapshot()), ReverseDocument(old(Snapshot()), r, date, source), error)
    {
      if source != ReversalSource && source != InvoiceCancelSource { return Some(InvalidSource); }
      if !AnyStanding(movements, r) { return Some(AlreadyReversed); }
      var refusal := CheckDate(Snapshot(), date);
      if refusal.Some? { return refusal; }
      if MirrorsClash(movements, r, source) { return Some(AlreadyReversed); }
      var originals := movements;
      for k := 0 to |originals|
        invariant movements == originals + Mirrors(originals, r, k, date, source)
      {
        if Standing(originals, r, k) {
          movements := movements + [Mirror(originals[k], k, date, source)];
        }
      }
      error := None;
    }

    // Invoices a collection pays -----------------------------------------------------------

    /** Read one invoice's status again from what its collections say. */
    method Sync(i: Id)
      requires i < |invoices|
      modifies this`invoices
      ensures invoices == old(invoices)[i := Synced(papers, applications, old(invoices)[i], i)]
    {
      var inv := invoices[i];
      if !Payable(inv.status) {
        assert invoices[i := inv] == invoices;
        return;
      }
      var status, paidOn := Issued, None;
      if inv.total == 0 {
        status, paidOn := Paid, inv.date;
      } else if inv.total - Collected(papers, applications, i) <= 0 {
        var latest := LatestPayment(papers, applications, i);
        status, paidOn := Paid, if latest.Some? then latest else inv.date;
      }
      if inv.status != status || inv.paidOn != paidOn {
        invoices := invoices[i := inv.(status := status, paidOn := paidOn)];
      } else {
        assert invoices[i := inv] == invoices;
      }
    }

    /** Read the status of each of these invoices again, in order. */
    method SyncEach(which: set<Id>)
      modifies this`invoices
      ensures Snapshot() == SyncIn(old(Snapshot()), which)
    {
      ghost var before := invoices;
      for i := 0 to |invoices|
        invariant |invoices| == |before|
        invariant forall j :: 0 <= j < i ==>
                    invoices[j] == if j in which then Synced(papers, applications, before[j], j) else before[j]
        invariant forall j :: i <= j < |invoices| ==> invoices[j] == before[j]
      {
        if i in which {
          Sync(i);
        }
      }
      assert invoices == SyncIn(old(Snapshot()), which).invoices;
    }

    /** Add up what is asked for each invoice, then pay them in order, each under its checks. */
    method Allocate(c: Id, account: Account, applies: seq<Applied>, limit: int) returns (error: Option<Error>)
      requires Counts(papers, Application(c, 0, 0))
      modifies this`applications
      ensures match Apply(old(Snapshot()), c, account, applies, limit)
              case Ok(after) => error.None? && Snapshot() == after
              case Refused(e) => error == Some(e)
    {
      hide FirstObstacle, NewApplications, Obstacle;
      var perInvoice: map<Id, int> := map[];
      var total := 0;
      for k := 0 to |applies|
        invariant forall j :: 0 <= j < k ==> IsMoney(applies[j].amount)
        invariant perInvoice.Keys == Named(applies[..k])
        invariant forall i :: i in perInvoice ==> perInvoice[i] == PerInvoice(applies[..k], i)
        invariant total == TotalApplied(applies[..k])
        invariant applications == old(applications)
      {
        if !IsMoney(applies[k].amount) { return Some(BadAmount); }
        var i, amount := applies[k].invoice, Cents(applies[k].amount);
        OneMoreApplied(applies, k);
        if i !in perInvoice {
          UnnamedIsZero(applies[..k], i);
        }
        perInvoice := perInvoice[i := (if i in perInvoice then perInvoice[i] else 0) + amount];
        total := total + amount;
      }
      assert applies[..|applies|] == applies;
      if total > limit { return Some(OverApplied); }
      error := PayEach(c, account, applies, perInvoice);
      if error.None? && exists k :: 0 <= k < |applies| && applies[k].invoice >= |invoices| {
        return Some(UnknownRecord);
      }
    }

    lemma OneMoreApplied(applies: seq<Applied>, k: nat)
      requires k < |applies| && IsMoney(applies[k].amount)
      ensures Named(applies[..k + 1]) == Named(applies[..k]) + {applies[k].invoice}
      ensures forall i: Id :: PerInvoice(applies[..k + 1], i) ==
                PerInvoice(applies[..k], i) + (if i == applies[k].invoice then Cents(applies[k].amount) else 0)
      ensures TotalApplied(applies[..k + 1]) == TotalApplied(applies[..k]) + Cents(applies[k].amount)
    {
      var before, after := applies[..k], applies[..k + 1];
      forall i: Id
        ensures PerInvoice(after, i) == PerInvoice(before,
            i) + (if i == applies[k].invoice then Cents(applies[k].amount) else 0)
      {
        SumCongruent(k, AmountFor(before, i), AmountFor(after, i));
      }
      SumCongruent(k, AnyAmount(before), AnyAmount(after));
      assert after[k] == applies[k];
      assert forall j :: 0 <= j < k ==> after[j] == before[j];
    }

    method PayEach(c: Id, account: Account, ghost applies: seq<Applied>, perInvoice: map<Id, int>)
      returns (error: Option<Error>)
      requires Counts(papers, Application(c, 0, 0))
      requires perInvoice.Keys == Named(applies)
      requires forall i :: i in perInvoice ==> perInvoice[i] == PerInvoice(applies, i)
      modifies this`applications
      ensures error == FirstObstacle(old(Snapshot()), c, account, applies, |invoices|)
      ensures error.None? ==>
                applications == old(applications) + NewApplications(c, applies, |invoices|)
    {
      ghost var before := Snapshot();
      var i := 0;
      while i < |invoices|
        invariant 0 <= i <= |invoices|
        invariant applications == old(applications) + NewApplications(c, applies, i)
        invariant FirstObstacle(before, c, account, applies, i).None?
        decreases |invoices| - i
      {
        if i in perInvoice {
          EarlierPaymentsDoNotMatter(before, Snapshot(), c, account, applies, i);
          var obstacle := Obstacle(Snapshot(), c, account, i, perInvoice[i]);
          if obstacle.Some? {
            ObstacleStays(before, c, account, applies, i + 1, |invoices|);
            return obstacle;
          }
          applications := applications + [Application(c, i, perInvoice[i])];
        }
        i := i + 1;
      }
      error := None;
    }

    lemma {:induction false} ObstacleStays(b: Books, c: Id, account: Account, applies: seq<Applied>, n: nat, m: nat)
      requires n <= m <= |b.invoices|
      requires FirstObstacle(b, c, account, applies, n).Some?
      ensures FirstObstacle(b, c, account, applies, m) == FirstObstacle(b, c, account, applies, n)
    {
      if n < m {
        ObstacleStays(b, c, account, applies, n, m - 1);
      }
    }

    /** Paying the invoices before it changes nothing an invoice is checked against. */
    lemma EarlierPaymentsDoNotMatter(b: Books, now: Books, c: Id, account: Account, applies: seq<Applied>, i: nat)
      requires i < |b.invoices| && Counts(b.papers, Application(c, 0, 0))
      requires now == b.(applications := b.applications + NewApplications(c, applies, i))
      ensures Obstacle(now, c, account, i, PerInvoice(applies, i)) == Obstacle(b, c, account, i, PerInvoice(applies, i))
    {
      var made := NewApplications(c, applies, i);
      NewlyCollected(b.papers, b.applications, c, applies, i, i);
      NewApplicationsShape(c, applies, i);
      assert Pays(now.applications, c, i) == Pays(b.applications, c, i) by {
        if Pays(b.applications, c, i) {
          var k :| 0 <= k < |b.applications| && b.applications[k].collection == c && b.applications[k].invoice == i;
          assert now.applications[k] == b.applications[k];
        }
        forall k | |b.applications| <= k < |now.applications|
          ensures now.applications[k].invoice < i
        {
          assert AsksOf(c, applies, i, made[k - |b.applications|]);
        }
      }
    }

    // Documents ----------------------------------------------------------------------

    /** Post each leg of a paper in turn. */
    method WriteLegs(p: Paper, r: DocumentRef) returns (error: Option<Error>)
      modifies this`movements
      ensures match PostLegs(old(Snapshot()), p, r, Legs(p.kind))
              case Ok(after) => error.None? && Snapshot() == after
              case Refused(e) => error == Some(e)
    {
      var legs := Legs(p.kind);
      ghost var start := Snapshot();
      var k := 0;
      while k < |legs|
        invariant 0 <= k <= |legs|
        invariant Snapshot() == start.(movements := movements)
        invariant PostLegs(start, p, r, legs) == PostLegs(Snapshot(), p, r, legs[k..])
        decreases |legs| - k
      {
        error := Write(LegMovement(p, r, legs[k]));
        if error.Some? { return; }
        assert legs[k..][1..] == legs[k + 1..];
        k := k + 1;
      }
      error := None;
    }

    /** Create a paper and post it, or leave no trace of it. */
    method Create(p: Paper, saved: Books) returns (error: Option<Error>)
      modifies this
      ensures match Record(old(Snapshot()), p)
              case Ok(after) => error.None? && Snapshot() == after
              case Refused(e) => error == Some(e) && Snapshot() == saved
    {
      papers := papers + [p];
      error := WriteLegs(p, PaperRef(|papers| - 1));
      if error.Some? {
        RollBack(saved);
      }
    }

    method Collect(account: Id, till: Id, amount: Decimal, date: Day, applies: seq<Applied>)
      returns (error: Option<Error>)
      requires Valid()
      modifies this
      ensures Valid() && Serves(old(Snapshot()), CallRecordCollection(account, till, amount, date, applies), error)
    {
      hide LedgerInv, Post, FirstObstacle, NewApplications, Issue, MarkPaid, CancelInvoice, RecordTransfer,
           RecordOpening, ApplyCollection, CancelCollection, RecordPaymentOut, RecordManualEntry, CancelPaper;
      if account >= |accounts| || till >= |tills| { return Some(UnknownRecord); }
      if !IsMoney(amount) { return Some(BadAmount); }
      var saved := Snapshot();
      var c := |papers|;
      lastCollection := lastCollection + 1;
      var p := Paper(Collection(account, till), Cents(amount), accounts[account].currency, date, lastCollection, false);
      papers := papers + [p];
      error := Allocate(c, accounts[account], applies, Cents(amount));
      if error.Some? {
        RollBack(saved);
        return;
      }
      error := WriteLegs(p, PaperRef(c));
      if error.Some? {
        RollBack(saved);
        return;
      }
      SyncEach(Named(applies));
      ServedIsValid(old(Snapshot()), CallRecordCollection(account, till, amount, date, applies), error);
    }

    method Stamp(p: Id) returns (error: Option<Error>)
      requires p < |papers|
      modifies this
      ensures Follows(old(Snapshot()), StampCancelled(old(Snapshot()), p), error)
    {
      error := Reverse(PaperRef(p), today, ReversalSource);
      if error.None? {
        papers := papers[p := papers[p].(cancelled := true)];
      }
    }

    method CancelCollectionPaper(c: Id) returns (error: Option<Error>)
      requires Valid()
      modifies this
      ensures Valid() && Serves(old(Snapshot()), CallCancelCollection(c), error)
    {
      hide LedgerInv;
      var locked := LockPaper(Snapshot(), c);
      if locked.Some? { return locked; }
      if !papers[c].kind.Collection? { return Some(UnknownRecord); }
      var applied := AppliedInvoices(applications, c);
      error := Stamp(c);
      if error.None? {
        SyncEach(applied);
      }
      ServedIsValid(old(Snapshot()), CallCancelCollection(c), error);
    }

    method CancelOtherPaper(p: Id) returns (error: Option<Error>)
      requires Valid()
      modifies this
      ensures Valid() && Serves(old(Snapshot()), CallCancelPaper(p), error)
    {
      hide LedgerInv;
      var locked := LockPaper(Snapshot(), p);
      if locked.Some? { return locked; }
      if papers[p].kind.Collection? { return Some(UnknownRecord); }
      error := Stamp(p);
      ServedIsValid(old(Snapshot()), CallCancelPaper(p), error);
    }

    method ApplyAdvance(c: Id, applies: seq<Applied>) returns (error: Option<Error>)
      requires Valid()
      modifies this
      ensures Valid() && Serves(old(Snapshot()), CallApplyCollection(c, applies), error)
    {
      hide LedgerInv;
      if applies == [] { return Some(NothingApplied); }
      var locked := LockPaper(Snapshot(), c);
      if locked.Some? { return locked; }
      if !papers[c].kind.Collection? || papers[c].kind.account >= |accounts| { return Some(UnknownRecord); }
      var saved := Snapshot();
      var limit := papers[c].amount - Allocated(applications, c);
      error := Allocate(c, accounts[papers[c].kind.account], applies, limit);
      if error.Some? {
        RollBack(saved);
        return;
      }
      SyncEach(Named(applies));
      ServedIsValid(old(Snapshot()), CallApplyCollection(c, applies), error);
    }

    method PayOut(account: Id, till: Id, amount: Decimal, date: Day) returns (error: Option<Error>)
      requires Valid()
      modifies this
      ensures Valid() && Serves(old(Snapshot()), CallRecordPaymentOut(account, till, amount, date), error)
    {
      hide LedgerInv;
      if account >= |accounts| || till >= |tills| { return Some(UnknownRecord); }
      if !IsMoney(amount) { return Some(BadAmount); }
      var saved := Snapshot();
      lastPayment := lastPayment + 1;
      error := Create(Paper(PaymentOut(account, till), Cents(amount), accounts[account].currency, date, lastPayment,
          false), saved);
      ServedIsValid(old(Snapshot()), CallRecordPaymentOut(account, till, amount, date), error);
    }

    method EnterManually(account: Id, direction: Direction, amount: Decimal, date: Day, reasonGiven: bool)
      returns (error: Option<Error>)
      requires Valid()
      modifies this
      ensures Valid() && Serves(old(Snapshot()), CallRecordManualEntry(account, direction, amount, date, reasonGiven), error)
    {
      hide LedgerInv;
      if account >= |accounts| { return Some(UnknownRecord); }
      if !reasonGiven { return Some(ReasonRequired); }
      if !IsMoney(amount) { return Some(BadAmount); }
      var saved := Snapshot();
      error := Create(Paper(ManualEntry(account, direction), Cents(amount), accounts[account].currency, date, 0,
          false), saved);
      ServedIsValid(old(Snapshot()), CallRecordManualEntry(account, direction, amount, date, reasonGiven), error);
    }

    method Move(
      kind: TransferKind, amount: Decimal, date: Day,
      fromAccount: Option<Id>, toAccount: Option<Id>, fromTill: Option<Id>, toTill: Option<Id>)
      returns (error: Option<Error>)
      requires Valid()
      modifies this
      ensures Valid()
      ensures Serves(old(Snapshot()),
                CallRecordTransfer(kind, amount, date, fromAccount, toAccount, fromTill, toTill), error)
    {
      hide LedgerInv;
      var p: Paper;
      if kind == BetweenAccounts {
        if fromTill.Some? || toTill.Some? { return Some(TransferKindMismatch); }
        if fromAccount.None? || toAccount.None? { return Some(NoSide); }
        if fromAccount.value >= |accounts| || toAccount.value >= |accounts| { return Some(UnknownRecord); }
        if fromAccount == toAccount { return Some(SameSide); }
        if accounts[fromAccount.value].currency != accounts[toAccount.value].currency { return Some(CurrencyMismatch); }
        if !IsMoney(amount) { return Some(BadAmount); }
        p := Paper(AccountTransfer(fromAccount.value, toAccount.value), Cents(amount),
                   accounts[fromAccount.value].currency, date, 0, false);
      } else {
        if fromAccount.Some? || toAccount.Some? { return Some(TransferKindMismatch); }
        if fromTill.None? || toTill.None? { return Some(NoSide); }
        if fromTill.value >= |tills| || toTill.value >= |tills| { return Some(UnknownRecord); }
        if fromTill == toTill { return Some(SameSide); }
        if tills[fromTill.value].currency != tills[toTill.value].currency { return Some(CurrencyMismatch); }
        if !IsMoney(amount) { return Some(BadAmount); }
        p := Paper(TillTransfer(fromTill.value, toTill.value), Cents(amount),
                   tills[fromTill.value].currency, date, 0, false);
      }
      var saved := Snapshot();
      error := Create(p, saved);
      ServedIsValid(old(Snapshot()),
                    CallRecordTransfer(kind, amount, date, fromAccount, toAccount, fromTill, toTill), error);
    }

    method Open(direction: Direction, amount: Decimal, date: Day, account: Option<Id>, till: Option<Id>)
      returns (error: Option<Error>)
      requires Valid()
      modifies this
      ensures Valid() && Serves(old(Snapshot()), CallRecordOpening(direction, amount, date, account, till), error)
    {
      hide LedgerInv;
      if account.Some? == till.Some? { return Some(OneSideOnly); }
      if account.Some? && account.value >= |accounts| { return Some(UnknownRecord); }
      if till.Some? && till.value >= |tills| { return Some(UnknownRecord); }
      if !IsMoney(amount) { return Some(BadAmount); }
      var s := if account.Some? then AccountSide(account.value) else TillSide(till.value);
      if AnyLiveOpening(papers, s) { return Some(SecondOpening); }
      if AnythingBefore(movements, s, date) { return Some(OpeningNotFirst); }
      var kind := if account.Some? then AccountOpening(account.value, direction) else TillOpening(till.value, direction);
      var currency := if account.Some? then accounts[account.value].currency else tills[till.value].currency;
      var saved := Snapshot();
      error := Create(Paper(kind, Cents(amount), currency, date, 0, false), saved);
      ServedIsValid(old(Snapshot()), CallRecordOpening(direction, amount, date, account, till), error);
    }

    // Invoices -----------------------------------------------------------------------

    method FindOrOpenAccount(customer: Id, currency: Currency) returns (a: Id)
      modifies this`accounts
      ensures a == FindAccount(old(accounts), Customer, customer, currency)
      ensures Snapshot() == AccountForCustomer(old(Snapshot()), customer, currency)
    {
      a := FindAccount(accounts, Customer, customer, currency);
      if a == |accounts| {
        accounts := accounts + [Account(Customer, customer, currency)];
      }
    }

    method WriteInvoice(i: Id) returns (error: Option<Error>)
      modifies this
      ensures match PostInvoice(old(Snapshot()), i, None)
              case Ok(after) => error.None? && Snapshot() == after
              case Refused(e) => error == Some(e)
    {
      if i >= |invoices| { return Some(UnknownRecord); }
      var inv := invoices[i];
      if !Payable(inv.status) { return Some(NotPayable); }
      if inv.date.None? { return Some(DateRequired); }
      if KeyTaken(movements, InvoiceSource, InvoiceRef(i)) || inv.total == 0 { return None; }
      var a := FindOrOpenAccount(inv.customer, inv.currency);
      error := Write(Movement(OnAccount(a, Debit), NoCash, inv.date.value, inv.total, inv.currency,
                              InvoiceSource, InvoiceRef(i), None));
    }

    method IssueDraft(i: Id, number: nat, date: Day, linesNeedPrice: bool) returns (error: Option<Error>)
      requires Valid()
      modifies this
      ensures Valid() && Serves(old(Snapshot()), CallIssue(i, number, date, linesNeedPrice), error)
    {
      hide LedgerInv;
      if i >= |invoices| { return Some(UnknownRecord); }
      if invoices[i].status != Draft { return Some(TransitionNotAllowed); }
      if linesNeedPrice { return Some(LinesNeedPrice); }
      if NumberTaken(invoices, i, number) { return Some(DuplicateInvoiceNumber); }
      var saved := Snapshot();
      invoices := invoices[i := invoices[i].(status := Issued, number := Some(number), date := Some(date))];
      error := WriteInvoice(i);
      if error.Some? {
        RollBack(saved);
        return;
      }
      SyncEach({i});
      ServedIsValid(old(Snapshot()), CallIssue(i, number, date, linesNeedPrice), error);
    }

    method MarkInvoicePaid(i: Id, paidOn: Day, till: Option<Id>) returns (error: Option<Error>)
      requires Valid()
      modifies this
      ensures Valid() && Serves(old(Snapshot()), CallMarkPaid(i, paidOn, till), error)
    {
      hide LedgerInv, RecordCollection, Issue, CancelInvoice, RecordTransfer, RecordOpening, ApplyCollection,
           CancelCollection, RecordPaymentOut, RecordManualEntry, CancelPaper, Collected;
      if i >= |invoices| { return Some(UnknownRecord); }
      var inv := invoices[i];
      if inv.status != Issued || Remaining(Snapshot(), i) <= 0 { return Some(TransitionNotAllowed); }
      if till.None? && (|tills| == 0 || !tills[DEFAULT_TILL].active) { return Some(TillInactive); }
      if till.None? && tills[DEFAULT_TILL].currency != inv.currency { return Some(CurrencyMismatch); }
      var saved := Snapshot();
      var owed := OfCents(Remaining(Snapshot(), i));
      var a := FindOrOpenAccount(inv.customer, inv.currency);
      AccountOnAskKeeps(saved, inv.customer, inv.currency);
      error := Collect(a, if till.Some? then till.value else DEFAULT_TILL, owed, paidOn, [Applied(i, owed)]);
      if error.Some? {
        RollBack(saved);
      }
      ServedIsValid(old(Snapshot()), CallMarkPaid(i, paidOn, till), error);
    }

    method CancelDraftOrInvoice(i: Id) returns (error: Option<Error>)
      requires Valid()
      modifies this
      ensures Valid() && Serves(old(Snapshot()), CallCancelInvoice(i), error)
    {
      hide LedgerInv;
      if i >= |invoices| { return Some(UnknownRecord); }
      if invoices[i].status == Cancelled { return Some(TransitionNotAllowed); }
      if invoices[i].status != Draft {
        if Collected(papers, applications, i) > 0 { return Some(InvoiceHasCollections); }
        if KeyTaken(movements, InvoiceSource, InvoiceRef(i)) {
          error := Reverse(InvoiceRef(i), today, InvoiceCancelSource);
          if error.Some? { return; }
        }
      }
      invoices := invoices[i := invoices[i].(status := Cancelled)];
      error := None;
      ServedIsValid(old(Snapshot()), CallCancelInvoice(i), error);
    }

    method CloseThrough(day: Option<Day>) returns (error: Option<Error>)
      requires Valid()
      modifies this`closedThrough
      ensures Valid() && Serves(old(Snapshot()), CallSetClosedThrough(day), error)
    {
      hide LedgerInv;
      if day.Some? && day.value > today { return Some(ClosedAfterToday); }
      closedThrough := day;
      error := None;
      ServedIsValid(old(Snapshot()), CallSetClosedThrough(day), error);
    }

    // Accounts, tills and drafts -------------------------------------------------------

    method OpenPartyAccount(kind: AccountKind, party: Id, currency: Currency) returns (error: Option<Error>)
      requires Valid()
      modifies this`accounts
      ensures Valid() && Serves(old(Snapshot()), CallOpenAccount(kind, party, currency), error)
    {
      hide LedgerInv;
      if FindAccount(accounts, kind, party, currency) < |accounts| { return Some(DuplicateAccount); }
      accounts := accounts + [Account(kind, party, currency)];
      error := None;
      ServedIsValid(old(Snapshot()), CallOpenAccount(kind, party, currency), error);
    }

    method SetTill(till: Id, active: bool) returns (error: Option<Error>)
      requires Valid()
      modifies this`tills
      ensures Valid() && Serves(old(Snapshot()), CallSetTillActive(till, active), error)
    {
      hide LedgerInv;
      if till >= |tills| { return Some(UnknownRecord); }
      tills := tills[till := tills[till].(active := active)];
      error := None;
      ServedIsValid(old(Snapshot()), CallSetTillActive(till, active), error);
    }

    method SetDraftTotal(i: Id, total: int) returns (error: Option<Error>)
      requires Valid()
      modifies this`invoices
      ensures Valid() && Serves(old(Snapshot()), CallRetotal(i, total), error)
    {
      hide LedgerInv;
      if i >= |invoices| { return Some(UnknownRecord); }
      if invoices[i].status != Draft { return Some(TransitionNotAllowed); }
      invoices := invoices[i := invoices[i].(total := total)];
      error := None;
      ServedIsValid(old(Snapshot()), CallRetotal(i, total), error);
    }

    /** The calls nothing refuses. */
    method Unrefused(call: Call)
      requires Valid() && (call.NextDay? || call.CallOpenTill? || call.CallDraftInvoice?)
      modifies this
      ensures Valid() && Serves(old(Snapshot()), call, None)
    {
      hide LedgerInv;
      match call {
        case NextDay => today := today + 1;
        case CallOpenTill(currency) => tills := tills + [TillAccount(currency, true)];
        case CallDraftInvoice(customer, currency, total) =>
          invoices := invoices + [Invoice(customer, currency, Draft, total, None, None, None)];
      }
      ServedIsValid(old(Snapshot()), call, None);
    }

    // Every call, every run --------------------------------------------------------------

    method Serve(call: Call) returns (error: Option<Error>)
      requires Valid()
      modifies this
      ensures Valid() && Serves(old(Snapshot()), call, error)
    {
      hide Valid, Serves;
      match call
      case NextDay => Unrefused(call); error := None;
      case CallOpenAccount(kind, party, currency) => error := OpenPartyAccount(kind, party, currency);
      case CallOpenTill(_) => Unrefused(call); error := None;
      case CallSetTillActive(till, active) => error := SetTill(till, active);
      case CallSetClosedThrough(day) => error := CloseThrough(day);
      case CallDraftInvoice(_, _, _) => Unrefused(call); error := None;
      case CallRetotal(i, total) => error := SetDraftTotal(i, total);
      case CallIssue(i, number, date, unpriced) => error := IssueDraft(i, number, date, unpriced);
      case CallMarkPaid(i, paidOn, till) => error := MarkInvoicePaid(i, paidOn, till);
      case CallCancelInvoice(i) => error := CancelDraftOrInvoice(i);
      case CallRecordCollection(a, t, amount, date, applies) => error := Collect(a, t, amount, date, applies);
      case CallApplyCollection(c, applies) => error := ApplyAdvance(c, applies);
      case CallCancelCollection(c) => error := CancelCollectionPaper(c);
      case CallRecordPaymentOut(a, t, amount, date) => error := PayOut(a, t, amount, date);
      case CallRecordManualEntry(a, d, amount, date, reason) => error := EnterManually(a, d, amount, date, reason);
      case CallRecordTransfer(kind, amount, date, fa, ta, ft, tt) => error := Move(kind, amount, date, fa, ta, ft, tt);
      case CallRecordOpening(d, amount, date, a, t) => error := Open(d, amount, date, a, t);
      case CallCancelPaper(p) => error := CancelOtherPaper(p);
    }

    /** Served one after another, any calls leave the rows where the run of their steps ends. */
    method ServeAll(calls: seq<Call>)
      requires Valid()
      modifies this
      ensures Valid() && Snapshot() == Run(old(Snapshot()), calls)
    {
      hide Valid, Perform;
      ghost var start := Snapshot();
      for k := 0 to |calls|
        invariant Valid() && Run(start, calls) == Run(Snapshot(), calls[k..])
      {
        ghost var before := Snapshot();
        var error := Serve(calls[k]);
        assert calls[k..][0] == calls[k] && calls[k..][1..] == calls[k + 1..];
        assert Snapshot() == After(before, calls[k]);
      }
      assert calls[|calls|..] == [];
    }
  }

  /** The rows of a firm that starts empty, after any calls: they are those of the run, and every account reconciles. */
  method RunFirm(today: Day, calls: seq<Call>) returns (store: Store)
    ensures store.Valid() && store.Snapshot() == Run(NewFirm(today), calls)
    ensures forall a: Id ::
              Balance(store.movements, AccountSide(a)) ==
                SumTo(|store.invoices|, Reconciliation.OwedOn(store.Snapshot(), a))
                - SumTo(|store.papers|, Reconciliation.UnallocatedOn(store.Snapshot(), a))
                + SumTo(|store.papers|, Reconciliation.OtherwiseOn(store.Snapshot(), a))
  {
    hide LedgerInv, Run;
    store := new Store(today);
    store.ServeAll(calls);
    forall a: Id {
      Reconciliation.Reconciles(store.Snapshot(), a);
    }
  }
}
