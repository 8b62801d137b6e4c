/** When each call of the ledger is accepted, by the rows it finds, and never else (apps/ledger/services.py). */
module Acceptance {
  import opened Allocation
  import opened Books
  import opened Collecting
  import opened Posting
  import opened Results
  import opened Services
  import Sums

  // Posting a document --------------------------------------------------------------------

  /** An opening balance of this side. */
  predicate IsOpeningOf(kind: PaperKind, s: Side) {
    match s
    case AccountSide(a) => kind.AccountOpening? && kind.account == a
    case TillSide(t) => kind.TillOpening? && kind.till == t
    case Pool(_) => false
  }

  /** No opening balance of the side, but a cancelled one, is dated after this day. */
  predicate NotBeforeOpening(b: Books, s: Side, day: Day) {
    forall p :: 0 <= p < |b.papers| && !b.papers[p].cancelled && IsOpeningOf(b.papers[p].kind, s) ==>
      b.papers[p].date <= day
  }

  /** Not a day to come, and not in the closed period. */
  predicate DayOpen(b: Books, day: Day) {
    day <= b.today && (b.closedThrough.Some? ==> b.closedThrough.value < day)
  }

  predicate AccountIn(b: Books, a: Id, currency: Currency) {
    a < |b.accounts| && b.accounts[a].currency == currency
  }

  predicate TillOf(b: Books, t: Id, currency: Currency) {
    t < |b.tills| && b.tills[t].currency == currency
  }

  /** A leg of a document can be posted: on an account and a till of its currency, not before their openings. */
  predicate LegFits(b: Books, p: Paper, leg: (PartyLeg, CashLeg)) {
    && (leg.0.OnAccount? || leg.1.OnTill?)
    && (leg.0.OnAccount? ==> AccountIn(b, leg.0.account, p.currency))
    && (leg.1.OnTill? ==> TillOf(b, leg.1.till, p.currency))
    && (!p.kind.AccountOpening? && !p.kind.TillOpening? ==>
          && (leg.0.OnAccount? ==> NotBeforeOpening(b, AccountSide(leg.0.account), p.date))
          && (leg.1.OnTill? ==> NotBeforeOpening(b, TillSide(leg.1.till), p.date)))
  }

  lemma BeforeOpeningMeans(b: Books, m: Movement)
    ensures BeforeAnOpening(b.papers, m) <==>
              || (m.party.OnAccount? && !NotBeforeOpening(b, AccountSide(m.party.account), m.date))
              || (m.cash.OnTill? && !NotBeforeOpening(b, TillSide(m.cash.till), m.date))
  {
    forall p, s: Side | 0 <= p < |b.papers|
      ensures LiveOpening(b.papers[p], s) <==> !b.papers[p].cancelled && IsOpeningOf(b.papers[p].kind, s)
    {
    }
    hide LiveOpening, IsOpeningOf;
  }

  lemma PostsLeg(b: Books, p: Paper, r: DocumentRef, leg: (PartyLeg, CashLeg))
    requires p.amount > 0
    ensures Post(b, LegMovement(p, r, leg)).Ok? <==> DayOpen(b, p.date) && LegFits(b, p, leg)
    ensures Post(b, LegMovement(p, r, leg)).Ok? ==>
              Post(b, LegMovement(p, r, leg)).value == b.(movements := b.movements + [LegMovement(p, r, leg)])
  {
    hide NotBeforeOpening, BeforeAnOpening, KeyTaken;
    var m := LegMovement(p, r, leg);
    BeforeOpeningMeans(b, m);
    NoKey(b.movements, m);
  }

  lemma NoKey(ms: seq<Movement>, m: Movement)
    requires m.source != InvoiceSource && m.source != InvoiceCancelSource
    ensures !KeyTaken(ms, m.source, m.document)
  {
  }

  lemma LegFitsElsewhere(b: Books, c: Books, p: Paper, leg: (PartyLeg, CashLeg))
    requires c == b.(movements := c.movements, applications := c.applications)
    ensures LegFits(c, p, leg) == LegFits(b, p, leg)
  {
  }

  /** All the legs of a document are posted exactly when each of them can be. */
  lemma {:induction false} PostsLegs(b: Books, p: Paper, r: DocumentRef, legs: seq<(PartyLeg, CashLeg)>)
    requires p.amount > 0
    ensures PostLegs(b, p, r, legs).Ok? <==>
              (legs != [] ==> DayOpen(b, p.date)) && forall k :: 0 <= k < |legs| ==> LegFits(b, p, legs[k])
    decreases |legs|
  {
    hide LegFits, Post;
    if legs != [] {
      PostsLeg(b, p, r, legs[0]);
      if Post(b, LegMovement(p, r, legs[0])).Ok? {
        var next := Post(b, LegMovement(p, r, legs[0])).value;
        PostsLegs(next, p, r, legs[1..]);
        forall k | 0 <= k < |legs|
          ensures LegFits(next, p, legs[k]) == LegFits(b, p, legs[k])
        {
          LegFitsElsewhere(b, next, p, legs[k]);
        }
        assert forall k :: 0 < k < |legs| ==> legs[k] == legs[1..][k - 1];
      }
    }
  }

  /** Openings already there are what they were when a paper that is none is added. */
  lemma PaperIsNoOpening(b: Books, p: Paper, leg: (PartyLeg, CashLeg))
    ensures LegFits(b.(papers := b.papers + [p]), p, leg) == LegFits(b, p, leg)
  {
    var c := b.(papers := b.papers + [p]);
    if !p.kind.AccountOpening? && !p.kind.TillOpening? {
      forall s: Side
        ensures NotBeforeOpening(c, s, p.date) == NotBeforeOpening(b, s, p.date)
      {
        assert forall q :: 0 <= q < |b.papers| ==> c.papers[q] == b.papers[q];
      }
    }
    hide NotBeforeOpening;
  }

  lemma Records(b: Books, p: Paper)
    requires p.amount > 0
    ensures Record(b, p).Ok? <==>
              DayOpen(b, p.date) && forall k :: 0 <= k < |Legs(p.kind)| ==> LegFits(b, p, Legs(p.kind)[k])
  {
    hide LegFits, PostLegs;
    var created := b.(papers := b.papers + [p]);
    PostsLegs(created, p, PaperRef(|b.papers|), Legs(p.kind));
    forall k | 0 <= k < |Legs(p.kind)|
      ensures LegFits(created, p, Legs(p.kind)[k]) == LegFits(b, p, Legs(p.kind)[k])
    {
      PaperIsNoOpening(b, p, Legs(p.kind)[k]);
    }
  }

  // Payments, entries, transfers and openings ------------------------------------------------

  /** A payment out is accepted exactly when account and till hold the same currency, the amount is money, and the day is
      open and not before an opening of either. */
  lemma PaymentOutAccepted(b: Books, account: Id, till: Id, amount: Decimal, date: Day)
    ensures Perform(b, CallRecordPaymentOut(account, till, amount, date)).Ok? <==>
              && account < |b.accounts| && TillOf(b, till, b.accounts[account].currency) && IsMoney(amount)
              && DayOpen(b, date)
              && NotBeforeOpening(b, AccountSide(account), date) && NotBeforeOpening(b, TillSide(till), date)
  {
    hide NotBeforeOpening, IsMoney, Record;
    if account < |b.accounts| && till < |b.tills| && IsMoney(amount) {
      var counted := b.(lastPayment := b.lastPayment + 1);
      var p := Paper(PaymentOut(account, till), Cents(amount), b.accounts[account].currency, date, b.lastPayment + 1, false);
      Records(counted, p);
      assert Legs(p.kind)[0] == (OnAccount(account, Debit), OnTill(till, Out));
      CountersApart(b, counted, p, Legs(p.kind)[0]);
    }
  }

  lemma CountersApart(b: Books, c: Books, p: Paper, leg: (PartyLeg, CashLeg))
    requires c == b.(lastPayment := c.lastPayment, lastCollection := c.lastCollection)
    ensures LegFits(c, p, leg) == LegFits(b, p, leg) && DayOpen(c, p.date) == DayOpen(b, p.date)
  {
  }

  lemma ManualEntryAccepted(b: Books, account: Id, direction: Direction, amount: Decimal, date: Day, reasonGiven: bool)
    ensures Perform(b, CallRecordManualEntry(account, direction, amount, date, reasonGiven)).Ok? <==>
              && account < |b.accounts| && reasonGiven && IsMoney(amount)
              && DayOpen(b, date) && NotBeforeOpening(b, AccountSide(account), date)
  {
    hide NotBeforeOpening, IsMoney, Record;
    if account < |b.accounts| && IsMoney(amount) {
      var p := Paper(ManualEntry(account, direction), Cents(amount), b.accounts[account].currency, date, 0, false);
      Records(b, p);
      assert Legs(p.kind)[0] == (OnAccount(account, direction), NoCash);
    }
  }

  /** A transfer is accepted exactly when it is between two different accounts, or two different tills, of one currency,
      as its kind says and nothing else is named, on a day open and not before an opening of either. */
  lemma TransferAccepted(b: Books, kind: TransferKind, amount: Decimal, date: Day,
      fromAccount: Option<Id>, toAccount: Option<Id>, fromTill: Option<Id>, toTill: Option<Id>)
    ensures Perform(b, CallRecordTransfer(kind, amount, date, fromAccount, toAccount, fromTill, toTill)).Ok? <==>
              && IsMoney(amount) && DayOpen(b, date)
              && if kind == BetweenAccounts then
                   && fromTill.None? && toTill.None? && fromAccount.Some? && toAccount.Some? && fromAccount != toAccount
                   && fromAccount.value < |b.accounts|
                   && AccountIn(b, toAccount.value, b.accounts[fromAccount.value].currency)
                   && NotBeforeOpening(b, AccountSide(fromAccount.value), date)
                   && NotBeforeOpening(b, AccountSide(toAccount.value), date)
                 else
                   && fromAccount.None? && toAccount.None? && fromTill.Some? && toTill.Some? && fromTill != toTill
                   && fromTill.value < |b.tills| && TillOf(b, toTill.value, b.tills[fromTill.value].currency)
                   && NotBeforeOpening(b, TillSide(fromTill.value), date)
                   && NotBeforeOpening(b, TillSide(toTill.value), date)
  {
    hide NotBeforeOpening, IsMoney, Record;
    if IsMoney(amount) {
      if kind == BetweenAccounts {
        if fromAccount.Some? && toAccount.Some? && fromAccount.value < |b.accounts| && toAccount.value < |b.accounts| {
          var p := Paper(AccountTransfer(fromAccount.value, toAccount.value), Cents(amount),
                         b.accounts[fromAccount.value].currency, date, 0, false);
          TwoLegs(b, p);
        }
      } else if fromTill.Some? && toTill.Some? && fromTill.value < |b.tills| && toTill.value < |b.tills| {
        var p := Paper(TillTransfer(fromTill.value, toTill.value), Cents(amount),
                       b.tills[fromTill.value].currency, date, 0, false);
        TwoLegs(b, p);
      }
    }
  }

  lemma TwoLegs(b: Books, p: Paper)
    requires p.amount > 0 && |Legs(p.kind)| == 2
    ensures Record(b, p).Ok? <==>
              DayOpen(b, p.date) && LegFits(b, p, Legs(p.kind)[0]) && LegFits(b, p, Legs(p.kind)[1])
  {
    hide LegFits, Record;
    Records(b, p);
  }

  /** A side with no opening but cancelled ones, and nothing standing before this day. */
  ghost predicate FreeForOpening(b: Books, s: Side, day: Day) {
    && (forall p :: 0 <= p < |b.papers| && IsOpeningOf(b.papers[p].kind, s) ==> b.papers[p].cancelled)
    && forall k :: 0 <= k < |b.movements| && b.movements[k].reverses.None? && Touches(b.movements[k], s)
                   && b.movements[k].date < day ==>
         exists j :: 0 <= j < |b.movements| && b.movements[j].reverses == Some(k)
  }

  lemma FreeMeans(b: Books, s: Side, day: Day)
    ensures FreeForOpening(b, s, day) <==> !AnyLiveOpening(b.papers, s) && !AnythingBefore(b.movements, s, day)
  {
    forall k: nat
      ensures Reversed(b.movements, k) <==> exists j :: 0 <= j < |b.movements| && b.movements[j].reverses == Some(k)
    {
    }
    forall p | 0 <= p < |b.papers|
      ensures LiveOpening(b.papers[p], s) <==> !b.papers[p].cancelled && IsOpeningOf(b.papers[p].kind, s)
    {
    }
    hide LiveOpening, IsOpeningOf, Touches, Reversed;
  }

  /** An opening is accepted exactly when it names one account or one till that has no other opening and nothing standing
      before it, the amount is money and the day is open. */
  lemma OpeningAccepted(b: Books, direction: Direction, amount: Decimal, date: Day, account: Option<Id>, till: Option<Id>)
    ensures Perform(b, CallRecordOpening(direction, amount, date, account, till)).Ok? <==>
              && IsMoney(amount) && DayOpen(b, date)
              && ((account.Some? && till.None? && account.value < |b.accounts|
                   && FreeForOpening(b, AccountSide(account.value), date))
                  || (account.None? && till.Some? && till.value < |b.tills|
                      && FreeForOpening(b, TillSide(till.value), date)))
  {
    hide IsMoney, Record, FreeForOpening, AnyLiveOpening, AnythingBefore;
    if account.Some? != till.Some? {
      var s := if account.Some? then AccountSide(account.value) else TillSide(till.value);
      FreeMeans(b, s, date);
      if IsMoney(amount) && (account.Some? ==> account.value < |b.accounts|) && (till.Some? ==> till.value < |b.tills|) {
        var kind := if account.Some? then AccountOpening(account.value, direction) else TillOpening(till.value, direction);
        var p := Paper(kind,
                       Cents(amount),
                       if account.Some? then b.accounts[account.value].currency else b.tills[till.value].currency,
                       date, 0, false);
        Records(b, p);
        assert Legs(p.kind) == [Legs(p.kind)[0]];
      }
    }
  }

  /** An account is opened, last, exactly when its party has none in the currency. */
  lemma OpenAccountAccepted(b: Books, kind: AccountKind, party: Id, currency: Currency)
    ensures Perform(b, CallOpenAccount(kind, party, currency)).Ok? <==> Account(kind, party, currency) !in b.accounts
    ensures Perform(b, CallOpenAccount(kind, party, currency)).Ok? ==>
              Perform(b, CallOpenAccount(kind, party, currency)).value ==
              b.(accounts := b.accounts + [Account(kind, party, currency)])
  {
    hide FindAccount;
    var a := FindAccount(b.accounts, kind, party, currency);
    if a < |b.accounts| {
      assert b.accounts[a] == Account(kind, party, currency);
    }
  }

  // Applying collections -----------------------------------------------------------------------

  /** A collection c on this account may pay so much of invoice i: an issued or paid invoice of the account's customer, in
      its currency, that c does not pay yet, up to what its standing collections have left of its total. */
  ghost predicate MayPay(b: Books, c: Id, account: Account, i: Id, asked: int) {
    && i < |b.invoices|
    && (b.invoices[i].status == Issued || b.invoices[i].status == Paid)
    && account.kind == Customer && b.invoices[i].customer == account.party && b.invoices[i].currency == account.currency
    && asked <= b.invoices[i].total - Collected(b.papers, b.applications, i)
    && forall k :: 0 <= k < |b.applications| ==>
         !(b.applications[k].collection == c && b.applications[k].invoice == i)
  }

  /** Amounts of money, no more than there is in all, and each invoice named may be paid all that is asked of it. */
  ghost predicate MayApply(b: Books, c: Id, account: Account, applies: seq<Applied>, left: int) {
    && (forall k :: 0 <= k < |applies| ==> IsMoney(applies[k].amount))
    && TotalApplied(applies) <= left
    && forall k :: 0 <= k < |applies| ==>
         MayPay(b, c, account, applies[k].invoice, PerInvoice(applies, applies[k].invoice))
  }

  lemma MayPayMeans(b: Books, c: Id, account: Account, i: Id, asked: int)
    ensures MayPay(b, c, account, i, asked) <==> i < |b.invoices| && Obstacle(b, c, account, i, asked).None?
  {
    hide Collected;
  }

  lemma AppliesExactly(b: Books, c: Id, account: Account, applies: seq<Applied>, left: int)
    ensures Apply(b, c, account, applies, left).Ok? <==> MayApply(b, c, account, applies, left)
  {
    hide Obstacle, PerInvoice, FirstObstacle, MayPay, TotalApplied, IsMoney, NewApplications;
    var n := |b.invoices|;
    forall i: Id
      ensures MayPay(b, c, account, i, PerInvoice(applies, i)) <==>
              i < n && Obstacle(b, c, account, i, PerInvoice(applies, i)).None?
    {
      MayPayMeans(b, c, account, i, PerInvoice(applies, i));
    }
    if Apply(b, c, account, applies, left).Ok? {
      forall k | 0 <= k < |applies|
        ensures MayPay(b, c, account, applies[k].invoice, PerInvoice(applies, applies[k].invoice))
      {
        assert applies[k].invoice in Named(applies);
        NoObstacle(b, c, account, applies, n, applies[k].invoice);
      }
    }
    if MayApply(b, c, account, applies, left) {
      NothingInTheWay(b, c, account, applies, n);
    }
  }

  /** An advance is applied exactly when something is asked of a standing collection that may pay it. */
  lemma ApplyAccepted(b: Books, c: Id, applies: seq<Applied>)
    ensures Perform(b, CallApplyCollection(c, applies)).Ok? <==>
              && applies != []
              && c < |b.papers| && b.papers[c].kind.Collection? && !b.papers[c].cancelled
              && b.papers[c].kind.account < |b.accounts|
              && MayApply(b, c, b.accounts[b.papers[c].kind.account], applies,
                          b.papers[c].amount - Allocated(b.applications, c))
  {
    hide Apply, MayApply, Allocated, SyncIn;
    if c < |b.papers| && b.papers[c].kind.Collection? && b.papers[c].kind.account < |b.accounts| {
      AppliesExactly(b, c, b.accounts[b.papers[c].kind.account], applies, b.papers[c].amount - Allocated(b.applications, c));
    }
  }

  /** Until it exists a collection has paid nothing, and its own paper changes nothing others have paid. */
  lemma MayPayBefore(b: Books, p: Paper, account: Account, i: Id, asked: int, number: nat)
    requires CollectionsKnown(b)
    ensures MayPay(b.(papers := b.papers + [p], lastCollection := number), |b.papers|, account, i, asked) ==
            MayPay(b, |b.papers|, account, i, asked)
    ensures MayPay(b, |b.papers|, account, i, asked) <==>
              && i < |b.invoices| && (b.invoices[i].status == Issued || b.invoices[i].status == Paid)
              && account.kind == Customer && b.invoices[i].customer == account.party
              && b.invoices[i].currency == account.currency
              && asked <= b.invoices[i].total - Collected(b.papers, b.applications, i)
  {
    CollectedKept(b.papers, b.papers + [p], b.applications, [], i);
    assert b.applications + [] == b.applications;
    hide Collected;
  }

  /** A collection is recorded exactly when its account and till hold the same currency, its amount is money, what it is to
      pay it may pay, up to what it brings in, and the day is open and not before an opening of either side. */
  lemma CollectionAccepted(b: Books, account: Id, till: Id, amount: Decimal, date: Day, applies: seq<Applied>)
    requires CollectionsKnown(b)
    ensures Perform(b, CallRecordCollection(account, till, amount, date, applies)).Ok? <==>
              && account < |b.accounts| && TillOf(b, till, b.accounts[account].currency) && IsMoney(amount)
              && MayApply(b, |b.papers|, b.accounts[account], applies, Cents(amount))
              && DayOpen(b, date)
              && NotBeforeOpening(b, AccountSide(account), date) && NotBeforeOpening(b, TillSide(till), date)
  {
    hide NotBeforeOpening, IsMoney, Apply, PostLegs, MayApply, SyncIn;
    if account < |b.accounts| && till < |b.tills| && IsMoney(amount) {
      var c, number := |b.papers|, b.lastCollection + 1;
      var p := Paper(Collection(account, till), Cents(amount), b.accounts[account].currency, date, number, false);
      var created := b.(papers := b.papers + [p], lastCollection := number);
      AppliesExactly(created, c, b.accounts[account], applies, Cents(amount));
      MayApplyBefore(b, p, b.accounts[account], applies, Cents(amount), number);
      if Apply(created, c, b.accounts[account], applies, Cents(amount)).Ok? {
        var applied := Apply(created, c, b.accounts[account], applies, Cents(amount)).value;
        AppliedOnly(created, c, b.accounts[account], applies, Cents(amount));
        PostsLegs(applied, p, PaperRef(c), Legs(p.kind));
        assert Legs(p.kind) == [(OnAccount(account, Credit), OnTill(till, In))];
        LegFitsElsewhere(created, applied, p, Legs(p.kind)[0]);
        PaperIsNoOpening(b.(lastCollection := number), p, Legs(p.kind)[0]);
        CountersApart(b, b.(lastCollection := number), p, Legs(p.kind)[0]);
      }
    }
  }

  lemma AppliedOnly(b: Books, c: Id, account: Account, applies: seq<Applied>, left: int)
    requires Apply(b, c, account, applies, left).Ok?
    ensures Apply(b, c, account, applies, left).value ==
            b.(applications := Apply(b, c, account, applies, left).value.applications)
  {
  }

  lemma MayApplyBefore(b: Books, p: Paper, account: Account, applies: seq<Applied>, left: int, number: nat)
    requires CollectionsKnown(b)
    ensures MayApply(b.(papers := b.papers + [p], lastCollection := number), |b.papers|, account, applies, left) ==
            MayApply(b, |b.papers|, account, applies, left)
  {
    hide MayPay, PerInvoice, TotalApplied, IsMoney;
    forall i: Id
      ensures MayPay(b.(papers := b.papers + [p], lastCollection := number), |b.papers|, account, i,
                     PerInvoice(applies, i)) ==
              MayPay(b, |b.papers|, account, i, PerInvoice(applies, i))
    {
      MayPayBefore(b, p, account, i, PerInvoice(applies, i), number);
    }
  }

  /** Marking paid is accepted exactly when the invoice is issued and owes something, the till named, or the active default
      one, holds its currency, and the day is open and not before an opening of the till or of the customer's account. */
  lemma MarkPaidAccepted(b: Books, i: Id, paidOn: Day, till: Option<Id>)
    requires CollectionsKnown(b)
    ensures Perform(b, CallMarkPaid(i, paidOn, till)).Ok? <==>
              && i < |b.invoices| && b.invoices[i].status == Issued
              && Collected(b.papers, b.applications, i) < b.invoices[i].total
              && (till.None? ==> TillOf(b, 0, b.invoices[i].currency) && b.tills[0].active)
              && TillOf(b, if till.Some? then till.value else 0, b.invoices[i].currency)
              && DayOpen(b, paidOn)
              && NotBeforeOpening(b, TillSide(if till.Some? then till.value else 0), paidOn)
              && NotBeforeOpening(b, AccountSide(FindAccount(b.accounts, Customer, b.invoices[i].customer,
                                                             b.invoices[i].currency)), paidOn)
  {
    hide NotBeforeOpening, RecordCollection, Collected, MayApply;
    if i < |b.invoices| && b.invoices[i].status == Issued && Remaining(b, i) > 0 {
      var inv := b.invoices[i];
      var start := AccountForCustomer(b, inv.customer, inv.currency);
      var account := FindAccount(b.accounts, Customer, inv.customer, inv.currency);
      var owed := OfCents(Remaining(b, i));
      var into := if till.Some? then till.value else DEFAULT_TILL;
      CollectionAccepted(start, account, into, owed, paidOn, [Applied(i, owed)]);
      AccountsOnly(b, start, AccountSide(account), paidOn);
      AccountsOnly(b, start, TillSide(into), paidOn);
      MayPayItAll(start, account, i, owed);
    }
  }

  lemma AccountsOnly(b: Books, c: Books, s: Side, day: Day)
    requires c == b.(accounts := c.accounts)
    ensures NotBeforeOpening(c, s, day) == NotBeforeOpening(b, s, day)
  {
  }

  lemma MayPayItAll(b: Books, account: Id, i: Id, owed: Decimal)
    requires CollectionsKnown(b) && i < |b.invoices| && Payable(b.invoices[i].status) && account < |b.accounts|
    requires IsAccountOf(b.accounts[account], Customer, b.invoices[i].customer, b.invoices[i].currency)
    requires IsMoney(owed) && Cents(owed) == Remaining(b, i)
    ensures MayApply(b, |b.papers|, b.accounts[account], [Applied(i, owed)], Cents(owed))
  {
    hide Collected, IsMoney;
    OneAsked(i, owed);
    TotalOfOne(i, owed);
    var any := Paper(Collection(0, 0), 1, TRY, 0, 0, false);
    MayPayBefore(b, any, b.accounts[account], i, Cents(owed), 0);
    hide MayPay, PerInvoice, TotalApplied;
  }

  lemma TotalOfOne(i: Id, owed: Decimal)
    requires IsMoney(owed)
    ensures TotalApplied([Applied(i, owed)]) == Cents(owed)
  {
    var applies := [Applied(i, owed)];
    assert Sums.SumTo(1, AnyAmount(applies)) == Sums.SumTo(0, AnyAmount(applies)) + AnyAmount(applies)(0);
  }
}
