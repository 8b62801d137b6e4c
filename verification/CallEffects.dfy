/** What each committed call does to every balance, by its own arguments (apps/ledger and apps/billing, services.py). */
module CallEffects {
  import opened Acceptance
  import opened Allocation
  import opened Books
  import CallShapes
  import opened Collecting
  import opened Effects
  import opened InvoiceKeys
  import opened LedgerRuns
  import opened Posting
  import Reconciliation
  import opened Results
  import Reversal
  import opened Services
  import Sums

  /** So many movements more, each of this paper, amount and day, and none a mirror. */
  ghost predicate Writes(b: Books, c: Books, count: nat, amount: Decimal, date: Day) {
    && IsMoney(amount)
    && |c.movements| == |b.movements| + count && b.movements <= c.movements
    && forall k :: |b.movements| <= k < |c.movements| ==>
         && c.movements[k].document == PaperRef(|b.papers|) && c.movements[k].reverses.None?
         && c.movements[k].amount == Cents(amount) && c.movements[k].date == date
  }

  /** The paper added, and nothing changed but the papers, the movements and the counters. */
  ghost predicate AddsPaper(b: Books, c: Books, p: Paper) {
    && c.papers == b.papers + [p]
    && c == b.(papers := c.papers, movements := c.movements, lastPayment := c.lastPayment)
  }

  lemma {:induction false} LegsMove(b: Books, p: Paper, r: DocumentRef, legs: seq<(PartyLeg, CashLeg)>, s: Side)
    requires PostLegs(b, p, r, legs).Ok?
    ensures var c := PostLegs(b, p, r, legs).value;
            && OnlyAppendsMovements(b, c) && |c.movements| == |b.movements| + |legs|
            && Balance(c.movements, s) == Balance(b.movements, s) + LegsNet(p, r, legs, s)
            && forall k :: 0 <= k < |legs| ==> c.movements[|b.movements| + k] == LegMovement(p, r, legs[k])
    decreases |legs|
  {
    hide Balance, SidesKnown, BeforeAnOpening, KeyTaken, CheckDate, SignedOn;
    if legs != [] {
      var m := LegMovement(p, r, legs[0]);
      var next := Post(b, m).value;
      Reversal.BalanceAppend(b.movements, m, s);
      LegsMove(next, p, r, legs[1..], s);
    }
  }

  lemma RecordMoves(b: Books, p: Paper, amount: Decimal, s: Side)
    requires Record(b, p).Ok? && IsMoney(amount) && p.amount == Cents(amount)
    ensures var c := Record(b, p).value;
            && Writes(b, c, |Legs(p.kind)|, amount, p.date) && AddsPaper(b, c, p) && c.lastPayment == b.lastPayment
            && Balance(c.movements, s) == Balance(b.movements, s) + LegsNet(p, PaperRef(|b.papers|), Legs(p.kind), s)
  {
    hide PostLegs, Balance, LegsNet, IsMoney, Legs;
    var legs := Legs(p.kind);
    var c := Record(b, p).value;
    LegsMove(b.(papers := b.papers + [p]), p, PaperRef(|b.papers|), legs, s);
    forall k | |b.movements| <= k < |c.movements|
      ensures c.movements[k].document == PaperRef(|b.papers|) && c.movements[k].reverses.None?
      ensures c.movements[k].amount == Cents(amount) && c.movements[k].date == p.date
    {
      var l := k - |b.movements|;
      assert c.movements[|b.movements| + l] == LegMovement(p, PaperRef(|b.papers|), legs[l]);
    }
  }

  lemma OneLeg(p: Paper, r: DocumentRef, s: Side)
    requires |Legs(p.kind)| == 1
    ensures LegsNet(p, r, Legs(p.kind), s) == SignedOn(LegMovement(p, r, Legs(p.kind)[0]), s)
  {
    assert LegsNet(p, r, Legs(p.kind)[1..], s) == 0;
  }

  lemma BothLegs(p: Paper, r: DocumentRef, s: Side)
    requires |Legs(p.kind)| == 2
    ensures LegsNet(p, r, Legs(p.kind), s) ==
            SignedOn(LegMovement(p, r, Legs(p.kind)[0]), s) + SignedOn(LegMovement(p, r, Legs(p.kind)[1]), s)
  {
    var rest := Legs(p.kind)[1..];
    assert rest[0] == Legs(p.kind)[1] && LegsNet(p, r, rest[1..], s) == 0;
    assert LegsNet(p, r, rest, s) == SignedOn(LegMovement(p, r, rest[0]), s);
  }

  // Papers ------------------------------------------------------------------------------------

  /** A payment out raises its account and takes the money out of its till, and out of its currency's cash. */
  lemma PaymentOutMoves(b: Books, account: Id, till: Id, amount: Decimal, date: Day, s: Side)
    requires Perform(b, CallRecordPaymentOut(account, till, amount, date)).Ok?
    ensures var c := Perform(b, CallRecordPaymentOut(account, till, amount, date)).value;
            && account < |b.accounts| && Writes(b, c, 1, amount, date) && c.lastPayment == b.lastPayment + 1
            && AddsPaper(b, c, Paper(PaymentOut(account, till), Cents(amount), b.accounts[account].currency, date,
                                     c.lastPayment, false))
            && Balance(c.movements, s) == Balance(b.movements, s) +
                 (if s == AccountSide(account) then Cents(amount)
                  else if s == TillSide(till) || s == Pool(b.accounts[account].currency) then -Cents(amount) else 0)
  {
    hide Balance, LegsNet, Record, IsMoney;
    var counted := b.(lastPayment := b.lastPayment + 1);
    var p := Paper(PaymentOut(account, till), Cents(amount), b.accounts[account].currency, date, b.lastPayment + 1, false);
    RecordMoves(counted, p, amount, s);
    OneLeg(p, PaperRef(|b.papers|), s);
  }

  /** A manual entry moves its account alone: up for a debit, down for a credit. */
  lemma ManualEntryMoves(b: Books, account: Id, direction: Direction, amount: Decimal, date: Day, reasonGiven: bool, s: Side)
    requires Perform(b, CallRecordManualEntry(account, direction, amount, date, reasonGiven)).Ok?
    ensures var c := Perform(b, CallRecordManualEntry(account, direction, amount, date, reasonGiven)).value;
            && account < |b.accounts| && Writes(b, c, 1, amount, date) && c.lastPayment == b.lastPayment
            && AddsPaper(b, c, Paper(ManualEntry(account, direction), Cents(amount), b.accounts[account].currency, date,
                                     0, false))
            && Balance(c.movements, s) == Balance(b.movements, s) +
                 (if s != AccountSide(account) then 0 else if direction == Debit then Cents(amount) else -Cents(amount))
  {
    hide Balance, LegsNet, Record, IsMoney;
    var p := Paper(ManualEntry(account, direction), Cents(amount), b.accounts[account].currency, date, 0, false);
    RecordMoves(b, p, amount, s);
    OneLeg(p, PaperRef(|b.papers|), s);
  }

  /** A transfer takes its amount from the side it is from and puts it on the side it is to, on its day. */
  lemma TransferMoves(b: Books, kind: TransferKind, amount: Decimal, date: Day,
      fromAccount: Option<Id>, toAccount: Option<Id>, fromTill: Option<Id>, toTill: Option<Id>, s: Side)
    requires Perform(b, CallRecordTransfer(kind, amount, date, fromAccount, toAccount, fromTill, toTill)).Ok?
    ensures var c := Perform(b, CallRecordTransfer(kind, amount, date, fromAccount, toAccount, fromTill, toTill)).value;
            && Writes(b, c, 2, amount, date) && c.lastPayment == b.lastPayment
            && |c.papers| == |b.papers| + 1 && AddsPaper(b, c, c.papers[|b.papers|])
            && Balance(c.movements, s) == Balance(b.movements, s) +
                 (if (s.AccountSide? && Some(s.account) == fromAccount) || (s.TillSide? && Some(s.till) == fromTill)
                  then -Cents(amount)
                  else if (s.AccountSide? && Some(s.account) == toAccount) || (s.TillSide? && Some(s.till) == toTill)
                  then Cents(amount) else 0)
  {
    hide Balance, LegsNet, Record, IsMoney;
    var p := if kind == BetweenAccounts
             then Paper(AccountTransfer(fromAccount.value, toAccount.value), Cents(amount),
                        b.accounts[fromAccount.value].currency, date, 0, false)
             else Paper(TillTransfer(fromTill.value, toTill.value), Cents(amount),
                        b.tills[fromTill.value].currency, date, 0, false);
    RecordMoves(b, p, amount, s);
    BothLegs(p, PaperRef(|b.papers|), s);
  }

  /** An opening sets its side up by a debit and down by a credit; a till's is its currency's cash too. */
  lemma OpeningMoves(b: Books, direction: Direction, amount: Decimal, date: Day, account: Option<Id>, till: Option<Id>,
                     s: Side)
    requires Perform(b, CallRecordOpening(direction, amount, date, account, till)).Ok?
    ensures var c := Perform(b, CallRecordOpening(direction, amount, date, account, till)).value;
            && (till.Some? ==> till.value < |b.tills|) && Writes(b, c, 1, amount, date) && c.lastPayment == b.lastPayment
            && |c.papers| == |b.papers| + 1 && AddsPaper(b, c, c.papers[|b.papers|])
            && (account.Some? ==> c.papers[|b.papers|].kind == AccountOpening(account.value, direction))
            && (till.Some? ==> c.papers[|b.papers|].kind == TillOpening(till.value, direction))
            && Balance(c.movements, s) == Balance(b.movements, s) +
                 (if (s.AccountSide? && account == Some(s.account)) || (s.TillSide? && till == Some(s.till))
                     || (till.Some? && s == Pool(b.tills[till.value].currency))
                  then (if direction == Debit then Cents(amount) else -Cents(amount)) else 0)
  {
    hide Balance, LegsNet, Record, IsMoney, AnyLiveOpening, AnythingBefore;
    var p := Paper(if account.Some? then AccountOpening(account.value, direction) else TillOpening(till.value, direction),
                   Cents(amount), if account.Some? then b.accounts[account.value].currency else b.tills[till.value].currency,
                   date, 0, false);
    RecordMoves(b, p, amount, s);
    OneLeg(p, PaperRef(|b.papers|), s);
  }

  /** A collection lowers its account and puts the money in its till and its currency's cash; it pays each invoice named
      what was asked of it, and no other. */
  lemma CollectionMoves(b: Books, account: Id, till: Id, amount: Decimal, date: Day, applies: seq<Applied>, s: Side, i: Id)
    requires CollectionsKnown(b) && Perform(b, CallRecordCollection(account, till, amount, date, applies)).Ok?
    ensures var c := Perform(b, CallRecordCollection(account, till, amount, date, applies)).value;
            && account < |b.accounts| && Writes(b, c, 1, amount, date) && c.lastCollection == b.lastCollection + 1
            && c.papers == b.papers + [Paper(Collection(account, till), Cents(amount), b.accounts[account].currency, date,
                                             c.lastCollection, false)]
            && Balance(c.movements, s) == Balance(b.movements, s) +
                 (if s == AccountSide(account) then -Cents(amount)
                  else if s == TillSide(till) || s == Pool(b.accounts[account].currency) then Cents(amount) else 0)
            && (i < |b.invoices| ==>
                  Collected(c.papers, c.applications, i) ==
                  Collected(b.papers, b.applications, i) + (if i in Named(applies) then PerInvoice(applies, i) else 0))
  {
    hide Balance, RecordCollection, Collected, PerInvoice, NewApplications, Synced, IsMoney;
    CollectionRows(b, account, till, amount, date, applies);
    var c := RecordCollection(b, account, till, amount, date, applies).value;
    var currency := b.accounts[account].currency;
    var p := Paper(Collection(account, till), Cents(amount), currency, date, b.lastCollection + 1, false);
    Reversal.BalanceAppend(b.movements, LegMovement(p, PaperRef(|b.papers|), Legs(p.kind)[0]), s);
    if i < |b.invoices| {
      NewlyCollected(b.papers + [p], b.applications, |b.papers|, applies, |b.invoices|, i);
      CollectedKept(b.papers, b.papers + [p], b.applications, [], i);
      assert b.applications + [] == b.applications;
    }
  }

  /** Marked paid, an invoice's customer owes what remained of it less, on the account of its currency, and the till named
      or the default one has that much more. */
  lemma MarkPaidMoves(b: Books, i: Id, paidOn: Day, till: Option<Id>, s: Side)
    requires CollectionsKnown(b) && Perform(b, CallMarkPaid(i, paidOn, till)).Ok?
    ensures var c := Perform(b, CallMarkPaid(i, paidOn, till)).value;
            && i < |b.invoices|
            && var inv, owed := b.invoices[i], b.invoices[i].total - Collected(b.papers, b.applications, i);
               var a := FindAccount(c.accounts, Customer, inv.customer, inv.currency);
               && owed > 0 && Writes(b, c, 1, OfCents(owed), paidOn) && a < |c.accounts| && b.accounts <= c.accounts
               && Balance(c.movements, s) == Balance(b.movements, s) +
                    (if s == AccountSide(a) then -owed
                     else if s == TillSide(if till.Some? then till.value else 0) || s == Pool(inv.currency) then owed else 0)
  {
    hide RecordCollection, MarkPaid, Balance, Collected, FindAccount;
    var start, account, into, owed := CallShapes.MarkPaidCollects(b, i, paidOn, till);
    AccountAdded(b, b.invoices[i].customer, b.invoices[i].currency);
    CollectionMoves(start, account, into, owed, paidOn, [Applied(i, owed)], s, i);
    CollectionRows(start, account, into, owed, paidOn, [Applied(i, owed)]);
    AccountFound(start.accounts, b.invoices[i].customer, b.invoices[i].currency);
  }

  lemma AccountAdded(b: Books, customer: Id, currency: Currency)
    ensures var c := AccountForCustomer(b, customer, currency);
            c == b.(accounts := c.accounts) && b.accounts <= c.accounts
  {
  }

  lemma AccountFound(accounts: seq<Account>, customer: Id, currency: Currency)
    ensures var a := FindAccount(accounts, Customer, customer, currency);
            a < |accounts| ==> accounts[a].currency == currency
  {
  }

  // Invoices ---------------------------------------------------------------------------------------

  /** An invoice is issued exactly when it is a draft whose lines have their prices, under a number no other live invoice
      has; and, if it asks anything, asks more than nothing on a day open and not before an opening of its account. */
  lemma IssueAccepted(b: Books, i: Id, number: nat, date: Day, linesNeedPrice: bool)
    requires LedgerInv(b)
    ensures Perform(b, CallIssue(i, number, date, linesNeedPrice)).Ok? <==>
              && i < |b.invoices| && b.invoices[i].status == Draft && !linesNeedPrice
              && (forall k :: 0 <= k < |b.invoices| && k != i && b.invoices[k].number == Some(number) ==>
                    b.invoices[k].status != Issued && b.invoices[k].status != Paid)
              && b.invoices[i].total >= 0
              && (b.invoices[i].total > 0 ==>
                    && DayOpen(b, date)
                    && NotBeforeOpening(b, AccountSide(FindAccount(b.accounts, Customer, b.invoices[i].customer,
                                                                   b.invoices[i].currency)), date))
  {
    hide LedgerInv, PostInvoice, FindAccount, NotBeforeOpening;
    if i < |b.invoices| && b.invoices[i].status == Draft {
      var issued := b.invoices[i].(status := Issued, number := Some(number), date := Some(date));
      PostsDraft(b, i, issued);
    }
  }

  /** A live invoice with a date is posted, unless it has been or asks nothing, exactly when it asks more than nothing on a
      day open and not before an opening of its account. */
  lemma PostsInvoice(b: Books, i: Id, on: Option<Day>)
    ensures PostInvoice(b, i, on).Ok? <==>
              && i < |b.invoices| && Payable(b.invoices[i].status) && b.invoices[i].date.Some?
              && var inv := b.invoices[i];
                 var day := if on.Some? then on.value else inv.date.value;
                 || KeyTaken(b.movements, InvoiceSource, InvoiceRef(i)) || inv.total == 0
                 || (inv.total > 0 && DayOpen(b, day) &&
                     NotBeforeOpening(b, AccountSide(FindAccount(b.accounts, Customer, inv.customer, inv.currency)), day))
  {
    hide BeforeAnOpening;
    if i < |b.invoices| && Payable(b.invoices[i].status) && b.invoices[i].date.Some? {
      var inv := b.invoices[i];
      var day := if on.Some? then on.value else inv.date.value;
      var a := FindAccount(b.accounts, Customer, inv.customer, inv.currency);
      var w := AccountForCustomer(b, inv.customer, inv.currency);
      BeforeOpeningMeans(w, Movement(OnAccount(a, Debit), NoCash, day, inv.total, inv.currency, InvoiceSource,
                                     InvoiceRef(i), None));
      OpeningsApart(b, w, AccountSide(a), day);
    }
  }

  lemma PostsDraft(b: Books, i: Id, issued: Invoice)
    requires LedgerInv(b) && i < |b.invoices| && b.invoices[i].status == Draft
    requires issued == b.invoices[i].(status := Issued, number := issued.number, date := issued.date) && issued.date.Some?
    ensures PostInvoice(b.(invoices := b.invoices[i := issued]), i, None).Ok? <==>
              && issued.total >= 0
              && (issued.total > 0 ==>
                    && DayOpen(b, issued.date.value)
                    && NotBeforeOpening(b, AccountSide(FindAccount(b.accounts, Customer, issued.customer, issued.currency)),
                                        issued.date.value))
  {
    hide LedgerInv, PostInvoice, FindAccount, KeyTaken, NotBeforeOpening;
    DraftUnposted(b, i);
    var c := b.(invoices := b.invoices[i := issued]);
    PostsInvoice(c, i, None);
    var a := FindAccount(b.accounts, Customer, issued.customer, issued.currency);
    OpeningsApart(b, c, AccountSide(a), issued.date.value);
  }

  lemma DraftUnposted(b: Books, i: Id)
    requires LedgerInv(b) && i < |b.invoices| && b.invoices[i].status == Draft
    ensures !KeyTaken(b.movements, InvoiceSource, InvoiceRef(i))
  {
    assert PostedAsLive(b, i);
  }

  lemma OpeningsApart(b: Books, c: Books, s: Side, day: Day)
    requires c.papers == b.papers
    ensures NotBeforeOpening(c, s, day) == NotBeforeOpening(b, s, day)
  {
  }

  /** Issued, an invoice is debited in full on its customer's account of its currency, dated its own date; one that asks
      nothing moves nothing, and reads paid. */
  lemma IssueMoves(b: Books, i: Id, number: nat, date: Day, linesNeedPrice: bool, s: Side)
    requires LedgerInv(b) && Perform(b, CallIssue(i, number, date, linesNeedPrice)).Ok?
    ensures var c := Perform(b, CallIssue(i, number, date, linesNeedPrice)).value;
            && i < |b.invoices| == |c.invoices|
            && var inv := b.invoices[i];
               var a := FindAccount(c.accounts, Customer, inv.customer, inv.currency);
               && b.movements <= c.movements && b.accounts <= c.accounts && c.papers == b.papers
               && c.invoices[i] == inv.(status := if inv.total == 0 then Paid else Issued, number := Some(number),
                                        date := Some(date), paidOn := if inv.total == 0 then Some(date) else None)
               && |c.movements| == |b.movements| + (if inv.total > 0 then 1 else 0)
               && (inv.total > 0 ==> c.movements[|b.movements|].date == date && a < |c.accounts|)
               && Balance(c.movements, s) == Balance(b.movements, s) +
                    (if s == AccountSide(a) && inv.total > 0 then inv.total else 0)
  {
    hide Balance, LedgerInv, PostInvoice, FindAccount, NumberTaken, Collected, LatestPayment;
    var issued := b.invoices[i].(status := Issued, number := Some(number), date := Some(date));
    DraftUnposted(b, i);
    NothingPaidYet(b, i);
    PostsDraft(b, i, issued);
    PostingMoves(b.(invoices := b.invoices[i := issued]), i, None, s);
  }

  lemma NothingPaidYet(b: Books, i: Id)
    requires LedgerInv(b) && i < |b.invoices| && b.invoices[i].status == Draft
    ensures Collected(b.papers, b.applications, i) == 0
  {
    OnlyLiveCollected(b, i);
  }

  lemma PostingMoves(b: Books, i: Id, on: Option<Day>, s: Side)
    requires PostInvoice(b, i, on).Ok?
    ensures var c := PostInvoice(b, i, on).value;
            && i < |b.invoices|
            && var inv := b.invoices[i];
               var a := FindAccount(c.accounts, Customer, inv.customer, inv.currency);
               var posts := inv.total != 0 && !KeyTaken(b.movements, InvoiceSource, InvoiceRef(i));
               && c == b.(accounts := c.accounts, movements := c.movements)
               && inv.date.Some? && b.movements <= c.movements && b.accounts <= c.accounts
               && |c.movements| == |b.movements| + (if posts then 1 else 0)
               && (posts ==>
                     && inv.total > 0 && a < |c.accounts|
                     && c.movements[|b.movements|].date == if on.Some? then on.value else inv.date.value)
               && Balance(c.movements, s) == Balance(b.movements, s) +
                    (if s == AccountSide(a) && posts then inv.total else 0)
  {
    hide Balance, BeforeAnOpening, FindAccount, KeyTaken, CheckDate;
    var inv := b.invoices[i];
    var a := FindAccount(b.accounts, Customer, inv.customer, inv.currency);
    FoundAgain(b, inv.customer, inv.currency);
    if inv.total != 0 && !KeyTaken(b.movements, InvoiceSource, InvoiceRef(i)) {
      var m := Movement(OnAccount(a, Debit), NoCash, if on.Some? then on.value else inv.date.value, inv.total,
                        inv.currency, InvoiceSource, InvoiceRef(i), None);
      Reversal.BalanceAppend(b.movements, m, s);
    }
  }

  /** The account opened on first ask is the one found afterwards. */
  lemma FoundAgain(b: Books, customer: Id, currency: Currency)
    ensures var c := AccountForCustomer(b, customer, currency);
            var a := FindAccount(b.accounts, Customer, customer, currency);
            FindAccount(c.accounts, Customer, customer, currency) == a && a < |c.accounts|
  {
    hide FindAccount;
    var c := AccountForCustomer(b, customer, currency);
    var a := FindAccount(b.accounts, Customer, customer, currency);
    var again := FindAccount(c.accounts, Customer, customer, currency);
    assert IsAccountOf(c.accounts[a], Customer, customer, currency);
  }

  /** A live invoice that asks something has one movement standing, and none that cancels it. */
  lemma LiveCanBeReversed(b: Books, i: Id)
    requires LedgerInv(b) && KeysInv(b) && i < |b.invoices| && Payable(b.invoices[i].status)
    requires KeyTaken(b.movements, InvoiceSource, InvoiceRef(i)) && b.invoices[i].total != 0
    ensures AnyStanding(b.movements, InvoiceRef(i)) && !MirrorsClash(b.movements, InvoiceRef(i), InvoiceCancelSource)
  {
    var ms, r := b.movements, InvoiceRef(i);
    StandsSomewhere(b, i);
    forall k: nat | k < |ms| && ms[k].document == r && ms[k].reverses.None?
      ensures ms[k].source == InvoiceSource
    {
      assert RefKnown(b, ms[k].document) && SourceFits(b, ms[k]);
    }
  }

  lemma StandsSomewhere(b: Books, i: Id)
    requires LedgerInv(b) && i < |b.invoices| && Payable(b.invoices[i].status) && b.invoices[i].total != 0
    ensures AnyStanding(b.movements, InvoiceRef(i))
  {
    var inv := b.invoices[i];
    var s := AccountSide(FindAccount(b.accounts, Customer, inv.customer, inv.currency));
    assert PostedAsLive(b, i);
    assert Net(b.movements, InvoiceRef(i), s) == InvoiceEffect(b.accounts, inv, s) == inv.total;
    Reversal.NetIsStanding(b.movements, InvoiceRef(i), s);
    if !AnyStanding(b.movements, InvoiceRef(i)) {
      Sums.SumZero(|b.movements|, Reversal.StandingOf(b.movements, InvoiceRef(i), s));
    }
  }

  /** A cancel is accepted exactly when the invoice is not cancelled yet and, if it is live, nothing standing pays it, and
      today is open where there is a movement to mirror. */
  lemma CancelInvoiceAccepted(b: Books, i: Id)
    requires LedgerInv(b) && KeysInv(b)
    ensures Perform(b, CallCancelInvoice(i)).Ok? <==>
              && i < |b.invoices| && b.invoices[i].status != Cancelled
              && (b.invoices[i].status != Draft ==>
                    && Collected(b.papers, b.applications, i) == 0
                    && (b.invoices[i].total > 0 ==> DayOpen(b, b.today)))
  {
    hide LedgerInv, KeysInv, Collected, KeyTaken, AnyStanding, MirrorsClash, Mirrors;
    if i < |b.invoices| && Payable(b.invoices[i].status) {
      LiveInvoice(b, i);
      if b.invoices[i].total != 0 {
        LiveCanBeReversed(b, i);
      }
    }
  }

  /** A live invoice has posted exactly when it asks something, which is never less than nothing. */
  lemma LiveInvoice(b: Books, i: Id)
    requires LedgerInv(b) && KeysInv(b) && i < |b.invoices| && Payable(b.invoices[i].status)
    ensures 0 <= Collected(b.papers, b.applications, i) <= b.invoices[i].total
    ensures b.invoices[i].total != 0 <==> KeyTaken(b.movements, InvoiceSource, InvoiceRef(i))
  {
    assert WithinInvoice(b, i) && PostedAsLive(b, i);
  }

  // Cancelling ---------------------------------------------------------------------------------------

  /** The mirrors are written today, and take off every balance what the document had put on it. */
  ghost predicate TakesOff(b: Books, c: Books, r: DocumentRef, s: Side) {
    && b.movements <= c.movements
    && (forall k :: |b.movements| <= k < |c.movements| ==> c.movements[k].date == b.today && c.movements[k].document == r)
    && Balance(c.movements, s) == Balance(b.movements, s) - Net(b.movements, r, s)
  }

  lemma ReversalTakesOff(b: Books, r: DocumentRef, source: Source, s: Side)
    requires Reversal.WellMirrored(b.movements) && ReverseDocument(b, r, b.today, source).Ok?
    ensures TakesOff(b, ReverseDocument(b, r, b.today, source).value, r, s)
  {
    hide Balance, Net, AnyStanding, CheckDate, MirrorsClash;
    Reversal.ReversalMovesBalance(b, r, b.today, source, s);
    var ms := b.movements;
    var made := Mirrors(ms, r, |ms|, b.today, source);
    Reversal.MirrorsShape(ms, r, |ms|, b.today, source);
    forall k | |ms| <= k < |ms + made|
      ensures (ms + made)[k].date == b.today && (ms + made)[k].document == r
    {
      assert (ms + made)[k] == made[k - |ms|] && made[k - |ms|] in made;
    }
  }

  lemma StampTakesOff(b: Books, p: Id, s: Side)
    requires LedgerInv(b) && p < |b.papers| && StampCancelled(b, p).Ok?
    ensures TakesOff(b, StampCancelled(b, p).value, PaperRef(p), s)
    ensures StampCancelled(b, p).value.papers == b.papers[p := b.papers[p].(cancelled := true)]
  {
    hide ReverseDocument, Balance, Net;
    ReversalTakesOff(b, PaperRef(p), ReversalSource, s);
  }

  /** A document is cancelled exactly when it stands and today is open; every balance loses what it had put on it. */
  lemma CancelPaperMoves(b: Books, p: Id, s: Side)
    requires LedgerInv(b)
    ensures Perform(b, CallCancelPaper(p)).Ok? <==>
              p < |b.papers| && !b.papers[p].kind.Collection? && !b.papers[p].cancelled && DayOpen(b, b.today)
    ensures Perform(b, CallCancelPaper(p)).Ok? ==>
              var c := Perform(b, CallCancelPaper(p)).value;
              TakesOff(b, c, PaperRef(p), s) && c.papers == b.papers[p := b.papers[p].(cancelled := true)]
  {
    hide LedgerInv, StampCancelled, TakesOff;
    if p < |b.papers| && !b.papers[p].cancelled {
      Reconciliation.StandingCanBeCancelled(b, p);
      if StampCancelled(b, p).Ok? {
        StampTakesOff(b, p, s);
      }
    }
  }

  /** A collection, likewise; and none of the invoices counts its money any more. */
  lemma CancelCollectionMoves(b: Books, p: Id, s: Side)
    requires LedgerInv(b)
    ensures Perform(b, CallCancelCollection(p)).Ok? <==>
              p < |b.papers| && b.papers[p].kind.Collection? && !b.papers[p].cancelled && DayOpen(b, b.today)
    ensures Perform(b, CallCancelCollection(p)).Ok? ==>
              var c := Perform(b, CallCancelCollection(p)).value;
              && TakesOff(b, c, PaperRef(p), s) && c.papers == b.papers[p := b.papers[p].(cancelled := true)]
              && c.applications == b.applications
  {
    hide LedgerInv, Synced;
    if p < |b.papers| && !b.papers[p].cancelled {
      Reconciliation.StandingCanBeCancelled(b, p);
      if StampCancelled(b, p).Ok? {
        StampTakesOff(b, p, s);
        StampOnly(b, p);
      }
    }
    hide StampCancelled, TakesOff;
  }

  lemma StampOnly(b: Books, p: Id)
    requires p < |b.papers| && StampCancelled(b, p).Ok?
    ensures StampCancelled(b, p).value.applications == b.applications
  {
    hide AnyStanding, CheckDate, MirrorsClash, Mirrors;
  }

  /** A cancelled invoice's customer owes its total less, on the account of its currency; a draft's cancel moves nothing. */
  lemma CancelInvoiceMoves(b: Books, i: Id, s: Side)
    requires LedgerInv(b) && KeysInv(b) && Perform(b, CallCancelInvoice(i)).Ok?
    ensures var c := Perform(b, CallCancelInvoice(i)).value;
            && i < |b.invoices| && b.movements <= c.movements && c.papers == b.papers
            && c.invoices == b.invoices[i := b.invoices[i].(status := Cancelled)]
            && var inv := b.invoices[i];
               var a := FindAccount(b.accounts, Customer, inv.customer, inv.currency);
               Balance(c.movements, s) == Balance(b.movements, s) -
                 (if s == AccountSide(a) && inv.status != Draft then inv.total else 0)
  {
    hide LedgerInv, KeysInv, Balance, Collected, KeyTaken, ReverseDocument, FindAccount, Net, InvoiceEffect;
    var inv := b.invoices[i];
    if inv.status != Draft {
      LiveInvoice(b, i);
      LiveEffect(b, i, s);
      if KeyTaken(b.movements, InvoiceSource, InvoiceRef(i)) {
        ReversalTakesOff(b, InvoiceRef(i), InvoiceCancelSource, s);
        ReversalOnly(b, InvoiceRef(i), InvoiceCancelSource);
      }
    }
  }

  lemma ReversalOnly(b: Books, r: DocumentRef, source: Source)
    requires ReverseDocument(b, r, b.today, source).Ok?
    ensures var c := ReverseDocument(b, r, b.today, source).value;
            c == b.(movements := c.movements)
  {
  }

  lemma LiveEffect(b: Books, i: Id, s: Side)
    requires LedgerInv(b) && i < |b.invoices| && Payable(b.invoices[i].status)
    ensures Reversal.WellMirrored(b.movements)
    ensures var inv := b.invoices[i];
            Net(b.movements, InvoiceRef(i), s) ==
              if s == AccountSide(FindAccount(b.accounts, Customer, inv.customer, inv.currency)) then inv.total else 0
  {
    var inv := b.invoices[i];
    var a := FindAccount(b.accounts, Customer, inv.customer, inv.currency);
    assert Net(b.movements, InvoiceRef(i), s) == InvoiceEffect(b.accounts, inv, s);
    assert PostedAsLive(b, i);
    OneAccount(b.accounts, inv.customer, inv.currency, s);
    hide Net;
  }

  lemma OneAccount(accounts: seq<Account>, customer: Id, currency: Currency, s: Side)
    requires AccountsDistinct(accounts)
    ensures s.AccountSide? && s.account < |accounts| && IsAccountOf(accounts[s.account], Customer, customer, currency) ==>
              s.account == FindAccount(accounts, Customer, customer, currency)
  {
    hide FindAccount;
    if s.AccountSide? && s.account < |accounts| && IsAccountOf(accounts[s.account], Customer, customer, currency) {
      var a := FindAccount(accounts, Customer, customer, currency);
      assert accounts[a] == accounts[s.account];
    }
  }
}
