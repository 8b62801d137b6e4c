/**
 * The ledger services and the invoice lifecycle, each as one step on the books:
 * it commits and gives the new books, or refuses and changes nothing.
 * (apps/ledger/services.py, and issue, mark_paid and cancel of apps/billing/services.py)
 */
module Services {
  import opened Results
  import opened Sums
  import opened Books
  import opened Posting

  /** An invoice named in a call, and how much of the collection pays it. */
  datatype Applied = Applied(invoice: Id, amount: Decimal)

  // Status -------------------------------------------------------------------------

  /** The invoice as its collections say: `Paid` when they cover it, `Issued` otherwise. */
  function Synced(papers: seq<Paper>, apps: seq<Application>, inv: Invoice, i: Id): Invoice {
    if !Payable(inv.status) then inv
    else if inv.total == 0 then inv.(status := Paid, paidOn := inv.date)
    else if inv.total - Collected(papers, apps, i) <= 0 then
      var latest := LatestPayment(papers, apps, i);
      inv.(status := Paid, paidOn := if latest.Some? then latest else inv.date)
    else inv.(status := Issued, paidOn := None)
  }

  function SyncIn(b: Books, which: set<Id>): Books {
    b.(invoices := seq(|b.invoices|, i requires 0 <= i < |b.invoices| =>
      if i in which then Synced(b.papers, b.applications, b.invoices[i], i) else b.invoices[i]))
  }

  // Allocation ---------------------------------------------------------------------

  function AmountFor(applies: seq<Applied>, i: Id): nat -> int {
    (k: nat) => if k < |applies| && applies[k].invoice == i && IsMoney(applies[k].amount)
                then Cents(applies[k].amount) else 0
  }

  /** What a call asks to pay of one invoice, over all the times it names it. */
  function PerInvoice(applies: seq<Applied>, i: Id): int {
    SumTo(|applies|, AmountFor(applies, i))
  }

  function AnyAmount(applies: seq<Applied>): nat -> int {
    (k: nat) => if k < |applies| && IsMoney(applies[k].amount) then Cents(applies[k].amount) else 0
  }

  function TotalApplied(applies: seq<Applied>): int {
    SumTo(|applies|, AnyAmount(applies))
  }

  function Named(applies: seq<Applied>): set<Id> {
    set k | 0 <= k < |applies| :: applies[k].invoice
  }

  /** Why a collection on this account cannot pay `amount` of invoice i, if it cannot. */
  function Obstacle(b: Books, c: Id, account: Account, i: Id, amount: int): Option<Error>
    requires i < |b.invoices|
  {
    var inv := b.invoices[i];
    if !Payable(inv.status) || account.kind != Customer || inv.customer != account.party
    then Some(NotPayable)
    else if inv.currency != account.currency then Some(CurrencyMismatch)
    else if amount > Remaining(b, i) then Some(OverpaymentOnInvoice)
    else if Pays(b.applications, c, i) then Some(AlreadyApplied)
    else None
  }

  /** The first obstacle in invoice order, among the first n invoices. */
  function FirstObstacle(b: Books, c: Id, account: Account, applies: seq<Applied>, n: nat): Option<Error>
    requires n <= |b.invoices|
  {
    if n == 0 then None
    else
      var earlier := FirstObstacle(b, c, account, applies, n - 1);
      if earlier.Some? then earlier
      else if n - 1 in Named(applies) then Obstacle(b, c, account, n - 1, PerInvoice(applies, n - 1))
      else None
  }

  /** One application per invoice named, in invoice order. */
  function NewApplications(c: Id, applies: seq<Applied>, n: nat): seq<Application> {
    if n == 0 then []
    else NewApplications(c, applies, n - 1) +
         (if n - 1 in Named(applies) then [Application(c, n - 1, PerInvoice(applies, n - 1))] else [])
  }

  /** Pay invoices from collection c, each up to what it owes, all of them up to `limit`. */
  function Apply(b: Books, c: Id, account: Account, applies: seq<Applied>, limit: int): Outcome {
    if exists k :: 0 <= k < |applies| && !IsMoney(applies[k].amount) then Refused(BadAmount)
    else if TotalApplied(applies) > limit then Refused(OverApplied)
    else
      var obstacle := FirstObstacle(b, c, account, applies, |b.invoices|);
      if obstacle.Some? then Refused(obstacle.value)
      else if exists k :: 0 <= k < |applies| && applies[k].invoice >= |b.invoices| then Refused(UnknownRecord)
      else Ok(b.(applications := b.applications + NewApplications(c, applies, |b.invoices|)))
  }

  // Documents ----------------------------------------------------------------------

  function PaperSource(kind: PaperKind): Source {
    match kind
    case Collection(_, _) => CollectionSource
    case PaymentOut(_, _) => PaymentOutSource
    case ManualEntry(_, _) => ManualSource
    case AccountTransfer(_, _) => TransferSource
    case TillTransfer(_, _) => TransferSource
    case AccountOpening(_, _) => OpeningSource
    case TillOpening(_, _) => OpeningSource
  }

  function FlowOf(d: Direction): Flow {
    if d == Debit then In else Out
  }

  /** The sides a paper moves, one pair per movement it posts. */
  function Legs(kind: PaperKind): seq<(PartyLeg, CashLeg)> {
    match kind
    case Collection(a, t) => [(OnAccount(a, Credit), OnTill(t, In))]
    case PaymentOut(a, t) => [(OnAccount(a, Debit), OnTill(t, Out))]
    case ManualEntry(a, d) => [(OnAccount(a, d), NoCash)]
    case AccountTransfer(x, y) => [(OnAccount(x, Credit), NoCash), (OnAccount(y, Debit), NoCash)]
    case TillTransfer(x, y) => [(NoParty, OnTill(x, Out)), (NoParty, OnTill(y, In))]
    case AccountOpening(a, d) => [(OnAccount(a, d), NoCash)]
    case TillOpening(t, d) => [(NoParty, OnTill(t, FlowOf(d)))]
  }

  function LegMovement(p: Paper, r: DocumentRef, leg: (PartyLeg, CashLeg)): Movement {
    Movement(leg.0, leg.1, p.date, p.amount, p.currency, PaperSource(p.kind), r, None)
  }

  /** Post a paper's legs one after another; the first refusal refuses them all. */
  function PostLegs(b: Books, p: Paper, r: DocumentRef, legs: seq<(PartyLeg, CashLeg)>): Outcome
    decreases |legs|
  {
    if legs == [] then Ok(b)
    else
      var next :- Post(b, LegMovement(p, r, legs[0]));
      PostLegs(next, p, r, legs[1..])
  }

  /** Create a paper and post it. */
  function Record(b: Books, p: Paper): Outcome {
    PostLegs(b.(papers := b.papers + [p]), p, PaperRef(|b.papers|), Legs(p.kind))
  }

  function RecordCollection(
    b: Books, account: Id, till: Id, amount: Decimal, date: Day, applies: seq<Applied>): Outcome
  {
    if account >= |b.accounts| || till >= |b.tills| then Refused(UnknownRecord)
    else if !IsMoney(amount) then Refused(BadAmount)
    else
      var c := |b.papers|;
      var p := Paper(Collection(account, till), Cents(amount), b.accounts[account].currency, date,
                     b.lastCollection + 1, false);
      var created := b.(papers := b.papers + [p], lastCollection := b.lastCollection + 1);
      var applied :- Apply(created, c, b.accounts[account], applies, Cents(amount));
      var posted :- PostLegs(applied, p, PaperRef(c), Legs(p.kind));
      Ok(SyncIn(posted, Named(applies)))
  }

  /** Cancelling reads the paper's row under its lock, and refuses it if cancelled. */
  function LockPaper(b: Books, p: Id): Option<Error> {
    if p >= |b.papers| then Some(UnknownRecord)
    else if b.papers[p].cancelled then Some(AlreadyReversed)
    else None
  }

  function StampCancelled(b: Books, p: Id): Outcome
    requires p < |b.papers|
  {
    var reversed :- ReverseDocument(b, PaperRef(p), b.today, ReversalSource);
    Ok(reversed.(papers := b.papers[p := b.papers[p].(cancelled := true)]))
  }

  function AppliedInvoices(apps: seq<Application>, c: Id): set<Id> {
    set k | 0 <= k < |apps| && apps[k].collection == c :: apps[k].invoice
  }

  /** A cancelled collection gives its invoices back what it paid of them. */
  function CancelCollection(b: Books, c: Id): Outcome {
    if LockPaper(b, c).Some? then Refused(LockPaper(b, c).value)
    else if !b.papers[c].kind.Collection? then Refused(UnknownRecord)
    else
      var cancelled :- StampCancelled(b, c);
      Ok(SyncIn(cancelled, AppliedInvoices(b.applications, c)))
  }

  /** Cancel any other paper. */
  function CancelPaper(b: Books, p: Id): Outcome {
    if LockPaper(b, p).Some? then Refused(LockPaper(b, p).value)
    else if b.papers[p].kind.Collection? then Refused(UnknownRecord)
    else StampCancelled(b, p)
  }

  /** A standing collection pays further invoices out of what it has left. */
  function ApplyCollection(b: Books, c: Id, applies: seq<Applied>): Outcome {
    if applies == [] then Refused(NothingApplied)
    else if LockPaper(b, c).Some? then Refused(LockPaper(b, c).value)
    else if !b.papers[c].kind.Collection? || b.papers[c].kind.account >= |b.accounts|
    then Refused(UnknownRecord)
    else
      var limit := b.papers[c].amount - Allocated(b.applications, c);
      var applied :- Apply(b, c, b.accounts[b.papers[c].kind.account], applies, limit);
      Ok(SyncIn(applied, Named(applies)))
  }

  function RecordPaymentOut(b: Books, account: Id, till: Id, amount: Decimal, date: Day): Outcome {
    if account >= |b.accounts| || till >= |b.tills| then Refused(UnknownRecord)
    else if !IsMoney(amount) then Refused(BadAmount)
    else
      Record(b.(lastPayment := b.lastPayment + 1),
             Paper(PaymentOut(account, till), Cents(amount), b.accounts[account].currency, date,
                   b.lastPayment + 1, false))
  }

  function RecordManualEntry(
    b: Books, account: Id, direction: Direction, amount: Decimal, date: Day, reasonGiven: bool): Outcome
  {
    if account >= |b.accounts| then Refused(UnknownRecord)
    else if !reasonGiven then Refused(ReasonRequired)
    else if !IsMoney(amount) then Refused(BadAmount)
    else
      Record(b, Paper(ManualEntry(account, direction), Cents(amount), b.accounts[account].currency, date, 0, false))
  }

  datatype TransferKind = BetweenAccounts | BetweenTills

  function RecordTransfer(
    b: Books, kind: TransferKind, amount: Decimal, date: Day,
    fromAccount: Option<Id>, toAccount: Option<Id>, fromTill: Option<Id>, toTill: Option<Id>): Outcome
  {
    if kind == BetweenAccounts then
      if fromTill.Some? || toTill.Some? then Refused(TransferKindMismatch)
      else if fromAccount.None? || toAccount.None? then Refused(NoSide)
      else if fromAccount.value >= |b.accounts| || toAccount.value >= |b.accounts| then Refused(UnknownRecord)
      else if fromAccount == toAccount then Refused(SameSide)
      else if b.accounts[fromAccount.value].currency != b.accounts[toAccount.value].currency
      then Refused(CurrencyMismatch)
      else if !IsMoney(amount) then Refused(BadAmount)
      else
        Record(b, Paper(AccountTransfer(fromAccount.value, toAccount.value), Cents(amount),
                        b.accounts[fromAccount.value].currency, date, 0, false))
    else if fromAccount.Some? || toAccount.Some? then Refused(TransferKindMismatch)
    else if fromTill.None? || toTill.None? then Refused(NoSide)
    else if fromTill.value >= |b.tills| || toTill.value >= |b.tills| then Refused(UnknownRecord)
    else if fromTill == toTill then Refused(SameSide)
    else if b.tills[fromTill.value].currency != b.tills[toTill.value].currency then Refused(CurrencyMismatch)
    else if !IsMoney(amount) then Refused(BadAmount)
    else
      Record(b, Paper(TillTransfer(fromTill.value, toTill.value), Cents(amount),
                      b.tills[fromTill.value].currency, date, 0, false))
  }

  /** Some unreversed original on this side is dated before `day`. */
  predicate AnythingBefore(ms: seq<Movement>, s: Side, day: Day) {
    exists k :: 0 <= k < |ms| && ms[k].reverses.None? && !Reversed(ms, k) && Touches(ms[k], s) && ms[k].date < day
  }

  predicate AnyLiveOpening(papers: seq<Paper>, s: Side) {
    exists p :: 0 <= p < |papers| && LiveOpening(papers[p], s)
  }

  function RecordOpening(
    b: Books, direction: Direction, amount: Decimal, date: Day, account: Option<Id>, till: Option<Id>): Outcome
  {
    if account.Some? == till.Some? then Refused(OneSideOnly)
    else if account.Some? && account.value >= |b.accounts| then Refused(UnknownRecord)
    else if till.Some? && till.value >= |b.tills| then Refused(UnknownRecord)
    else if !IsMoney(amount) then Refused(BadAmount)
    else
      var s := if account.Some? then AccountSide(account.value) else TillSide(till.value);
      var kind := if account.Some? then AccountOpening(account.value, direction)
                  else TillOpening(till.value, direction);
      var currency := if account.Some? then b.accounts[account.value].currency
                      else b.tills[till.value].currency;
      if AnyLiveOpening(b.papers, s) then Refused(SecondOpening)
      else if AnythingBefore(b.movements, s, date) then Refused(OpeningNotFirst)
      else Record(b, Paper(kind, Cents(amount), currency, date, 0, false))
  }

  // Invoices -----------------------------------------------------------------------

  /** A customer's account in a currency, opened on first ask. */
  function AccountForCustomer(b: Books, customer: Id, currency: Currency): Books {
    if FindAccount(b.accounts, Customer, customer, currency) < |b.accounts| then b
    else b.(accounts := b.accounts + [Account(Customer, customer, currency)])
  }

  /** Debit the customer with the invoice's total, unless that is zero or done already. */
  function PostInvoice(b: Books, i: Id, date: Option<Day>): Outcome {
    if i >= |b.invoices| then Refused(UnknownRecord)
    else
      var inv := b.invoices[i];
      if !Payable(inv.status) then Refused(NotPayable)
      else if inv.date.None? then Refused(DateRequired)
      else if KeyTaken(b.movements, InvoiceSource, InvoiceRef(i)) || inv.total == 0 then Ok(b)
      else
        var withAccount := AccountForCustomer(b, inv.customer, inv.currency);
        var a := FindAccount(b.accounts, Customer, inv.customer, inv.currency);
        Post(withAccount,
             Movement(OnAccount(a, Debit), NoCash, if date.Some? then date.value else inv.date.value,
                      inv.total, inv.currency, InvoiceSource, InvoiceRef(i), None))
  }

  function ReverseInvoice(b: Books, i: Id): Outcome {
    if Collected(b.papers, b.applications, i) > 0 then Refused(InvoiceHasCollections)
    else if !KeyTaken(b.movements, InvoiceSource, InvoiceRef(i)) then Ok(b)
    else ReverseDocument(b, InvoiceRef(i), b.today, InvoiceCancelSource)
  }

  function DraftInvoice(b: Books, customer: Id, currency: Currency, total: int): Books {
    b.(invoices := b.invoices + [Invoice(customer, currency, Draft, total, None, None, None)])
  }

  /** Only a draft takes a new total. */
  function Retotal(b: Books, i: Id, total: int): Outcome {
    if i >= |b.invoices| then Refused(UnknownRecord)
    else if b.invoices[i].status != Draft then Refused(TransitionNotAllowed)
    else Ok(b.(invoices := b.invoices[i := b.invoices[i].(total := total)]))
  }

  predicate NumberTaken(invoices: seq<Invoice>, i: Id, number: nat) {
    exists k :: 0 <= k < |invoices| && k != i && Payable(invoices[k].status) && invoices[k].number == Some(number)
  }

  function Issue(b: Books, i: Id, number: nat, date: Day, linesNeedPrice: bool): Outcome {
    if i >= |b.invoices| then Refused(UnknownRecord)
    else if b.invoices[i].status != Draft then Refused(TransitionNotAllowed)
    else if linesNeedPrice then Refused(LinesNeedPrice)
    else if NumberTaken(b.invoices, i, number) then Refused(DuplicateInvoiceNumber)
    else
      var issued := b.invoices[i].(status := Issued, number := Some(number), date := Some(date));
      var posted :- PostInvoice(b.(invoices := b.invoices[i := issued]), i, None);
      Ok(SyncIn(posted, {i}))
  }

  /** The firm's default till is its first. */
  const DEFAULT_TILL: Id := 0

  /** Collect from the customer whatever remains of the invoice. */
  function CollectInvoice(b: Books, i: Id, date: Day, till: Option<Id>): Outcome {
    if i >= |b.invoices| then Refused(UnknownRecord)
    else
      var inv := b.invoices[i];
      if till.None? && (|b.tills| == 0 || !b.tills[DEFAULT_TILL].active) then Refused(TillInactive)
      else if till.None? && b.tills[DEFAULT_TILL].currency != inv.currency then Refused(CurrencyMismatch)
      else
        var owed := OfCents(Remaining(b, i));
        RecordCollection(
          AccountForCustomer(b, inv.customer, inv.currency),
          FindAccount(b.accounts, Customer, inv.customer, inv.currency),
          if till.Some? then till.value else DEFAULT_TILL,
          owed, date, [Applied(i, owed)])
  }

  function MarkPaid(b: Books, i: Id, paidOn: Day, till: Option<Id>): Outcome {
    if i >= |b.invoices| then Refused(UnknownRecord)
    else if b.invoices[i].status != Issued || Remaining(b, i) <= 0 then Refused(TransitionNotAllowed)
    else CollectInvoice(b, i, paidOn, till)
  }

  function CancelInvoice(b: Books, i: Id): Outcome {
    if i >= |b.invoices| then Refused(UnknownRecord)
    else if b.invoices[i].status == Cancelled then Refused(TransitionNotAllowed)
    else
      var reversed :- (if b.invoices[i].status == Draft then Ok(b) else ReverseInvoice(b, i));
      Ok(reversed.(invoices := b.invoices[i := b.invoices[i].(status := Cancelled)]))
  }

  // The firm -----------------------------------------------------------------------

  function OpenAccount(b: Books, kind: AccountKind, party: Id, currency: Currency): Outcome {
    if FindAccount(b.accounts, kind, party, currency) < |b.accounts| then Refused(DuplicateAccount)
    else Ok(b.(accounts := b.accounts + [Account(kind, party, currency)]))
  }

  function SetClosedThrough(b: Books, day: Option<Day>): Outcome {
    if day.Some? && day.value > b.today then Refused(ClosedAfterToday)
    else Ok(b.(closedThrough := day))
  }

  // One step -----------------------------------------------------------------------

  datatype Call =
    | NextDay
    | CallOpenAccount(kind: AccountKind, party: Id, currency: Currency)
    | CallOpenTill(tillCurrency: Currency)
    | CallSetTillActive(till: Id, active: bool)
    | CallSetClosedThrough(day: Option<Day>)
    | CallDraftInvoice(customer: Id, invoiceCurrency: Currency, total: int)
    | CallRetotal(draft: Id, newTotal: int)
    | CallIssue(issued: Id, number: nat, invoiceDate: Day, linesNeedPrice: bool)
    | CallMarkPaid(paid: Id, paidOn: Day, paidInto: Option<Id>)
    | CallCancelInvoice(cancelledInvoice: Id)
    | CallRecordCollection(account: Id, intoTill: Id, amount: Decimal, date: Day, applies: seq<Applied>)
    | CallApplyCollection(collection: Id, applies: seq<Applied>)
    | CallCancelCollection(collection: Id)
    | CallRecordPaymentOut(account: Id, outOfTill: Id, amount: Decimal, date: Day)
    | CallRecordManualEntry(account: Id, direction: Direction, amount: Decimal, date: Day, reasonGiven: bool)
    | CallRecordTransfer(transferKind: TransferKind, amount: Decimal, date: Day,
                         fromAccount: Option<Id>, toAccount: Option<Id>, fromTill: Option<Id>, toTill: Option<Id>)
    | CallRecordOpening(direction: Direction, amount: Decimal, date: Day,
                        openedAccount: Option<Id>, openedTill: Option<Id>)
    | CallCancelPaper(paper: Id)

  function Perform(b: Books, call: Call): Outcome {
    match call
    case NextDay => Ok(b.(today := b.today + 1))
    case CallOpenAccount(kind, party, currency) => OpenAccount(b, kind, party, currency)
    case CallOpenTill(currency) => Ok(b.(tills := b.tills + [TillAccount(currency, true)]))
    case CallSetTillActive(till, active) =>
      if till >= |b.tills| then Refused(UnknownRecord)
      else Ok(b.(tills := b.tills[till := b.tills[till].(active := active)]))
    case CallSetClosedThrough(day) => SetClosedThrough(b, day)
    case CallDraftInvoice(customer, currency, total) => Ok(DraftInvoice(b, customer, currency, total))
    case CallRetotal(i, total) => Retotal(b, i, total)
    case CallIssue(i, number, date, unpriced) => Issue(b, i, number, date, unpriced)
    case CallMarkPaid(i, paidOn, till) => MarkPaid(b, i, paidOn, till)
    case CallCancelInvoice(i) => CancelInvoice(b, i)
    case CallRecordCollection(a, t, amount, date, applies) => RecordCollection(b, a, t, amount, date, applies)
    case CallApplyCollection(c, applies) => ApplyCollection(b, c, applies)
    case CallCancelCollection(c) => CancelCollection(b, c)
    case CallRecordPaymentOut(a, t, amount, date) => RecordPaymentOut(b, a, t, amount, date)
    case CallRecordManualEntry(a, d, amount, date, reason) => RecordManualEntry(b, a, d, amount, date, reason)
    case CallRecordTransfer(kind, amount, date, fa, ta, ft, tt) =>
      RecordTransfer(b, kind, amount, date, fa, ta, ft, tt)
    case CallRecordOpening(d, amount, date, a, t) => RecordOpening(b, d, amount, date, a, t)
    case CallCancelPaper(p) => CancelPaper(b, p)
  }

  /** The books after a call: the new ones if it committed, the same ones if it refused. */
  function After(b: Books, call: Call): Books {
    match Perform(b, call)
    case Ok(next) => next
    case Refused(_) => b
  }

  function Run(b: Books, calls: seq<Call>): Books
    decreases |calls|
  {
    if calls == [] then b else Run(After(b, calls[0]), calls[1..])
  }

  function NewFirm(today: Day): Books {
    Books(today, None, [], [TillAccount(TRY, true)], [], [], [], [], 0, 0)
  }
}
