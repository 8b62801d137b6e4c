/**
 * The firm's books: every row the ledger services read or write, as one value.
 *
 * Money inside the books is a whole number of cents. A row's primary key is its
 * index, so rows are numbered in the order they were created.
 */
module Books {
  import opened Results
  import opened Sums

  type Id = nat
  type Day = int

  datatype Currency = TRY | Foreign(code: nat)

  /** An amount as a caller sends it: NaN and the infinities are not numbers. */
  datatype Decimal = NotFinite | Finite(value: real)

  datatype AccountKind = Customer | Supplier | Staff
  datatype Account = Account(kind: AccountKind, party: Id, currency: Currency)
  datatype TillAccount = TillAccount(currency: Currency, active: bool)

  /** A debit raises what the party owes, a credit lowers it. */
  datatype Direction = Debit | Credit
  datatype Flow = In | Out

  /** A movement has a direction exactly when it has the side to apply it to. */
  datatype PartyLeg = NoParty | OnAccount(account: Id, direction: Direction)
  datatype CashLeg = NoCash | OnTill(till: Id, flow: Flow)

  datatype Source =
    | InvoiceSource
    | InvoiceCancelSource
    | CollectionSource
    | PaymentOutSource
    | ManualSource
    | TransferSource
    | OpeningSource
    | ReversalSource

  /** The document a movement belongs to: an invoice draft, or a ledger paper. */
  datatype DocumentRef = InvoiceRef(invoice: Id) | PaperRef(paper: Id)

  datatype Movement = Movement(
    party: PartyLeg,
    cash: CashLeg,
    date: Day,
    amount: int,
    currency: Currency,
    source: Source,
    document: DocumentRef,
    reverses: Option<Id>)

  /** One account or till, or all the firm's tills of one currency together. */
  datatype Side = AccountSide(account: Id) | TillSide(till: Id) | Pool(currency: Currency)

  /** What a ledger document is, with the sides it names. */
  datatype PaperKind =
    | Collection(account: Id, till: Id)
    | PaymentOut(account: Id, till: Id)
    | ManualEntry(account: Id, direction: Direction)
    | AccountTransfer(fromAccount: Id, toAccount: Id)
    | TillTransfer(fromTill: Id, toTill: Id)
    | AccountOpening(account: Id, direction: Direction)
    | TillOpening(till: Id, direction: Direction)

  datatype Paper = Paper(
    kind: PaperKind, amount: int, currency: Currency, date: Day, number: nat, cancelled: bool)

  /** One invoice paid out of one collection, and how much of it. */
  datatype Application = Application(collection: Id, invoice: Id, amount: int)

  datatype InvoiceStatus = Draft | Issued | Paid | Cancelled

  datatype Invoice = Invoice(
    customer: Id,
    currency: Currency,
    status: InvoiceStatus,
    total: int,
    number: Option<nat>,
    date: Option<Day>,
    paidOn: Option<Day>)

  datatype Books = Books(
    today: Day,
    closedThrough: Option<Day>,
    accounts: seq<Account>,
    tills: seq<TillAccount>,
    movements: seq<Movement>,
    papers: seq<Paper>,
    applications: seq<Application>,
    invoices: seq<Invoice>,
    lastCollection: nat,
    lastPayment: nat)

  datatype Error =
    | InvalidSource
    | NoSide
    | UnknownRecord
    | BadAmount
    | CurrencyMismatch
    | AfterToday
    | PeriodClosed
    | BeforeOpening
    | PostedTwice
    | AlreadyReversed
    | OverApplied
    | NotPayable
    | OverpaymentOnInvoice
    | AlreadyApplied
    | NothingApplied
    | ReasonRequired
    | TransferKindMismatch
    | SameSide
    | OneSideOnly
    | SecondOpening
    | OpeningNotFirst
    | TransitionNotAllowed
    | LinesNeedPrice
    | DuplicateInvoiceNumber
    | DateRequired
    | InvoiceHasCollections
    | TillInactive
    | DuplicateAccount
    | ClosedAfterToday

  // Amounts ----------------------------------------------------------------------

  /** Money is finite, positive and whole in cents. */
  predicate IsMoney(amount: Decimal) {
    match amount
    case NotFinite => false
    case Finite(v) => v > 0.0 && (v * 100.0).Floor as real == v * 100.0
  }

  function Cents(amount: Decimal): (c: int)
    requires IsMoney(amount)
    ensures c > 0
    ensures c as real == amount.value * 100.0
  {
    (amount.value * 100.0).Floor
  }

  /** The amount, as a caller would send it, of a whole number of cents. */
  function OfCents(c: int): (d: Decimal)
    ensures c > 0 ==> IsMoney(d) && Cents(d) == c
    ensures c <= 0 ==> !IsMoney(d)
  {
    var d := Finite(c as real / 100.0);
    assert d.value * 100.0 == c as real;
    d
  }

  /** Money is a whole number of cents, at least one. */
  lemma MoneyIsCents(amount: Decimal)
    ensures IsMoney(amount) <==> exists c: nat :: c > 0 && amount == OfCents(c)
  {
    if IsMoney(amount) {
      assert amount.value == Cents(amount) as real / 100.0;
      assert amount == OfCents(Cents(amount));
    }
  }

  // Movements --------------------------------------------------------------------

  function Opposite(d: Direction): Direction {
    if d == Debit then Credit else Debit
  }

  function FlipParty(leg: PartyLeg): PartyLeg {
    if leg.OnAccount? then OnAccount(leg.account, Opposite(leg.direction)) else NoParty
  }

  function FlipCash(leg: CashLeg): CashLeg {
    if leg.OnTill? then OnTill(leg.till, if leg.flow == In then Out else In) else NoCash
  }

  /** What one movement adds to a side: debits and cash in count up, the rest down. */
  function SignedOn(m: Movement, s: Side): int {
    match s
    case AccountSide(a) =>
      if m.party.OnAccount? && m.party.account == a
      then (if m.party.direction == Debit then m.amount else -m.amount) else 0
    case TillSide(t) =>
      if m.cash.OnTill? && m.cash.till == t
      then (if m.cash.flow == In then m.amount else -m.amount) else 0
    case Pool(c) =>
      if m.cash.OnTill? && m.currency == c
      then (if m.cash.flow == In then m.amount else -m.amount) else 0
  }

  predicate Touches(m: Movement, s: Side) {
    match s
    case AccountSide(a) => m.party.OnAccount? && m.party.account == a
    case TillSide(t) => m.cash.OnTill? && m.cash.till == t
    case Pool(c) => m.cash.OnTill? && m.currency == c
  }

  function Signed(ms: seq<Movement>, s: Side): nat -> int {
    (i: nat) => if i < |ms| then SignedOn(ms[i], s) else 0
  }

  /** The balance of a side: the signed sum of every movement, never stored. */
  function Balance(ms: seq<Movement>, s: Side): int {
    SumTo(|ms|, Signed(ms, s))
  }

  function SignedOf(ms: seq<Movement>, r: DocumentRef, s: Side): nat -> int {
    (i: nat) => if i < |ms| && ms[i].document == r then SignedOn(ms[i], s) else 0
  }

  /** What one document's movements, its mirrors among them, add to a side. */
  function Net(ms: seq<Movement>, r: DocumentRef, s: Side): int {
    SumTo(|ms|, SignedOf(ms, r, s))
  }

  predicate Reversed(ms: seq<Movement>, k: nat) {
    exists j :: 0 <= j < |ms| && ms[j].reverses == Some(k)
  }

  /** An original of this document that nothing has reversed yet. */
  predicate Standing(ms: seq<Movement>, r: DocumentRef, k: nat) {
    k < |ms| && ms[k].document == r && ms[k].reverses.None? && !Reversed(ms, k)
  }

  // Invoices and collections ---------------------------------------------------------

  predicate Payable(status: InvoiceStatus) {
    status == Issued || status == Paid
  }

  /** This application's collection still stands. */
  predicate Counts(papers: seq<Paper>, app: Application) {
    app.collection < |papers| && !papers[app.collection].cancelled
  }

  function PaidBy(papers: seq<Paper>, apps: seq<Application>, i: Id): nat -> int {
    (k: nat) => if k < |apps| && apps[k].invoice == i && Counts(papers, apps[k])
                then apps[k].amount else 0
  }

  /** The sum of an invoice's applications, cancelled collections left out. */
  function Collected(papers: seq<Paper>, apps: seq<Application>, i: Id): int {
    SumTo(|apps|, PaidBy(papers, apps, i))
  }

  function TakenFrom(apps: seq<Application>, c: Id): nat -> int {
    (k: nat) => if k < |apps| && apps[k].collection == c then apps[k].amount else 0
  }

  /** What a collection's applications add up to. */
  function Allocated(apps: seq<Application>, c: Id): int {
    SumTo(|apps|, TakenFrom(apps, c))
  }

  function Remaining(b: Books, i: Id): int
    requires i < |b.invoices|
  {
    b.invoices[i].total - Collected(b.papers, b.applications, i)
  }

  /** The latest date among the standing collections that pay an invoice. */
  function LatestPayment(papers: seq<Paper>, apps: seq<Application>, i: Id): Option<Day> {
    if apps == [] then None
    else
      var earlier := LatestPayment(papers, apps[..|apps| - 1], i);
      var last := apps[|apps| - 1];
      if last.invoice != i || !Counts(papers, last) then earlier
      else if earlier.Some? && earlier.value >= papers[last.collection].date then earlier
      else Some(papers[last.collection].date)
  }

  predicate Pays(apps: seq<Application>, c: Id, i: Id) {
    exists k :: 0 <= k < |apps| && apps[k].collection == c && apps[k].invoice == i
  }

  // Accounts -------------------------------------------------------------------------

  predicate IsAccountOf(a: Account, kind: AccountKind, party: Id, currency: Currency) {
    a.kind == kind && a.party == party && a.currency == currency
  }

  /** The party's account in this currency: its index, or the next free one. */
  function FindAccount(accounts: seq<Account>, kind: AccountKind, party: Id, currency: Currency): (a: nat)
    ensures a <= |accounts|
    ensures a < |accounts| ==> IsAccountOf(accounts[a], kind, party, currency)
    ensures forall x :: 0 <= x < a ==> !IsAccountOf(accounts[x], kind, party, currency)
  {
    if accounts == [] then 0
    else
      var before := FindAccount(accounts[..|accounts| - 1], kind, party, currency);
      if before < |accounts| - 1 then before
      else if IsAccountOf(accounts[|accounts| - 1], kind, party, currency) then |accounts| - 1
      else |accounts|
  }
}
