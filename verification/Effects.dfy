/**
 * What each document means for each balance, and the invariant that its
 * movements add up to exactly that: a standing paper or a live invoice counts in
 * full, a cancelled one not at all.
 */
module Effects {
  import opened Results
  import opened Sums
  import opened Books
  import opened Posting
  import opened Services
  import opened Reversal

  /** What a standing paper adds to a side, in the office's terms. */
  function Effect(p: Paper, s: Side): int {
    match p.kind
    case Collection(a, t) =>
      if s == AccountSide(a) then -p.amount
      else if s == TillSide(t) || s == Pool(p.currency) then p.amount else 0
    case PaymentOut(a, t) =>
      if s == AccountSide(a) then p.amount
      else if s == TillSide(t) || s == Pool(p.currency) then -p.amount else 0
    case ManualEntry(a, d) =>
      if s == AccountSide(a) then (if d == Debit then p.amount else -p.amount) else 0
    case AccountTransfer(x, y) =>
      if x == y then 0
      else if s == AccountSide(x) then -p.amount
      else if s == AccountSide(y) then p.amount else 0
    case TillTransfer(x, y) =>
      if x == y then 0
      else if s == TillSide(x) then -p.amount
      else if s == TillSide(y) then p.amount else 0
    case AccountOpening(a, d) =>
      if s == AccountSide(a) then (if d == Debit then p.amount else -p.amount) else 0
    case TillOpening(t, d) =>
      if s == TillSide(t) || s == Pool(p.currency) then (if d == Debit then p.amount else -p.amount) else 0
  }

  function StandingEffect(p: Paper, s: Side): int {
    if p.cancelled then 0 else Effect(p, s)
  }

  /** A live invoice is owed on its customer's account in its currency. */
  function InvoiceEffect(accounts: seq<Account>, inv: Invoice, s: Side): int {
    if Payable(inv.status) && s.AccountSide? && s.account < |accounts|
       && IsAccountOf(accounts[s.account], Customer, inv.customer, inv.currency)
    then inv.total else 0
  }

  predicate RefKnown(b: Books, r: DocumentRef) {
    match r
    case InvoiceRef(i) => i < |b.invoices|
    case PaperRef(p) => p < |b.papers|
  }

  predicate SourceFits(b: Books, m: Movement)
    requires RefKnown(b, m.document)
  {
    m.reverses.None? ==>
      m.source == (match m.document
                   case InvoiceRef(_) => InvoiceSource
                   case PaperRef(p) => PaperSource(b.papers[p].kind))
  }

  ghost predicate MovementsKnown(b: Books) {
    forall j :: 0 <= j < |b.movements| ==>
      && RefKnown(b, b.movements[j].document)
      && SourceFits(b, b.movements[j])
      && SidesKnown(b, b.movements[j])
      && SameCurrency(b, b.movements[j])
  }

  ghost predicate PapersAddUp(b: Books) {
    forall p: nat, s: Side :: p < |b.papers| ==>
      Net(b.movements, PaperRef(p), s) == StandingEffect(b.papers[p], s)
  }

  ghost predicate InvoicesAddUp(b: Books) {
    forall i: nat, s: Side :: i < |b.invoices| ==>
      Net(b.movements, InvoiceRef(i), s) == InvoiceEffect(b.accounts, b.invoices[i], s)
  }

  /** A live invoice owing anything has posted, to an account that exists; a draft has not. */
  predicate PostedAsLive(b: Books, i: nat)
    requires i < |b.invoices|
  {
    var inv := b.invoices[i];
    && (Payable(inv.status) && inv.total != 0 ==>
          && KeyTaken(b.movements, InvoiceSource, InvoiceRef(i))
          && FindAccount(b.accounts, Customer, inv.customer, inv.currency) < |b.accounts|)
    && (inv.status == Draft ==>
          forall k :: 0 <= k < |b.movements| ==> b.movements[k].document != InvoiceRef(i))
  }

  ghost predicate AccountsDistinct(accounts: seq<Account>) {
    forall x, y :: 0 <= x < y < |accounts| ==> accounts[x] != accounts[y]
  }

  ghost predicate MovesInv(b: Books) {
    && WellMirrored(b.movements)
    && MovementsKnown(b)
    && AccountsDistinct(b.accounts)
    && PapersAddUp(b)
    && InvoicesAddUp(b)
    && (forall i: nat :: i < |b.invoices| ==> PostedAsLive(b, i))
  }

  // Frame --------------------------------------------------------------------------

  /** The parts of an invoice the movements depend on. */
  predicate SameBilling(x: Invoice, y: Invoice) {
    && Payable(x.status) == Payable(y.status)
    && (x.status == Draft) == (y.status == Draft)
    && x.customer == y.customer
    && x.currency == y.currency
    && x.total == y.total
  }

  lemma MovesFrame(b: Books, c: Books)
    requires MovesInv(b)
    requires c.movements == b.movements && c.papers == b.papers
    requires c.accounts == b.accounts
    requires |c.tills| >= |b.tills|
    requires forall t :: 0 <= t < |b.tills| ==> c.tills[t].currency == b.tills[t].currency
    requires |c.invoices| == |b.invoices|
    requires forall i :: 0 <= i < |b.invoices| ==> SameBilling(b.invoices[i], c.invoices[i])
    ensures MovesInv(c)
  {
    forall i: nat, s: Side | i < |c.invoices|
      ensures Net(c.movements, InvoiceRef(i), s) == InvoiceEffect(c.accounts, c.invoices[i], s)
    {
      assert SameBilling(b.invoices[i], c.invoices[i]);
    }
    forall i: nat | i < |c.invoices|
      ensures PostedAsLive(c, i)
    {
      assert SameBilling(b.invoices[i], c.invoices[i]) && PostedAsLive(b, i);
    }
  }

  lemma SyncFrame(b: Books, which: set<Id>)
    requires MovesInv(b)
    ensures MovesInv(SyncIn(b, which))
  {
    MovesFrame(b, SyncIn(b, which));
  }

  /** A document nothing refers to adds nothing. */
  lemma UnusedAddsNothing(ms: seq<Movement>, r: DocumentRef, s: Side)
    requires forall j :: 0 <= j < |ms| ==> ms[j].document != r
    ensures Net(ms, r, s) == 0
  {
    SumZero(|ms|, SignedOf(ms, r, s));
  }

  // Posting a paper ------------------------------------------------------------------

  function LegsNet(p: Paper, r: DocumentRef, legs: seq<(PartyLeg, CashLeg)>, s: Side): int
    decreases |legs|
  {
    if legs == [] then 0
    else SignedOn(LegMovement(p, r, legs[0]), s) + LegsNet(p, r, legs[1..], s)
  }

  /** Posting the legs of a paper moves each side by what the paper means. */
  lemma LegsMeanEffect(p: Paper, r: DocumentRef, s: Side)
    ensures LegsNet(p, r, Legs(p.kind), s) == Effect(p, s)
  {
    var legs := Legs(p.kind);
    var first := SignedOn(LegMovement(p, r, legs[0]), s);
    if |legs| == 1 {
      assert legs[1..] == [];
      assert LegsNet(p, r, legs, s) == first;
    } else {
      assert legs[1..] == [legs[1]] && legs[1..][1..] == [];
      assert LegsNet(p, r, legs[1..], s) == SignedOn(LegMovement(p, r, legs[1]), s);
    }
  }

  lemma AppendOriginalWell(ms: seq<Movement>, m: Movement)
    requires WellMirrored(ms) && m.reverses.None? && m.amount > 0
    ensures WellMirrored(ms + [m])
  {
    var ns := ms + [m];
    forall j | 0 <= j < |ns| && ns[j].reverses.Some?
      ensures ns[j].reverses.value < j && IsMirrorOf(ns[j], ns[j].reverses.value, ns[ns[j].reverses.value])
    {
      assert ns[j] == ms[j];
    }
    forall i, j | 0 <= i < j < |ns| && ns[i].reverses.Some?
      ensures ns[i].reverses != ns[j].reverses
    {
      assert ns[i] == ms[i];
      if j < |ms| {
        assert ns[j] == ms[j];
      }
    }
  }

  lemma {:induction false} PostLegsEffect(b: Books, p: Paper, r: DocumentRef, legs: seq<(PartyLeg, CashLeg)>)
    requires WellMirrored(b.movements) && MovementsKnown(b)
    requires r.PaperRef? && r.paper < |b.papers| && b.papers[r.paper].kind == p.kind
    requires PostLegs(b, p, r, legs).Ok?
    ensures var c := PostLegs(b, p, r, legs).value;
            && OnlyAppendsMovements(b, c)
            && WellMirrored(c.movements)
            && MovementsKnown(c)
            && (forall s: Side, other: DocumentRef :: Net(c.movements, other, s) ==
                  Net(b.movements, other, s) + (if other == r then LegsNet(p, r, legs, s) else 0))
            && (forall j :: |b.movements| <= j < |c.movements| ==> c.movements[j].document == r)
    decreases |legs|
  {
    if legs != [] {
      var m := LegMovement(p, r, legs[0]);
      var next := Post(b, m).value;
      AppendOriginalWell(b.movements, m);
      PostLegsEffect(next, p, r, legs[1..]);
      forall s: Side, other: DocumentRef
        ensures Net(next.movements, other, s) == Net(b.movements, other, s) + (if other == r then SignedOn(m, s) else 0)
      {
        NetAppend(b.movements, m, other, s);
      }
    }
  }

  lemma KeyKept(ms: seq<Movement>, ns: seq<Movement>, source: Source, r: DocumentRef)
    requires ms <= ns && KeyTaken(ms, source, r)
    ensures KeyTaken(ns, source, r)
  {
    var k :| 0 <= k < |ms| && ms[k].source == source && ms[k].document == r;
    assert ns[k] == ms[k];
  }

  /** Movements of papers appended leave every invoice posted as before. */
  lemma PostedKept(b: Books, c: Books)
    requires forall i: nat :: i < |b.invoices| ==> PostedAsLive(b, i)
    requires c.accounts == b.accounts && c.invoices == b.invoices && b.movements <= c.movements
    requires forall j :: |b.movements| <= j < |c.movements| ==> c.movements[j].document.PaperRef?
    ensures forall i: nat :: i < |c.invoices| ==> PostedAsLive(c, i)
  {
    forall i: nat | i < |c.invoices|
      ensures PostedAsLive(c, i)
    {
      assert PostedAsLive(b, i);
      if KeyTaken(b.movements, InvoiceSource, InvoiceRef(i)) {
        KeyKept(b.movements, c.movements, InvoiceSource, InvoiceRef(i));
      }
      assert forall k :: 0 <= k < |b.movements| ==> c.movements[k] == b.movements[k];
    }
  }

  /** A new paper, posted: its own effect appears and no other document's changes. */
  lemma PaperPosted(b: Books, p: Paper)
    requires MovesInv(b) && !p.cancelled
    requires Record(b, p).Ok?
    ensures MovesInv(Record(b, p).value)
    ensures OnlyAppendsMovements(b.(papers := b.papers + [p]), Record(b, p).value)
  {
    var created := b.(papers := b.papers + [p]);
    var r := PaperRef(|b.papers|);
    PostLegsEffect(created, p, r, Legs(p.kind));
    var c := Record(b, p).value;
    forall q: nat, s: Side | q < |c.papers|
      ensures Net(c.movements, PaperRef(q), s) == StandingEffect(c.papers[q], s)
    {
      if q == |b.papers| {
        UnusedAddsNothing(b.movements, r, s);
        LegsMeanEffect(p, r, s);
      } else {
        assert Net(b.movements, PaperRef(q), s) == StandingEffect(b.papers[q], s);
      }
    }
    PostedKept(b, c);
  }

  // Cancelling a paper -----------------------------------------------------------------

  lemma MirrorsKnown(b: Books, r: DocumentRef, date: Day, source: Source)
    requires WellMirrored(b.movements) && MovementsKnown(b)
    requires ReverseDocument(b, r, date, source).Ok?
    ensures MovementsKnown(ReverseDocument(b, r, date, source).value)
    ensures forall j :: |b.movements| <= j < |ReverseDocument(b, r, date, source).value.movements| ==>
              ReverseDocument(b, r, date, source).value.movements[j].document == r
  {
    var ms := b.movements;
    var made := Mirrors(ms, r, |ms|, date, source);
    var c := ReverseDocument(b, r, date, source).value;
    MirrorsShape(ms, r, |ms|, date, source);
    forall j | |ms| <= j < |c.movements|
      ensures c.movements[j].document == r && RefKnown(c, r)
      ensures SourceFits(c, c.movements[j])
      ensures SidesKnown(c, c.movements[j]) && SameCurrency(c, c.movements[j])
    {
      assert c.movements[j] == made[j - |ms|];
      assert made[j - |ms|] in made;
      var k := made[j - |ms|].reverses.value;
      assert SidesKnown(b, ms[k]) && SameCurrency(b, ms[k]);
    }
  }

  /** A cancelled paper: its effect vanishes and no other document's changes. */
  lemma PaperCancelled(b: Books, p: Id)
    requires MovesInv(b) && p < |b.papers|
    requires StampCancelled(b, p).Ok?
    ensures MovesInv(StampCancelled(b, p).value)
  {
    var r := PaperRef(p);
    ReversalIsInverse(b, r, b.today, ReversalSource);
    MirrorsKnown(b, r, b.today, ReversalSource);
    var reversed := ReverseDocument(b, r, b.today, ReversalSource).value;
    var c := StampCancelled(b, p).value;
    forall q: nat, s: Side | q < |c.papers|
      ensures Net(c.movements, PaperRef(q), s) == StandingEffect(c.papers[q], s)
    {
      if q != p {
        assert Net(c.movements, PaperRef(q), s) == Net(b.movements, PaperRef(q), s);
      }
    }
    forall i: nat, s: Side | i < |c.invoices|
      ensures Net(c.movements, InvoiceRef(i), s) == InvoiceEffect(c.accounts, c.invoices[i], s)
    {
      assert Net(c.movements, InvoiceRef(i), s) == Net(b.movements, InvoiceRef(i), s);
    }
    PostedKept(b, c);
  }

  // Accounts -----------------------------------------------------------------------

  lemma FoundIsUnique(accounts: seq<Account>, kind: AccountKind, party: Id, currency: Currency, a: nat)
    requires AccountsDistinct(accounts)
    requires a < |accounts| && IsAccountOf(accounts[a], kind, party, currency)
    ensures FindAccount(accounts, kind, party, currency) == a
  {
    var f := FindAccount(accounts, kind, party, currency);
    assert f <= a;
    assert accounts[f] == accounts[a];
  }

  lemma AccountAdded(b: Books, kind: AccountKind, party: Id, currency: Currency)
    requires MovesInv(b)
    requires FindAccount(b.accounts, kind, party, currency) == |b.accounts|
    ensures MovesInv(b.(accounts := b.accounts + [Account(kind, party, currency)]))
  {
    var c := b.(accounts := b.accounts + [Account(kind, party, currency)]);
    forall i: nat, s: Side | i < |c.invoices|
      ensures Net(c.movements, InvoiceRef(i), s) == InvoiceEffect(c.accounts, c.invoices[i], s)
    {
      assert PostedAsLive(b, i);
      assert Net(b.movements, InvoiceRef(i), s) == InvoiceEffect(b.accounts, b.invoices[i], s);
    }
    forall i: nat | i < |c.invoices|
      ensures PostedAsLive(c, i)
    {
      assert PostedAsLive(b, i);
      StillFound(b.accounts, Account(kind, party, currency), c.invoices[i].customer, c.invoices[i].currency);
    }
  }

  /** An account found is found still when another is opened. */
  lemma StillFound(accounts: seq<Account>, another: Account, customer: Id, currency: Currency)
    ensures FindAccount(accounts, Customer, customer, currency) < |accounts| ==>
              FindAccount(accounts + [another], Customer, customer, currency) ==
              FindAccount(accounts, Customer, customer, currency)
  {
    assert (accounts + [another])[..|accounts|] == accounts;
  }

  lemma AccountOnAsk(b: Books, customer: Id, currency: Currency)
    requires MovesInv(b)
    ensures var c := AccountForCustomer(b, customer, currency);
            var a := FindAccount(b.accounts, Customer, customer, currency);
            && MovesInv(c)
            && a < |c.accounts|
            && IsAccountOf(c.accounts[a], Customer, customer, currency)
            && FindAccount(c.accounts, Customer, customer, currency) == a
            && c == b.(accounts := c.accounts)
            && b.accounts <= c.accounts
  {
    var a := FindAccount(b.accounts, Customer, customer, currency);
    if a == |b.accounts| {
      AccountAdded(b, Customer, customer, currency);
    }
    var c := AccountForCustomer(b, customer, currency);
    FoundIsUnique(c.accounts, Customer, customer, currency, a);
  }

  // Invoices -----------------------------------------------------------------------

  lemma InvoiceAdded(b: Books, customer: Id, currency: Currency, total: int)
    requires MovesInv(b)
    ensures MovesInv(DraftInvoice(b, customer, currency, total))
  {
    var c := DraftInvoice(b, customer, currency, total);
    forall i: nat, s: Side | i < |c.invoices|
      ensures Net(c.movements, InvoiceRef(i), s) == InvoiceEffect(c.accounts, c.invoices[i], s)
    {
      if i == |b.invoices| {
        UnusedAddsNothing(b.movements, InvoiceRef(i), s);
      }
    }
    forall i: nat | i < |c.invoices|
      ensures PostedAsLive(c, i)
    {
      if i < |b.invoices| {
        assert PostedAsLive(b, i);
      }
    }
  }

  lemma InvoiceRetotalled(b: Books, i: Id, total: int)
    requires MovesInv(b)
    requires Retotal(b, i, total).Ok?
    ensures MovesInv(Retotal(b, i, total).value)
  {
    var c := Retotal(b, i, total).value;
    forall j: nat, s: Side | j < |c.invoices|
      ensures Net(c.movements, InvoiceRef(j), s) == InvoiceEffect(c.accounts, c.invoices[j], s)
    {
      assert Net(b.movements, InvoiceRef(j), s) == InvoiceEffect(b.accounts, b.invoices[j], s);
    }
    forall j: nat | j < |c.invoices|
      ensures PostedAsLive(c, j)
    {
      assert PostedAsLive(b, j);
    }
  }

  /** Marking a draft issued and posting it makes its total owed. */
  lemma InvoiceIssued(b: Books, i: Id, issued: Invoice, date: Option<Day>)
    requires MovesInv(b)
    requires i < |b.invoices| && b.invoices[i].status == Draft
    requires issued.status == Issued && issued.date.Some?
    requires issued.customer == b.invoices[i].customer && issued.currency == b.invoices[i].currency
    requires PostInvoice(b.(invoices := b.invoices[i := issued]), i, date).Ok?
    ensures MovesInv(PostInvoice(b.(invoices := b.invoices[i := issued]), i, date).value)
  {
    var marked := b.(invoices := b.invoices[i := issued]);
    var c := PostInvoice(marked, i, date).value;
    assert PostedAsLive(b, i);
    if issued.total == 0 {
      forall j: nat, s: Side | j < |c.invoices|
        ensures Net(c.movements, InvoiceRef(j), s) == InvoiceEffect(c.accounts, c.invoices[j], s)
      {
        assert Net(b.movements, InvoiceRef(j), s) == InvoiceEffect(b.accounts, b.invoices[j], s);
      }
      forall j: nat | j < |c.invoices|
        ensures PostedAsLive(c, j)
      {
        assert PostedAsLive(b, j);
      }
    } else {
      IssuedAndPosted(b, i, issued, date, c);
    }
  }

  lemma IssuedAndPosted(b: Books, i: Id, issued: Invoice, date: Option<Day>, c: Books)
    requires MovesInv(b)
    requires i < |b.invoices| && b.invoices[i].status == Draft
    requires issued.status == Issued && issued.date.Some? && issued.total != 0
    requires issued.customer == b.invoices[i].customer && issued.currency == b.invoices[i].currency
    requires PostInvoice(b.(invoices := b.invoices[i := issued]), i, date) == Ok(c)
    ensures MovesInv(c)
  {
    AccountOnAsk(b, issued.customer, issued.currency);
    var w := AccountForCustomer(b, issued.customer, issued.currency);
    var a := FindAccount(b.accounts, Customer, issued.customer, issued.currency);
    assert PostedAsLive(b, i);
    var m := Movement(OnAccount(a, Debit), NoCash, if date.Some? then date.value else issued.date.value, issued.total,
                      issued.currency, InvoiceSource, InvoiceRef(i), None);
    assert c == w.(invoices := b.invoices[i := issued], movements := b.movements + [m]);
    DebitAdded(w, i, issued, a, m);
  }

  /** An invoice's debit on its customer's account, added as the invoice goes live. */
  lemma DebitAdded(w: Books, i: Id, issued: Invoice, a: Id, m: Movement)
    requires MovesInv(w)
    requires i < |w.invoices| && w.invoices[i].status == Draft
    requires Payable(issued.status)
    requires issued.customer == w.invoices[i].customer && issued.currency == w.invoices[i].currency
    requires a < |w.accounts| && IsAccountOf(w.accounts[a], Customer, issued.customer, issued.currency)
    requires m == Movement(OnAccount(a, Debit), NoCash, m.date, issued.total, issued.currency,
                           InvoiceSource, InvoiceRef(i), None) && m.amount > 0
    ensures MovesInv(w.(invoices := w.invoices[i := issued], movements := w.movements + [m]))
  {
    var c := w.(invoices := w.invoices[i := issued], movements := w.movements + [m]);
    AppendOriginalWell(w.movements, m);
    forall p: nat, s: Side | p < |c.papers|
      ensures Net(c.movements, PaperRef(p), s) == StandingEffect(c.papers[p], s)
    {
      NetAppend(w.movements, m, PaperRef(p), s);
      assert Net(w.movements, PaperRef(p), s) == StandingEffect(w.papers[p], s);
    }
    forall j: nat, s: Side | j < |c.invoices|
      ensures Net(c.movements, InvoiceRef(j), s) == InvoiceEffect(c.accounts, c.invoices[j], s)
    {
      NetAppend(w.movements, m, InvoiceRef(j), s);
      assert Net(w.movements, InvoiceRef(j), s) == InvoiceEffect(w.accounts, w.invoices[j], s);
      if j == i && s.AccountSide? && s.account < |w.accounts| && s.account != a {
        assert w.accounts[s.account] != w.accounts[a];
      }
    }
    DebitKeepsPosted(w, i, issued, a, m);
  }

  lemma DebitKeepsPosted(w: Books, i: Id, issued: Invoice, a: Id, m: Movement)
    requires forall j: nat :: j < |w.invoices| ==> PostedAsLive(w, j)
    requires AccountsDistinct(w.accounts) && i < |w.invoices| && Payable(issued.status)
    requires a < |w.accounts| && IsAccountOf(w.accounts[a], Customer, issued.customer, issued.currency)
    requires m.document == InvoiceRef(i) && m.source == InvoiceSource
    ensures var c := w.(invoices := w.invoices[i := issued], movements := w.movements + [m]);
            forall j: nat :: j < |c.invoices| ==> PostedAsLive(c, j)
  {
    var c := w.(invoices := w.invoices[i := issued], movements := w.movements + [m]);
    forall j: nat | j < |c.invoices|
      ensures PostedAsLive(c, j)
    {
      assert PostedAsLive(w, j);
      if j == i {
        assert c.movements[|w.movements|] == m;
        FoundIsUnique(w.accounts, Customer, issued.customer, issued.currency, a);
      } else if KeyTaken(w.movements, InvoiceSource, InvoiceRef(j)) {
        KeyKept(w.movements, c.movements, InvoiceSource, InvoiceRef(j));
      }
    }
  }

  /** The books with invoice i cancelled, whatever its movements became. */
  function MarkCancelled(b: Books, i: Id, movements: seq<Movement>): Books
    requires i < |b.invoices|
  {
    b.(movements := movements, invoices := b.invoices[i := b.invoices[i].(status := Cancelled)])
  }

  lemma CancelledUnposted(b: Books, i: Id)
    requires MovesInv(b) && i < |b.invoices|
    requires b.invoices[i].status == Draft || !Payable(b.invoices[i].status) || b.invoices[i].total == 0
    ensures MovesInv(MarkCancelled(b, i, b.movements))
  {
    var c := MarkCancelled(b, i, b.movements);
    forall j: nat, s: Side | j < |c.invoices|
      ensures Net(c.movements, InvoiceRef(j), s) == InvoiceEffect(c.accounts, c.invoices[j], s)
    {
      assert Net(b.movements, InvoiceRef(j), s) == InvoiceEffect(b.accounts, b.invoices[j], s);
    }
    forall j: nat | j < |c.invoices|
      ensures PostedAsLive(c, j)
    {
      assert PostedAsLive(b, j);
    }
  }

  lemma CancelledPosted(b: Books, i: Id, reversed: Books)
    requires MovesInv(b) && i < |b.invoices|
    requires ReverseDocument(b, InvoiceRef(i), b.today, InvoiceCancelSource) == Ok(reversed)
    ensures MovesInv(MarkCancelled(b, i, reversed.movements))
  {
    var r := InvoiceRef(i);
    var c := MarkCancelled(b, i, reversed.movements);
    ReversalIsInverse(b, r, b.today, InvoiceCancelSource);
    MirrorsKnown(b, r, b.today, InvoiceCancelSource);
    forall j: nat, s: Side | j < |c.invoices|
      ensures Net(c.movements, InvoiceRef(j), s) == InvoiceEffect(c.accounts, c.invoices[j], s)
    {
      if j != i {
        assert Net(c.movements, InvoiceRef(j), s) == Net(b.movements, InvoiceRef(j), s);
      }
    }
    forall p: nat, s: Side | p < |c.papers|
      ensures Net(c.movements, PaperRef(p), s) == StandingEffect(c.papers[p], s)
    {
      assert Net(c.movements, PaperRef(p), s) == Net(b.movements, PaperRef(p), s);
    }
    CancelledStillPosted(b, c, i);
  }

  lemma CancelledStillPosted(b: Books, c: Books, i: Id)
    requires forall j: nat :: j < |b.invoices| ==> PostedAsLive(b, j)
    requires i < |b.invoices| && b.movements <= c.movements && c.accounts == b.accounts
    requires c.invoices == b.invoices[i := b.invoices[i].(status := Cancelled)]
    requires forall j :: |b.movements| <= j < |c.movements| ==> c.movements[j].document == InvoiceRef(i)
    ensures forall j: nat :: j < |c.invoices| ==> PostedAsLive(c, j)
  {
    forall j: nat | j < |c.invoices|
      ensures PostedAsLive(c, j)
    {
      assert PostedAsLive(b, j);
      if KeyTaken(b.movements, InvoiceSource, InvoiceRef(j)) {
        KeyKept(b.movements, c.movements, InvoiceSource, InvoiceRef(j));
      }
      if j != i {
        assert forall k :: 0 <= k < |b.movements| ==> c.movements[k] == b.movements[k];
      }
    }
  }

  /** A cancelled invoice owes nothing more, and nothing else moves. */
  lemma InvoiceCancelled(b: Books, i: Id)
    requires MovesInv(b)
    requires CancelInvoice(b, i).Ok?
    ensures MovesInv(CancelInvoice(b, i).value)
  {
    assert PostedAsLive(b, i);
    if Payable(b.invoices[i].status) && KeyTaken(b.movements, InvoiceSource, InvoiceRef(i)) {
      CancelledPosted(b, i, ReverseDocument(b, InvoiceRef(i), b.today, InvoiceCancelSource).value);
    } else {
      CancelledUnposted(b, i);
    }
  }
}
