/** Posting: the only way a movement comes to be (apps/ledger/posting.py). */
module Posting {
  import opened Results
  import opened Books

  type Outcome = Result<Books, Error>

  /** Why a movement cannot be dated on this day, if it cannot. */
  function CheckDate(b: Books, day: Day): Option<Error> {
    if day > b.today then Some(AfterToday)
    else if b.closedThrough.Some? && day <= b.closedThrough.value then Some(PeriodClosed)
    else None
  }

  /** This paper is an opening balance on the side, not cancelled. */
  predicate LiveOpening(p: Paper, s: Side) {
    && !p.cancelled
    && ((p.kind.AccountOpening? && s == AccountSide(p.kind.account))
        || (p.kind.TillOpening? && s == TillSide(p.kind.till)))
  }

  predicate LaterOpening(papers: seq<Paper>, s: Side, day: Day) {
    exists p :: 0 <= p < |papers| && LiveOpening(papers[p], s) && papers[p].date > day
  }

  predicate BeforeAnOpening(papers: seq<Paper>, m: Movement) {
    || (m.party.OnAccount? && LaterOpening(papers, AccountSide(m.party.account), m.date))
    || (m.cash.OnTill? && LaterOpening(papers, TillSide(m.cash.till), m.date))
  }

  predicate SidesKnown(b: Books, m: Movement) {
    && (m.party.OnAccount? ==> m.party.account < |b.accounts|)
    && (m.cash.OnTill? ==> m.cash.till < |b.tills|)
  }

  predicate SameCurrency(b: Books, m: Movement)
    requires SidesKnown(b, m)
  {
    && (m.party.OnAccount? ==> b.accounts[m.party.account].currency == m.currency)
    && (m.cash.OnTill? ==> b.tills[m.cash.till].currency == m.currency)
  }

  predicate OncePerInvoice(source: Source) {
    source == InvoiceSource || source == InvoiceCancelSource
  }

  /** The database's unique key: an invoice posts once, and is cancelled once. */
  predicate KeyTaken(ms: seq<Movement>, source: Source, document: DocumentRef) {
    && OncePerInvoice(source)
    && exists k :: 0 <= k < |ms| && ms[k].source == source && ms[k].document == document
  }

  /** Nothing but movements is written, and no movement already there changes. */
  predicate OnlyAppendsMovements(b: Books, after: Books) {
    && after == b.(movements := after.movements)
    && b.movements <= after.movements
  }

  /** Write one movement, or refuse it before anything is written. */
  function Post(b: Books, m: Movement): (r: Outcome)
    requires m.reverses.None?
    ensures r.Ok? ==> OnlyAppendsMovements(b, r.value)
  {
    if m.source == ReversalSource then Refused(InvalidSource)
    else if m.party.NoParty? && m.cash.NoCash? then Refused(NoSide)
    else if !SidesKnown(b, m) then Refused(UnknownRecord)
    else if m.amount <= 0 then Refused(BadAmount)
    else if !SameCurrency(b, m) then Refused(CurrencyMismatch)
    else if CheckDate(b, m.date).Some? then Refused(CheckDate(b, m.date).value)
    else if m.source != OpeningSource && BeforeAnOpening(b.papers, m) then Refused(BeforeOpening)
    else if KeyTaken(b.movements, m.source, m.document) then Refused(PostedTwice)
    else Ok(b.(movements := b.movements + [m]))
  }

  /** The accounts and tills the movement moves exist, in its currency, and there is one at least. */
  predicate OnKnownSides(b: Books, m: Movement) {
    && (m.party.OnAccount? || m.cash.OnTill?)
    && (m.party.OnAccount? ==>
          m.party.account < |b.accounts| && b.accounts[m.party.account].currency == m.currency)
    && (m.cash.OnTill? ==> m.cash.till < |b.tills| && b.tills[m.cash.till].currency == m.currency)
  }

  /** A movement is written, last and alone, exactly when it is an amount above zero on known sides, dated on an open day
      no earlier than a live opening it touches (unless it is one), and the first of its invoice's kind. */
  lemma PostsExactlyWhen(b: Books, m: Movement)
    requires m.reverses.None?
    ensures Post(b, m).Ok? <==>
              && m.source != ReversalSource && m.amount > 0 && OnKnownSides(b, m)
              && m.date <= b.today && (b.closedThrough.Some? ==> b.closedThrough.value < m.date)
              && (forall p, s: Side :: 0 <= p < |b.papers| && Touches(m, s) && LiveOpening(b.papers[p], s) ==>
                    m.source == OpeningSource || b.papers[p].date <= m.date)
              && (forall k :: 0 <= k < |b.movements| && b.movements[k].document == m.document && OncePerInvoice(m.source) ==>
                    b.movements[k].source != m.source)
    ensures Post(b, m).Ok? ==> Post(b, m).value == b.(movements := b.movements + [m])
  {
    forall p, s: Side | 0 <= p < |b.papers| && Touches(m, s) && LiveOpening(b.papers[p], s) && b.papers[p].date > m.date
      ensures BeforeAnOpening(b.papers, m)
    {
      assert LaterOpening(b.papers, s, m.date);
    }
    if BeforeAnOpening(b.papers, m) {
      var s := if m.party.OnAccount? && LaterOpening(b.papers, AccountSide(m.party.account), m.date)
               then AccountSide(m.party.account) else TillSide(m.cash.till);
      var p :| 0 <= p < |b.papers| && LiveOpening(b.papers[p], s) && b.papers[p].date > m.date;
      assert Touches(m, s);
    }
  }

  /** The mirror of movement k: both directions flipped, everything else kept. */
  function Mirror(m: Movement, k: Id, date: Day, source: Source): Movement {
    Movement(FlipParty(m.party), FlipCash(m.cash), date, m.amount, m.currency, source, m.document, Some(k))
  }

  /** The mirrors of a document's standing originals among the first n movements. */
  function Mirrors(ms: seq<Movement>, r: DocumentRef, n: nat, date: Day, source: Source): seq<Movement>
    requires n <= |ms|
  {
    if n == 0 then []
    else Mirrors(ms, r, n - 1, date, source) +
         (if Standing(ms, r, n - 1) then [Mirror(ms[n - 1], n - 1, date, source)] else [])
  }

  predicate AnyStanding(ms: seq<Movement>, r: DocumentRef) {
    exists k :: 0 <= k < |ms| && Standing(ms, r, k)
  }

  /** Two mirrors would share the unique key of an invoice's cancellation. */
  predicate MirrorsClash(ms: seq<Movement>, r: DocumentRef, source: Source) {
    && OncePerInvoice(source)
    && (KeyTaken(ms, source, r)
        || exists j, k :: 0 <= j < k < |ms| && Standing(ms, r, j) && Standing(ms, r, k))
  }

  /** The document's standing movements, mirrored; refused when none is left. */
  function ReverseDocument(b: Books, r: DocumentRef, date: Day, source: Source): (result: Outcome)
    ensures result.Ok? ==> OnlyAppendsMovements(b, result.value)
  {
    if source != ReversalSource && source != InvoiceCancelSource then Refused(InvalidSource)
    else if !AnyStanding(b.movements, r) then Refused(AlreadyReversed)
    else if CheckDate(b, date).Some? then Refused(CheckDate(b, date).value)
    else if MirrorsClash(b.movements, r, source) then Refused(AlreadyReversed)
    else Ok(b.(movements := b.movements + Mirrors(b.movements, r, |b.movements|, date, source)))
  }
}
