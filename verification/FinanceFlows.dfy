/** What the finance summary counts as money in and out, call by call. (apps/ledger/finance.py) */
module FinanceFlows {
  import opened Books
  import opened Posting
  import opened Services
  import opened Reversal
  import opened Finance
  import opened LedgerRuns
  import CallEffects
  import CallShapes
  import Collecting
  import Effects
  import opened Results
  import Sums

  function Money(ms: seq<Movement>, s: Side, flow: Flow, lo: Day, hi: Day): int {
    if flow == In then MoneyIn(ms, s, lo, hi) else MoneyOut(ms, s, lo, hi)
  }

  function Term(ms: seq<Movement>, s: Side, flow: Flow, lo: Day, hi: Day): nat -> int {
    if flow == In then InTerm(ms, s, lo, hi) else OutTerm(ms, s, lo, hi)
  }

  /** What a movement moves into the side, or out of it. */
  function Flowing(m: Movement, s: Side, flow: Flow): int {
    if m.cash.OnTill? && m.cash.flow == flow && Touches(m, s) then m.amount else 0
  }

  function Opposite(flow: Flow): Flow {
    if flow == In then Out else In
  }

  // One more movement -----------------------------------------------------------------------

  lemma FlowsBefore(ms: seq<Movement>, m: Movement, s: Side, flow: Flow, lo: Day, hi: Day)
    requires WellMirrored(ms + [m])
    ensures Sums.SumTo(|ms|, Term(ms + [m], s, flow, lo, hi)) == Money(ms, s, flow, lo, hi) -
              (if m.reverses.Some? && InWindow(m.date, lo, hi) then Term(ms, s, flow, lo, hi)(m.reverses.value) else 0)
  {
    var f, g := Term(ms, s, flow, lo, hi), Term(ms + [m], s, flow, lo, hi);
    forall k: nat | k < |ms|
      ensures g(k) == if m.reverses == Some(k) && InWindow(m.date, lo, hi) then 0 else f(k)
    {
      FlowKept(ms, m, k, lo, hi);
    }
    if m.reverses.Some? && InWindow(m.date, lo, hi) {
      assert (ms + [m])[|ms|] == m;
      Sums.SumChange(|ms|, f, g, m.reverses.value);
    } else {
      Sums.SumCongruent(|ms|, f, g);
    }
  }

  /** What a mirrored movement flowed before its mirror, if in the window. */
  lemma OriginalFlowed(ms: seq<Movement>, m: Movement, k: nat, lo: Day, hi: Day)
    requires WellMirrored(ms + [m]) && m.reverses == Some(k)
    ensures k < |ms| && IsMirrorOf(m, k, ms[k])
    ensures IsFlow(ms, k, lo, hi) <==>
              ms[k].cash.OnTill? && InWindow(ms[k].date, lo, hi) && ms[k].source !in {TransferSource, OpeningSource}
    ensures Internal(ms + [m], |ms|) <==> ms[k].source in {TransferSource, OpeningSource}
  {
    var ns := ms + [m];
    assert ns[|ms|] == m && ns[k] == ms[k] && IsMirrorOf(ns[|ms|], k, ns[k]);
    forall j | 0 <= j < |ms|
      ensures ms[j].reverses != Some(k)
    {
      assert ns[j] == ms[j];
    }
  }

  /** A movement in the window counts on its side unless it is a transfer or an opening; a mirror takes what it mirrors
      out of the count if that is in the window too, and counts itself if that is not. */
  lemma MovementFlows(ms: seq<Movement>, m: Movement, s: Side, flow: Flow, lo: Day, hi: Day)
    requires WellMirrored(ms + [m])
    ensures m.reverses.Some? ==> m.reverses.value < |ms|
    ensures Money(ms + [m], s, flow, lo, hi) == Money(ms, s, flow, lo, hi) +
              (if !(lo <= m.date <= hi) then 0
               else if m.reverses.None? then
                 (if m.source in {TransferSource, OpeningSource} then 0 else Flowing(m, s, flow))
               else var original := ms[m.reverses.value];
                 if original.source in {TransferSource, OpeningSource} then 0
                 else if lo <= original.date <= hi then -Flowing(original, s, flow)
                 else Flowing(m, s, flow))
  {
    var ns := ms + [m];
    assert ns[|ms|] == m;
    FlowsBefore(ms, m, s, flow, lo, hi);
    LastIsFlow(ms, m, lo, hi);
    if m.reverses.Some? {
      OriginalFlowed(ms, m, m.reverses.value, lo, hi);
      assert ns[m.reverses.value] == ms[m.reverses.value];
    }
    hide IsFlow, WellMirrored, IsMirrorOf;
  }

  // Reversals -------------------------------------------------------------------------------

  /** What reversing a document on a date corrects, movement by movement. */
  function Corrects(ms: seq<Movement>, r: DocumentRef, date: Day, s: Side, flow: Flow, lo: Day, hi: Day): nat -> int {
    (k: nat) =>
      if !(lo <= date <= hi) || !Standing(ms, r, k) || ms[k].source in {TransferSource, OpeningSource} then 0
      else if lo <= ms[k].date <= hi then -Flowing(ms[k], s, flow)
      else Flowing(ms[k], s, Opposite(flow))
  }

  lemma {:induction false} MirrorsFlow(ms: seq<Movement>, r: DocumentRef, n: nat, date: Day, source: Source,
                                       s: Side, flow: Flow, lo: Day, hi: Day)
    requires WellMirrored(ms) && n <= |ms| && MirrorSource(source)
    ensures Money(Mirrored(ms, r, n, date, source), s, flow, lo, hi) ==
            Money(ms, s, flow, lo, hi) + Sums.SumTo(n, Corrects(ms, r, date, s, flow, lo, hi))
  {
    hide Money, WellMirrored, Mirrored;
    MirroredUnfolds(ms, r, n, date, source);
    if n > 0 {
      MirrorsFlow(ms, r, n - 1, date, source, s, flow, lo, hi);
      if Standing(ms, r, n - 1) {
        var so, m := Mirrored(ms, r, n - 1, date, source), Mirror(ms[n - 1], n - 1, date, source);
        MirrorsWell(ms, r, n - 1, date, source);
        StandingMirrored(ms, r, n - 1, date, source);
        AppendMirrorWell(so, m, n - 1);
        MovementFlows(so, m, s, flow, lo, hi);
      }
    }
  }

  // Calls -----------------------------------------------------------------------------------

  lemma OneMovement(b: Books, p: Paper)
    requires Record(b, p).Ok? && |Legs(p.kind)| == 1
    ensures Record(b, p).value.movements == b.movements + [LegMovement(p, PaperRef(|b.papers|), Legs(p.kind)[0])]
    ensures Record(b, p).value.today == b.today
  {
    CallEffects.LegsMove(b.(papers := b.papers + [p]), p, PaperRef(|b.papers|), Legs(p.kind), Pool(p.currency));
  }

  /** A payment out is money out of its till, and of its currency, if its day is in the window. */
  lemma PaymentOutFlows(b: Books, account: Id, till: Id, amount: Decimal, date: Day, s: Side, lo: Day, hi: Day)
    requires LedgerInv(b) && IsCash(s) && Perform(b, CallRecordPaymentOut(account, till, amount, date)).Ok?
    ensures var c := Perform(b, CallRecordPaymentOut(account, till, amount, date)).value;
            && account < |b.accounts| && IsMoney(amount)
            && MoneyIn(c.movements, s, lo, hi) == MoneyIn(b.movements, s, lo, hi)
            && MoneyOut(c.movements, s, lo, hi) == MoneyOut(b.movements, s, lo, hi) +
                 (if lo <= date <= hi && (s == TillSide(till) || s == Pool(b.accounts[account].currency))
                  then Cents(amount) else 0)
  {
    hide Record, MoneyIn, MoneyOut, IsMoney;
    var counted := b.(lastPayment := b.lastPayment + 1);
    var p := Paper(PaymentOut(account, till), Cents(amount), b.accounts[account].currency, date, b.lastPayment + 1, false);
    OneMovement(counted, p);
    var m := LegMovement(p, PaperRef(|b.papers|), Legs(p.kind)[0]);
    KnownWell(b);
    Effects.AppendOriginalWell(b.movements, m);
    MovementFlows(b.movements, m, s, In, lo, hi);
    MovementFlows(b.movements, m, s, Out, lo, hi);
  }

  /** A collection is money in, likewise. */
  lemma CollectionFlows(b: Books, account: Id, till: Id, amount: Decimal, date: Day, applies: seq<Applied>,
                        s: Side, lo: Day, hi: Day)
    requires LedgerInv(b) && IsCash(s) && Perform(b, CallRecordCollection(account, till, amount, date, applies)).Ok?
    ensures var c := Perform(b, CallRecordCollection(account, till, amount, date, applies)).value;
            && account < |b.accounts| && IsMoney(amount)
            && MoneyOut(c.movements, s, lo, hi) == MoneyOut(b.movements, s, lo, hi)
            && MoneyIn(c.movements, s, lo, hi) == MoneyIn(b.movements, s, lo, hi) +
                 (if lo <= date <= hi && (s == TillSide(till) || s == Pool(b.accounts[account].currency))
                  then Cents(amount) else 0)
  {
    hide RecordCollection, MoneyIn, MoneyOut, IsMoney;
    Collecting.CollectionRows(b, account, till, amount, date, applies);
    var currency := b.accounts[account].currency;
    var p := Paper(Collection(account, till), Cents(amount), currency, date, b.lastCollection + 1, false);
    var m := LegMovement(p, PaperRef(|b.papers|), Legs(p.kind)[0]);
    KnownWell(b);
    Effects.AppendOriginalWell(b.movements, m);
    MovementFlows(b.movements, m, s, In, lo, hi);
    MovementFlows(b.movements, m, s, Out, lo, hi);
  }

  lemma {:induction false} InternalLegs(b: Books, p: Paper, r: DocumentRef, legs: seq<(PartyLeg, CashLeg)>,
                                        s: Side, flow: Flow, lo: Day, hi: Day)
    requires WellMirrored(b.movements) && PostLegs(b, p, r, legs).Ok?
    requires PaperSource(p.kind) in {TransferSource, OpeningSource} || forall k :: 0 <= k < |legs| ==> legs[k].1.NoCash?
    ensures Money(PostLegs(b, p, r, legs).value.movements, s, flow, lo, hi) == Money(b.movements, s, flow, lo, hi)
    decreases |legs|
  {
    hide Money, WellMirrored, BeforeAnOpening, KeyTaken, CheckDate;
    if legs != [] {
      var m := LegMovement(p, r, legs[0]);
      Effects.AppendOriginalWell(b.movements, m);
      MovementFlows(b.movements, m, s, flow, lo, hi);
      InternalLegs(Post(b, m).value, p, r, legs[1..], s, flow, lo, hi);
    }
  }

  /** A transfer, an opening and a manual entry are neither money in nor money out. */
  lemma NoFlows(b: Books, call: Call, s: Side, lo: Day, hi: Day)
    requires LedgerInv(b) && Perform(b, call).Ok?
    requires call.CallRecordTransfer? || call.CallRecordOpening? || call.CallRecordManualEntry?
    ensures var c := Perform(b, call).value;
            && MoneyIn(c.movements, s, lo, hi) == MoneyIn(b.movements, s, lo, hi)
            && MoneyOut(c.movements, s, lo, hi) == MoneyOut(b.movements, s, lo, hi)
  {
    hide MoneyIn, MoneyOut, PostLegs, Perform, LedgerInv, CallShapes.OpeningChecked, CallShapes.PaperSound;
    KnownWell(b);
    var counted, p := CallShapes.PaperCall(b, call);
    var created := counted.(papers := b.papers + [p]);
    InternalLegs(created, p, PaperRef(|b.papers|), Legs(p.kind), s, In, lo, hi);
    InternalLegs(created, p, PaperRef(|b.papers|), Legs(p.kind), s, Out, lo, hi);
  }

  /** A cancel takes what its document moved in the window out of the count, if today is in it; what the document had moved
      at other times counts again, the other way. */
  lemma CancelFlows(b: Books, p: Id, call: Call, s: Side, flow: Flow, lo: Day, hi: Day)
    requires LedgerInv(b) && (call == CallCancelPaper(p) || call == CallCancelCollection(p)) && Perform(b, call).Ok?
    ensures Money(Perform(b, call).value.movements, s, flow, lo, hi) == Money(b.movements, s, flow, lo, hi) +
              Sums.SumTo(|b.movements|, Corrects(b.movements, PaperRef(p), b.today, s, flow, lo, hi))
  {
    hide Money, LedgerInv, Corrects, Mirrors, AnyStanding;
    KnownWell(b);
    MirrorsFlow(b.movements, PaperRef(p), |b.movements|, b.today, ReversalSource, s, flow, lo, hi);
  }

  /** The one movement of a paper just recorded is all there is to correct. */
  lemma NothingElse(b: Books, m: Movement, date: Day, s: Side, flow: Flow, lo: Day, hi: Day)
    requires LedgerInv(b) && m.document == PaperRef(|b.papers|) && m.reverses.None? && m.amount > 0
    ensures var f := Corrects(b.movements + [m], m.document, date, s, flow, lo, hi);
            && Sums.SumTo(|b.movements| + 1, f) == f(|b.movements|)
            && Standing(b.movements + [m], m.document, |b.movements|)
  {
    var ms, ns := b.movements, b.movements + [m];
    forall k: nat | k < |ms|
      ensures ns[k].document != m.document && ns[k].reverses != Some(|ms|)
    {
      assert ns[k] == ms[k] && Effects.RefKnown(b, ms[k].document);
    }
    hide LedgerInv;
    Sums.SumOnly(|ms| + 1, Corrects(ns, m.document, date, s, flow, lo, hi), |ms|);
  }

  /** Made and cancelled inside the window, a payment or a collection is neither money in nor money out of it. */
  lemma MadeAndCancelled(b: Books, call: Call, cancel: Call, date: Day, s: Side, lo: Day, hi: Day)
    requires LedgerInv(b) && lo <= date <= hi && lo <= b.today <= hi
    requires || (call.CallRecordPaymentOut? && call.date == date && cancel == CallCancelPaper(|b.papers|))
             || (call.CallRecordCollection? && call.date == date && cancel == CallCancelCollection(|b.papers|))
    requires Perform(b, call).Ok? && Perform(After(b, call), cancel).Ok?
    ensures var c := Run(b, [call, cancel]);
            && MoneyIn(c.movements, s, lo, hi) == MoneyIn(b.movements, s, lo, hi)
            && MoneyOut(c.movements, s, lo, hi) == MoneyOut(b.movements, s, lo, hi)
  {
    hide MoneyIn, MoneyOut, LedgerInv, Perform, Corrects;
    var between := After(b, call);
    CallKeeps(b, call);
    RunOfTwo(b, call, cancel);
    var m := RecordedMovement(b, call, date);
    KnownWell(b);
    Effects.AppendOriginalWell(b.movements, m);
    BothGo(b, m, between, cancel, s, In, lo, hi);
    BothGo(b, m, between, cancel, s, Out, lo, hi);
  }

  lemma RunOfTwo(b: Books, first: Call, second: Call)
    ensures Run(b, [first, second]) == After(After(b, first), second)
  {
    hide After;
    var between, calls := After(b, first), [first, second];
    assert calls[1..] == [second] && [second][1..] == [];
    assert Run(between, [second]) == Run(After(between, second), []);
  }

  lemma RecordedMovement(b: Books, call: Call, date: Day) returns (m: Movement)
    requires LedgerInv(b) && (call.CallRecordPaymentOut? || call.CallRecordCollection?) && call.date == date
    requires Perform(b, call).Ok?
    ensures After(b, call).movements == b.movements + [m] && After(b, call).today == b.today
    ensures m.document == PaperRef(|b.papers|) && m.reverses.None? && m.amount > 0 && m.date == date
    ensures m.source !in {TransferSource, OpeningSource}
  {
    hide Record, RecordCollection, IsMoney, LedgerInv;
    match call
    case CallRecordPaymentOut(account, till, amount, _) =>
      var counted := b.(lastPayment := b.lastPayment + 1);
      var currency := b.accounts[account].currency;
      var p := Paper(PaymentOut(account, till), Cents(amount), currency, date, b.lastPayment + 1, false);
      OneMovement(counted, p);
      m := LegMovement(p, PaperRef(|b.papers|), Legs(p.kind)[0]);
    case CallRecordCollection(account, till, amount, _, applies) =>
      Collecting.CollectionRows(b, account, till, amount, date, applies);
      var currency := b.accounts[account].currency;
      var p := Paper(Collection(account, till), Cents(amount), currency, date, b.lastCollection + 1, false);
      m := LegMovement(p, PaperRef(|b.papers|), Legs(p.kind)[0]);
  }

  lemma BothGo(b: Books, m: Movement, between: Books, cancel: Call, s: Side, flow: Flow, lo: Day, hi: Day)
    requires LedgerInv(b) && LedgerInv(between) && between.movements == b.movements + [m] && between.today == b.today
    requires WellMirrored(b.movements + [m]) && m.document == PaperRef(|b.papers|) && m.reverses.None? && m.amount > 0
    requires lo <= m.date <= hi && lo <= b.today <= hi && m.source !in {TransferSource, OpeningSource}
    requires cancel == CallCancelPaper(|b.papers|) || cancel == CallCancelCollection(|b.papers|)
    requires Perform(between, cancel).Ok?
    ensures Money(After(between, cancel).movements, s, flow, lo, hi) == Money(b.movements, s, flow, lo, hi)
  {
    hide Money, LedgerInv, Perform, WellMirrored;
    MovementFlows(b.movements, m, s, flow, lo, hi);
    CancelFlows(between, |b.papers|, cancel, s, flow, lo, hi);
    NothingElse(b, m, b.today, s, flow, lo, hi);
    assert between.movements[|b.movements|] == m;
  }

  lemma KnownWell(b: Books)
    requires LedgerInv(b)
    ensures WellMirrored(b.movements)
  {
  }
}
