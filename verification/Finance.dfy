/**
 * The finance summary explains the cash: over any window a till's balance moves by
 * its money in less its money out, plus what only moved inside the firm, although
 * a pair made and reversed inside the window is left out. (apps/ledger/finance.py)
 */
module Finance {
  import opened Results
  import opened Sums
  import opened Books
  import Posting
  import opened Reversal
  import Effects
  import Statements

  predicate InWindow(day: Day, lo: Day, hi: Day) {
    lo <= day <= hi
  }

  /** This movement, or the one it mirrors, has the source. */
  predicate Springs(ms: seq<Movement>, k: nat, source: Source)
    requires k < |ms|
  {
    || ms[k].source == source
    || (ms[k].reverses.Some? && ms[k].reverses.value < |ms| && ms[ms[k].reverses.value].source == source)
  }

  /** No flow of the firm: a transfer or an opening, or the mirror of one. */
  predicate Internal(ms: seq<Movement>, k: nat)
    requires k < |ms|
  {
    Springs(ms, k, TransferSource) || Springs(ms, k, OpeningSource)
  }

  predicate ReversedWithin(ms: seq<Movement>, k: nat, lo: Day, hi: Day) {
    exists j :: 0 <= j < |ms| && ms[j].reverses == Some(k) && InWindow(ms[j].date, lo, hi)
  }

  predicate ReversesWithin(ms: seq<Movement>, k: nat, lo: Day, hi: Day)
    requires k < |ms|
  {
    ms[k].reverses.Some? && ms[k].reverses.value < |ms| && InWindow(ms[ms[k].reverses.value].date, lo, hi)
  }

  /** A cash movement the window counts as a flow. */
  predicate IsFlow(ms: seq<Movement>, k: nat, lo: Day, hi: Day) {
    && k < |ms|
    && ms[k].cash.OnTill?
    && InWindow(ms[k].date, lo, hi)
    && !Internal(ms, k)
    && !ReversedWithin(ms, k, lo, hi)
    && !ReversesWithin(ms, k, lo, hi)
  }

  predicate IsCash(s: Side) {
    s.TillSide? || s.Pool?
  }

  function InTerm(ms: seq<Movement>, s: Side, lo: Day, hi: Day): nat -> int {
    (k: nat) => if IsFlow(ms, k, lo, hi) && Touches(ms[k], s) && ms[k].cash.flow == In then ms[k].amount else 0
  }

  function OutTerm(ms: seq<Movement>, s: Side, lo: Day, hi: Day): nat -> int {
    (k: nat) => if IsFlow(ms, k, lo, hi) && Touches(ms[k], s) && ms[k].cash.flow == Out then ms[k].amount else 0
  }

  function MoneyIn(ms: seq<Movement>, s: Side, lo: Day, hi: Day): int {
    SumTo(|ms|, InTerm(ms, s, lo, hi))
  }

  function MoneyOut(ms: seq<Movement>, s: Side, lo: Day, hi: Day): int {
    SumTo(|ms|, OutTerm(ms, s, lo, hi))
  }

  function NetTerm(ms: seq<Movement>, s: Side, lo: Day, hi: Day): nat -> int {
    (k: nat) => if IsFlow(ms, k, lo, hi) then SignedOn(ms[k], s) else 0
  }

  function SpringTerm(ms: seq<Movement>, s: Side, source: Source, lo: Day, hi: Day): nat -> int {
    (k: nat) => if k < |ms| && InWindow(ms[k].date, lo, hi) && Springs(ms, k, source) then SignedOn(ms[k], s) else 0
  }

  /** What movements of one source, and their mirrors, moved in the window. */
  function SpringNet(ms: seq<Movement>, s: Side, source: Source, lo: Day, hi: Day): int {
    SumTo(|ms|, SpringTerm(ms, s, source, lo, hi))
  }

  lemma NetIsInLessOut(ms: seq<Movement>, s: Side, lo: Day, hi: Day)
    requires IsCash(s)
    ensures SumTo(|ms|, NetTerm(ms, s, lo, hi)) == MoneyIn(ms, s, lo, hi) - MoneyOut(ms, s, lo, hi)
  {
    SumPlus(|ms|, NetTerm(ms, s, lo, hi), OutTerm(ms, s, lo, hi), InTerm(ms, s, lo, hi));
  }

  // One more movement ------------------------------------------------------------------

  lemma SpringsKept(ms: seq<Movement>, m: Movement, k: nat, source: Source)
    requires WellMirrored(ms + [m]) && k < |ms|
    ensures Springs(ms + [m], k, source) == Springs(ms, k, source)
  {
    assert (ms + [m])[k] == ms[k];
  }

  lemma SpringAppend(ms: seq<Movement>, m: Movement, s: Side, source: Source, lo: Day, hi: Day)
    requires WellMirrored(ms + [m])
    ensures SpringNet(ms + [m], s, source, lo, hi) == SpringNet(ms, s, source, lo, hi) +
              (if InWindow(m.date, lo, hi) && Springs(ms + [m], |ms|, source) then SignedOn(m, s) else 0)
  {
    forall k: nat | k < |ms|
      ensures SpringTerm(ms, s, source, lo, hi)(k) == SpringTerm(ms + [m], s, source, lo, hi)(k)
    {
      SpringsKept(ms, m, k, source);
    }
    SumCongruent(|ms|, SpringTerm(ms, s, source, lo, hi), SpringTerm(ms + [m], s, source, lo, hi));
  }

  lemma FlowKept(ms: seq<Movement>, m: Movement, k: nat, lo: Day, hi: Day)
    requires WellMirrored(ms + [m]) && k < |ms|
    ensures IsFlow(ms + [m], k, lo, hi) <==>
              IsFlow(ms, k, lo, hi) && !(m.reverses == Some(k) && InWindow(m.date, lo, hi))
  {
    var ns := ms + [m];
    SpringsKept(ms, m, k, TransferSource);
    SpringsKept(ms, m, k, OpeningSource);
    assert ns[k] == ms[k] && ns[|ms|] == m;
    assert ReversesWithin(ns, k, lo, hi) == ReversesWithin(ms, k, lo, hi);
    assert ReversedWithin(ns, k, lo, hi) <==>
             ReversedWithin(ms, k, lo, hi) || (m.reverses == Some(k) && InWindow(m.date, lo, hi)) by {
      if ReversedWithin(ms, k, lo, hi) {
        var j :| 0 <= j < |ms| && ms[j].reverses == Some(k) && InWindow(ms[j].date, lo, hi);
        assert ns[j] == ms[j];
      }
    }
  }

  lemma LastIsFlow(ms: seq<Movement>, m: Movement, lo: Day, hi: Day)
    requires WellMirrored(ms + [m])
    ensures IsFlow(ms + [m], |ms|, lo, hi) <==>
              m.cash.OnTill? && InWindow(m.date, lo, hi) && !Internal(ms + [m], |ms|)
                  && !ReversesWithin(ms + [m], |ms|, lo, hi)
  {
  }

  /** When a mirror arrives in the window, either its original leaves the flows or it joins them itself. */
  lemma MirrorFlow(ms: seq<Movement>, m: Movement, k: nat, s: Side, lo: Day, hi: Day)
    requires WellMirrored(ms + [m]) && m.reverses == Some(k) && InWindow(m.date, lo, hi) && IsCash(s)
    ensures k < |ms|
    ensures NetTerm(ms + [m], s, lo, hi)(|ms|) - NetTerm(ms, s, lo, hi)(k) ==
              if Internal(ms + [m], |ms|) then 0 else SignedOn(m, s)
  {
    var ns := ms + [m];
    var n := |ms|;
    LastIsFlow(ms, m, lo, hi);
    assert ns[n] == m && ns[k] == ms[k];
    assert IsMirrorOf(ns[n], k, ns[k]);
    MirrorNegates(m, k, ms[k], s);
    assert !ReversedWithin(ms, k, lo, hi) by {
      forall j | 0 <= j < n
        ensures ms[j].reverses != Some(k)
      {
        assert ns[j] == ms[j];
      }
    }
    assert Internal(ns, n) == Internal(ms, k);
  }

  /** Flows among the movements already there change at the reversed one only. */
  lemma FlowsKept(ms: seq<Movement>, m: Movement, s: Side, lo: Day, hi: Day)
    requires WellMirrored(ms + [m])
    ensures SumTo(|ms|, NetTerm(ms + [m], s, lo, hi)) == SumTo(|ms|, NetTerm(ms, s, lo, hi)) -
              (if m.reverses.Some? && InWindow(m.date, lo, hi) then NetTerm(ms, s, lo, hi)(m.reverses.value) else 0)
  {
    var n := |ms|;
    var f, g := NetTerm(ms, s, lo, hi), NetTerm(ms + [m], s, lo, hi);
    forall k: nat | k < n
      ensures g(k) == if m.reverses == Some(k) && InWindow(m.date, lo, hi) then 0 else f(k)
    {
      FlowKept(ms, m, k, lo, hi);
    }
    if m.reverses.Some? && InWindow(m.date, lo, hi) {
      assert (ms + [m])[n] == m;
      SumChange(n, f, g, m.reverses.value);
    } else {
      SumCongruent(n, f, g);
    }
  }

  /** A movement adds to the flows what it adds to the till, unless it is internal. */
  lemma FlowAppend(ms: seq<Movement>, m: Movement, s: Side, lo: Day, hi: Day)
    requires WellMirrored(ms + [m]) && IsCash(s)
    ensures SumTo(|ms| + 1, NetTerm(ms + [m], s, lo, hi)) == SumTo(|ms|, NetTerm(ms, s, lo, hi)) +
              (if InWindow(m.date, lo, hi) && !Internal(ms + [m], |ms|) then SignedOn(m, s) else 0)
  {
    FlowsKept(ms, m, s, lo, hi);
    if m.reverses.Some? && InWindow(m.date, lo, hi) {
      MirrorFlow(ms, m, m.reverses.value, s, lo, hi);
    } else {
      LastAlone(ms, m, s, lo, hi);
    }
  }

  lemma LastAlone(ms: seq<Movement>, m: Movement, s: Side, lo: Day, hi: Day)
    requires WellMirrored(ms + [m]) && IsCash(s)
    requires m.reverses.None? || !InWindow(m.date, lo, hi)
    ensures NetTerm(ms + [m], s, lo, hi)(|ms|) ==
              if InWindow(m.date, lo, hi) && !Internal(ms + [m], |ms|) then SignedOn(m, s) else 0
  {
    LastIsFlow(ms, m, lo, hi);
    assert (ms + [m])[|ms|] == m;
  }

  // The explanation -------------------------------------------------------------------

  lemma SpringsOnce(ms: seq<Movement>, k: nat)
    requires WellMirrored(ms) && k < |ms|
    ensures !(Springs(ms, k, TransferSource) && Springs(ms, k, OpeningSource))
  {
    if ms[k].reverses.Some? {
      assert IsMirrorOf(ms[k], ms[k].reverses.value, ms[ms[k].reverses.value]);
    }
  }

  lemma {:induction false} WindowExplained(ms: seq<Movement>, s: Side, lo: Day, hi: Day)
    requires WellMirrored(ms) && IsCash(s)
    ensures Statements.Change(ms, s, Some(lo), Some(hi)) ==
              SumTo(|ms|, NetTerm(ms, s, lo, hi))
              + SpringNet(ms, s, TransferSource, lo, hi) + SpringNet(ms, s, OpeningSource, lo, hi)
  {
    if ms != [] {
      var n := |ms| - 1;
      var before, m := ms[..n], ms[n];
      assert ms == before + [m];
      WellMirroredPrefix(ms, n);
      WindowExplained(before, s, lo, hi);
      Statements.ChangeAppend(before, m, s, Some(lo), Some(hi));
      FlowAppend(before, m, s, lo, hi);
      SpringAppend(before, m, s, TransferSource, lo, hi);
      SpringAppend(before, m, s, OpeningSource, lo, hi);
      SpringsOnce(ms, n);
    }
  }

  /**
   * The cash explanation: a till's balance at the end of a window, less its balance
   * before it, is its money in less its money out, plus its net transfers and opening.
   */
  lemma CashExplained(ms: seq<Movement>, till: Id, lo: Day, hi: Day)
    requires WellMirrored(ms) && lo <= hi + 1
    ensures var s := TillSide(till);
            Statements.Change(ms, s, None, Some(hi)) - Statements.BalanceBefore(ms, s, lo) ==
              MoneyIn(ms, s, lo, hi) - MoneyOut(ms, s, lo, hi)
              + SpringNet(ms, s, TransferSource, lo, hi) + SpringNet(ms, s, OpeningSource, lo, hi)
  {
    var s := TillSide(till);
    WindowExplained(ms, s, lo, hi);
    NetIsInLessOut(ms, s, lo, hi);
    Statements.ChangeSplits(ms, s, lo, Some(hi));
  }

  // Over the tills of a currency --------------------------------------------------------

  predicate TillIn(b: Books, t: nat, c: Currency) {
    t < |b.tills| && b.tills[t].currency == c
  }

  function InOfTills(b: Books, c: Currency, lo: Day, hi: Day, n: nat): nat -> int {
    (t: nat) => if TillIn(b, t, c) then SumTo(n, InTerm(b.movements, TillSide(t), lo, hi)) else 0
  }

  function OutOfTills(b: Books, c: Currency, lo: Day, hi: Day, n: nat): nat -> int {
    (t: nat) => if TillIn(b, t, c) then SumTo(n, OutTerm(b.movements, TillSide(t), lo, hi)) else 0
  }

  /** The cash lines of a currency add up to that currency's money in. */
  lemma {:induction false} TillsInAddUp(b: Books, c: Currency, lo: Day, hi: Day, n: nat)
    requires Effects.MovementsKnown(b) && n <= |b.movements|
    ensures SumTo(|b.tills|, InOfTills(b, c, lo, hi, n)) == SumTo(n, InTerm(b.movements, Pool(c), lo, hi))
  {
    var count := |b.tills|;
    if n == 0 {
      SumZero(count, InOfTills(b, c, lo, hi, 0));
    } else {
      TillsInAddUp(b, c, lo, hi, n - 1);
      var m := b.movements[n - 1];
      var f, g := InOfTills(b, c, lo, hi, n - 1), InOfTills(b, c, lo, hi, n);
      assert Posting.SidesKnown(b, m) && Posting.SameCurrency(b, m);
      var h: nat -> int := (t: nat) =>
        if TillIn(b, t, c) then InTerm(b.movements, TillSide(t), lo, hi)(n - 1) else 0;
      SumPlus(count, f, h, g);
      if m.cash.OnTill? && TillIn(b, m.cash.till, c) {
        SumOnly(count, h, m.cash.till);
      } else {
        SumZero(count, h);
      }
    }
  }

  /** The cash lines of a currency add up to that currency's money out. */
  lemma {:induction false} TillsOutAddUp(b: Books, c: Currency, lo: Day, hi: Day, n: nat)
    requires Effects.MovementsKnown(b) && n <= |b.movements|
    ensures SumTo(|b.tills|, OutOfTills(b, c, lo, hi, n)) == SumTo(n, OutTerm(b.movements, Pool(c), lo, hi))
  {
    var count := |b.tills|;
    if n == 0 {
      SumZero(count, OutOfTills(b, c, lo, hi, 0));
    } else {
      TillsOutAddUp(b, c, lo, hi, n - 1);
      var m := b.movements[n - 1];
      var f, g := OutOfTills(b, c, lo, hi, n - 1), OutOfTills(b, c, lo, hi, n);
      assert Posting.SidesKnown(b, m) && Posting.SameCurrency(b, m);
      var h: nat -> int := (t: nat) =>
        if TillIn(b, t, c) then OutTerm(b.movements, TillSide(t), lo, hi)(n - 1) else 0;
      SumPlus(count, f, h, g);
      if m.cash.OnTill? && TillIn(b, m.cash.till, c) {
        SumOnly(count, h, m.cash.till);
      } else {
        SumZero(count, h);
      }
    }
  }

  datatype CashLine = CashLine(till: Id, balance: int, moneyIn: int, moneyOut: int)

  predicate Moved(ms: seq<Movement>, t: Id, lo: Day, hi: Day) {
    exists k :: 0 <= k < |ms| && ms[k].cash.OnTill? && ms[k].cash.till == t && InWindow(ms[k].date, lo, hi)
  }

  predicate Listed(b: Books, t: Id, lo: Day, hi: Day)
    requires t < |b.tills|
  {
    b.tills[t].active || Balance(b.movements, TillSide(t)) != 0 || Moved(b.movements, t, lo, hi)
  }

  lemma UnmovedIsZero(ms: seq<Movement>, t: Id, lo: Day, hi: Day)
    requires !Moved(ms, t, lo, hi)
    ensures MoneyIn(ms, TillSide(t), lo, hi) == 0 && MoneyOut(ms, TillSide(t), lo, hi) == 0
  {
    SumZero(|ms|, InTerm(ms, TillSide(t), lo, hi));
    SumZero(|ms|, OutTerm(ms, TillSide(t), lo, hi));
  }

  function LineOf(b: Books, t: Id, lo: Day, hi: Day): CashLine {
    var s := TillSide(t);
    CashLine(t, Balance(b.movements, s), MoneyIn(b.movements, s, lo, hi), MoneyOut(b.movements, s, lo, hi))
  }

  /** The cash lines of a currency among the first n tills. */
  function LinesUpTo(b: Books, c: Currency, lo: Day, hi: Day, n: nat): seq<CashLine>
    requires n <= |b.tills|
  {
    if n == 0 then []
    else LinesUpTo(b, c, lo, hi, n - 1) +
         (if TillIn(b, n - 1, c) && Listed(b, n - 1, lo, hi) then [LineOf(b, n - 1, lo, hi)] else [])
  }

  /** A line for each till that is active, holds money or moved, in the tills' order, and for no other. */
  ghost predicate Lines(b: Books, c: Currency, lo: Day, hi: Day, lines: seq<CashLine>, n: nat) {
    && (forall i :: 0 <= i < |lines| ==>
          && lines[i].till < n <= |b.tills| && lines[i] == LineOf(b, lines[i].till, lo, hi)
          && TillIn(b, lines[i].till, c) && Listed(b, lines[i].till, lo, hi))
    && (forall i, j :: 0 <= i < j < |lines| ==> lines[i].till < lines[j].till)
    && forall t: nat :: t < n <= |b.tills| && TillIn(b, t, c) && Listed(b, t, lo, hi) ==> LineOf(b, t, lo, hi) in lines
  }

  lemma LineOfTill(b: Books, t: Id, lo: Day, hi: Day)
    ensures LineOf(b, t, lo, hi).till == t
  {
  }

  lemma NextLine(b: Books, c: Currency, lo: Day, hi: Day, lines: seq<CashLine>, t: Id)
    requires t < |b.tills| && Lines(b, c, lo, hi, lines, t) && TillIn(b, t, c) && Listed(b, t, lo, hi)
    ensures Lines(b, c, lo, hi, lines + [LineOf(b, t, lo, hi)], t + 1)
  {
    hide LineOf, Listed, TillIn;
    LineOfTill(b, t, lo, hi);
    var more := lines + [LineOf(b, t, lo, hi)];
    forall u: nat | u < t + 1 && TillIn(b, u, c) && Listed(b, u, lo, hi)
      ensures LineOf(b, u, lo, hi) in more
    {
      if u == t {
        assert more[|lines|] == LineOf(b, u, lo, hi);
      } else {
        assert LineOf(b, u, lo, hi) in lines;
      }
    }
  }

  lemma NoLine(b: Books, c: Currency, lo: Day, hi: Day, lines: seq<CashLine>, t: Id)
    requires t < |b.tills| && Lines(b, c, lo, hi, lines, t) && !(TillIn(b, t, c) && Listed(b, t, lo, hi))
    ensures Lines(b, c, lo, hi, lines, t + 1)
  {
    hide LineOf, Listed, TillIn;
  }

  lemma {:induction false} LinesAreThese(b: Books, c: Currency, lo: Day, hi: Day, n: nat)
    requires n <= |b.tills|
    ensures Lines(b, c, lo, hi, LinesUpTo(b, c, lo, hi, n), n)
  {
    if n > 0 {
      hide LineOf, Listed, TillIn, Lines;
      LinesAreThese(b, c, lo, hi, n - 1);
      var lines := LinesUpTo(b, c, lo, hi, n - 1);
      if TillIn(b, n - 1, c) && Listed(b, n - 1, lo, hi) {
        NextLine(b, c, lo, hi, lines, n - 1);
      } else {
        assert LinesUpTo(b, c, lo, hi, n) == lines;
        NoLine(b, c, lo, hi, lines, n - 1);
      }
    }
  }

  function InOf(lines: seq<CashLine>): nat -> int {
    (k: nat) => if k < |lines| then lines[k].moneyIn else 0
  }

  function OutOf(lines: seq<CashLine>): nat -> int {
    (k: nat) => if k < |lines| then lines[k].moneyOut else 0
  }

  lemma OneLineMore(lines: seq<CashLine>, line: CashLine)
    ensures SumTo(|lines + [line]|, InOf(lines + [line])) == SumTo(|lines|, InOf(lines)) + line.moneyIn
    ensures SumTo(|lines + [line]|, OutOf(lines + [line])) == SumTo(|lines|, OutOf(lines)) + line.moneyOut
  {
    SumCongruent(|lines|, InOf(lines), InOf(lines + [line]));
    SumCongruent(|lines|, OutOf(lines), OutOf(lines + [line]));
  }

  /** A till without a line moved nothing. */
  lemma TillIsItsLine(b: Books, c: Currency, lo: Day, hi: Day, t: Id)
    requires t < |b.tills|
    ensures var listed := TillIn(b, t, c) && Listed(b, t, lo, hi);
            && InOfTills(b, c, lo, hi, |b.movements|)(t) == (if listed then LineOf(b, t, lo, hi).moneyIn else 0)
            && OutOfTills(b, c, lo, hi, |b.movements|)(t) == (if listed then LineOf(b, t, lo, hi).moneyOut else 0)
  {
    hide Moved, SumTo, Balance;
    if !Moved(b.movements, t, lo, hi) {
      UnmovedIsZero(b.movements, t, lo, hi);
    }
  }

  /** The lines add up to all the tills. */
  lemma {:induction false} LinesAddUp(b: Books, c: Currency, lo: Day, hi: Day, n: nat)
    requires n <= |b.tills|
    ensures var lines := LinesUpTo(b, c, lo, hi, n);
            && SumTo(|lines|, InOf(lines)) == SumTo(n, InOfTills(b, c, lo, hi, |b.movements|))
            && SumTo(|lines|, OutOf(lines)) == SumTo(n, OutOfTills(b, c, lo, hi, |b.movements|))
  {
    if n > 0 {
      hide LineOf, Listed, TillIn, InOf, OutOf, InOfTills, OutOfTills, SumTo;
      var before := LinesUpTo(b, c, lo, hi, n - 1);
      LinesAddUp(b, c, lo, hi, n - 1);
      TillIsItsLine(b, c, lo, hi, n - 1);
      SumStep(n, InOfTills(b, c, lo, hi, |b.movements|));
      SumStep(n, OutOfTills(b, c, lo, hi, |b.movements|));
      if TillIn(b, n - 1, c) && Listed(b, n - 1, lo, hi) {
        OneLineMore(before, LineOf(b, n - 1, lo, hi));
      } else {
        assert LinesUpTo(b, c, lo, hi, n) == before;
      }
    }
  }

  /** The totals are the lines added up, and they are the currency's whole money in and out. */
  lemma LinesAreTheCurrency(b: Books, c: Currency, lo: Day, hi: Day)
    requires Effects.MovementsKnown(b)
    ensures var lines := LinesUpTo(b, c, lo, hi, |b.tills|);
            && SumTo(|lines|, InOf(lines)) == MoneyIn(b.movements, Pool(c), lo, hi)
            && SumTo(|lines|, OutOf(lines)) == MoneyOut(b.movements, Pool(c), lo, hi)
  {
    LinesAddUp(b, c, lo, hi, |b.tills|);
    TillsInAddUp(b, c, lo, hi, |b.movements|);
    TillsOutAddUp(b, c, lo, hi, |b.movements|);
  }

  method AddUp(lines: seq<CashLine>) returns (moneyIn: int, moneyOut: int)
    ensures moneyIn == SumTo(|lines|, InOf(lines)) && moneyOut == SumTo(|lines|, OutOf(lines))
  {
    moneyIn, moneyOut := 0, 0;
    for k := 0 to |lines|
      invariant moneyIn == SumTo(k, InOf(lines)) && moneyOut == SumTo(k, OutOf(lines))
    {
      moneyIn, moneyOut := moneyIn + lines[k].moneyIn, moneyOut + lines[k].moneyOut;
    }
  }

  /** One currency of the summary: its cash lines, and those lines added up. */
  method CurrencySummary(b: Books, c: Currency, lo: Day, hi: Day)
    returns (lines: seq<CashLine>, moneyIn: int, moneyOut: int)
    requires Effects.MovementsKnown(b)
    ensures Lines(b, c, lo, hi, lines, |b.tills|)
    ensures moneyIn == SumTo(|lines|, InOf(lines)) == MoneyIn(b.movements, Pool(c), lo, hi)
    ensures moneyOut == SumTo(|lines|, OutOf(lines)) == MoneyOut(b.movements, Pool(c), lo, hi)
  {
    hide MoneyIn, MoneyOut, Balance, SumTo, Moved, Lines, Effects.MovementsKnown;
    lines := [];
    for t := 0 to |b.tills|
      invariant lines == LinesUpTo(b, c, lo, hi, t)
    {
      if b.tills[t].currency == c {
        if Listed(b, t, lo, hi) {
          var s := TillSide(t);
          lines := lines + [CashLine(t, Balance(b.movements, s), MoneyIn(b.movements, s, lo, hi),
                                     MoneyOut(b.movements, s, lo, hi))];
        }
      }
    }
    LinesAreThese(b, c, lo, hi, |b.tills|);
    LinesAreTheCurrency(b, c, lo, hi);
    moneyIn, moneyOut := AddUp(lines);
  }
}
