/**
 * Reversal is an inverse: whatever happened before, reversing a document brings
 * its contribution to every account, till and currency back to zero.
 */
module Reversal {
  import opened Results
  import opened Sums
  import opened Books
  import opened Posting

  predicate IsMirrorOf(m: Movement, k: nat, original: Movement) {
    && original.reverses.None?
    && m.reverses == Some(k)
    && m.document == original.document
    && m.party == FlipParty(original.party)
    && m.cash == FlipCash(original.cash)
    && m.amount == original.amount
    && m.currency == original.currency
    && MirrorSource(m.source)
  }

  /** The sources a mirror can have; no original has one of them. */
  predicate MirrorSource(source: Source) {
    source == ReversalSource || source == InvoiceCancelSource
  }

  /** Every mirror flips an earlier original, and no original is mirrored twice. */
  ghost predicate WellMirrored(ms: seq<Movement>) {
    && (forall j :: 0 <= j < |ms| ==> ms[j].amount > 0)
    && (forall j :: 0 <= j < |ms| && ms[j].reverses.Some? ==>
          ms[j].reverses.value < j && IsMirrorOf(ms[j], ms[j].reverses.value, ms[ms[j].reverses.value]))
    && (forall i, j :: 0 <= i < j < |ms| && ms[i].reverses.Some? ==> ms[i].reverses != ms[j].reverses)
  }

  lemma MirrorNegates(m: Movement, k: nat, original: Movement, s: Side)
    requires IsMirrorOf(m, k, original)
    ensures SignedOn(m, s) == -SignedOn(original, s)
  {
  }

  // Appending ----------------------------------------------------------------------

  lemma BalanceAppend(ms: seq<Movement>, m: Movement, s: Side)
    ensures Balance(ms + [m], s) == Balance(ms, s) + SignedOn(m, s)
  {
    SumCongruent(|ms|, Signed(ms, s), Signed(ms + [m], s));
  }

  lemma NetAppend(ms: seq<Movement>, m: Movement, r: DocumentRef, s: Side)
    ensures Net(ms + [m], r, s) == Net(ms, r, s) + (if m.document == r then SignedOn(m, s) else 0)
  {
    SumCongruent(|ms|, SignedOf(ms, r, s), SignedOf(ms + [m], r, s));
  }

  lemma ReversedAppend(ms: seq<Movement>, m: Movement, k: nat)
    ensures Reversed(ms + [m], k) <==> Reversed(ms, k) || m.reverses == Some(k)
  {
    var ns := ms + [m];
    if Reversed(ms, k) {
      var j :| 0 <= j < |ms| && ms[j].reverses == Some(k);
      assert ns[j].reverses == Some(k);
    }
    if m.reverses == Some(k) {
      assert ns[|ms|].reverses == Some(k);
    }
  }

  // Net against standing -------------------------------------------------------------

  ghost function StandingOf(ms: seq<Movement>, r: DocumentRef, s: Side): nat -> int {
    (i: nat) => if Standing(ms, r, i) then SignedOn(ms[i], s) else 0
  }

  /** What the standing originals of a document add, among the first n movements. */
  ghost function StandingNet(ms: seq<Movement>, r: DocumentRef, s: Side, n: nat): int {
    SumTo(n, StandingOf(ms, r, s))
  }

  lemma StandingAppend(ms: seq<Movement>, m: Movement, r: DocumentRef, s: Side)
    requires WellMirrored(ms + [m])
    ensures StandingNet(ms + [m], r, s, |ms| + 1)
         == StandingNet(ms, r, s, |ms|) + (if m.document == r then SignedOn(m, s) else 0)
  {
    var ns := ms + [m];
    var n := |ms|;
    var f, g := StandingOf(ms, r, s), StandingOf(ns, r, s);
    assert ns[n] == m;
    assert !Reversed(ns, n);
    forall i: nat | i < n && m.reverses != Some(i)
      ensures f(i) == g(i)
    {
      ReversedAppend(ms, m, i);
      assert ns[i] == ms[i];
    }
    if m.reverses.None? {
      SumCongruent(n, f, g);
    } else {
      var k := m.reverses.value;
      assert IsMirrorOf(ns[n], k, ns[k]);
      MirrorNegates(m, k, ms[k], s);
      ReversedAppend(ms, m, k);
      assert forall j :: 0 <= j < n ==> ms[j].reverses == ns[j].reverses;
      assert !Reversed(ms, k);
      SumChange(n, f, g, k);
    }
  }

  lemma WellMirroredPrefix(ms: seq<Movement>, n: nat)
    requires WellMirrored(ms) && n <= |ms|
    ensures WellMirrored(ms[..n])
  {
  }

  /** A document's net effect is that of its standing originals: mirrored pairs cancel. */
  lemma {:induction false} NetIsStanding(ms: seq<Movement>, r: DocumentRef, s: Side)
    requires WellMirrored(ms)
    ensures Net(ms, r, s) == StandingNet(ms, r, s, |ms|)
  {
    if |ms| > 0 {
      var n := |ms| - 1;
      WellMirroredPrefix(ms, n);
      NetIsStanding(ms[..n], r, s);
      assert ms == ms[..n] + [ms[n]];
      StandingAppend(ms[..n], ms[n], r, s);
      NetAppend(ms[..n], ms[n], r, s);
    }
  }

  // Mirroring a document ---------------------------------------------------------------

  lemma AppendMirrorWell(ms: seq<Movement>, m: Movement, k: nat)
    requires WellMirrored(ms)
    requires k < |ms| && IsMirrorOf(m, k, ms[k]) && !Reversed(ms, k)
    ensures WellMirrored(ms + [m])
  {
    var ns := ms + [m];
    var n := |ms|;
    forall j | 0 <= j < |ns| && ns[j].reverses.Some?
      ensures ns[j].reverses.value < j && IsMirrorOf(ns[j], ns[j].reverses.value, ns[ns[j].reverses.value])
    {
      if j < n {
        assert ns[j] == ms[j];
      }
    }
    forall i, j | 0 <= i < j < |ns| && ns[i].reverses.Some?
      ensures ns[i].reverses != ns[j].reverses
    {
      assert ns[i] == ms[i];
      if j < n {
        assert ns[j] == ms[j];
      }
    }
  }

  function Mirrored(ms: seq<Movement>, r: DocumentRef, n: nat, date: Day, source: Source): seq<Movement>
    requires n <= |ms|
  {
    ms + Mirrors(ms, r, n, date, source)
  }

  lemma MirroredUnfolds(ms: seq<Movement>, r: DocumentRef, n: nat, date: Day, source: Source)
    requires n <= |ms|
    ensures ms <= Mirrored(ms, r, n, date, source)
    ensures n == 0 ==> Mirrored(ms, r, n, date, source) == ms
    ensures n > 0 && !Standing(ms, r, n - 1) ==>
              Mirrored(ms, r, n, date, source) == Mirrored(ms, r, n - 1, date, source)
    ensures n > 0 && Standing(ms, r, n - 1) ==>
              Mirrored(ms, r, n, date, source) ==
              Mirrored(ms, r, n - 1, date, source) + [Mirror(ms[n - 1], n - 1, date, source)]
  {
  }

  /** Mirrors reverse just the standing originals they were made from. */
  lemma {:induction false} MirrorsReverse(ms: seq<Movement>, r: DocumentRef, n: nat, date: Day, source: Source, k: nat)
    requires n <= |ms|
    ensures Reversed(Mirrored(ms, r, n, date, source), k) <==> Reversed(ms, k) || (k < n && Standing(ms, r, k))
  {
    MirroredUnfolds(ms, r, n, date, source);
    if n > 0 {
      MirrorsReverse(ms, r, n - 1, date, source, k);
      if Standing(ms, r, n - 1) {
        ReversedAppend(Mirrored(ms, r, n - 1, date, source), Mirror(ms[n - 1], n - 1, date, source), k);
      }
    }
  }

  /** A standing original can be mirrored next: it is where it was, and not yet reversed. */
  lemma StandingMirrored(ms: seq<Movement>, r: DocumentRef, k: nat, date: Day, source: Source)
    requires Standing(ms, r, k) && MirrorSource(source)
    ensures var so := Mirrored(ms, r, k, date, source);
            k < |so| && so[k] == ms[k] && !Reversed(so, k) && IsMirrorOf(Mirror(ms[k], k, date, source), k, so[k])
  {
    MirroredUnfolds(ms, r, k, date, source);
    MirrorsReverse(ms, r, k, date, source, k);
  }

  /** Mirrors of the first n movements keep the books well mirrored. */
  lemma {:induction false} MirrorsWell(ms: seq<Movement>, r: DocumentRef, n: nat, date: Day, source: Source)
    requires WellMirrored(ms) && n <= |ms| && MirrorSource(source)
    ensures WellMirrored(Mirrored(ms, r, n, date, source))
  {
    MirroredUnfolds(ms, r, n, date, source);
    if n > 0 {
      MirrorsWell(ms, r, n - 1, date, source);
      if Standing(ms, r, n - 1) {
        StandingMirrored(ms, r, n - 1, date, source);
        AppendMirrorWell(Mirrored(ms, r, n - 1, date, source), Mirror(ms[n - 1], n - 1, date, source), n - 1);
      }
    }
  }

  lemma {:induction false} MirrorsNet(ms: seq<Movement>, r: DocumentRef, n: nat, date: Day, source: Source,
                                      other: DocumentRef, s: Side)
    requires n <= |ms| && MirrorSource(source)
    ensures Net(Mirrored(ms, r, n, date, source), other, s)
         == Net(ms, other, s) - (if other == r then StandingNet(ms, r, s, n) else 0)
  {
    MirroredUnfolds(ms, r, n, date, source);
    if n > 0 {
      MirrorsNet(ms, r, n - 1, date, source, other, s);
      if Standing(ms, r, n - 1) {
        var m := Mirror(ms[n - 1], n - 1, date, source);
        NetAppend(Mirrored(ms, r, n - 1, date, source), m, other, s);
        MirrorNegates(m, n - 1, ms[n - 1], s);
      }
    }
  }

  predicate MadeFrom(ms: seq<Movement>, r: DocumentRef, n: nat, date: Day, source: Source, m: Movement) {
    && m.reverses.Some?
    && m.reverses.value < n
    && Standing(ms, r, m.reverses.value)
    && m == Mirror(ms[m.reverses.value], m.reverses.value, date, source)
  }

  lemma {:induction false} MirrorsShape(ms: seq<Movement>, r: DocumentRef, n: nat, date: Day, source: Source)
    requires n <= |ms|
    ensures forall m :: m in Mirrors(ms, r, n, date, source) ==> MadeFrom(ms, r, n, date, source, m)
  {
    if n > 0 {
      MirrorsShape(ms, r, n - 1, date, source);
    }
  }

  lemma {:induction false} MirrorsComplete(ms: seq<Movement>, r: DocumentRef, n: nat, date: Day, source: Source)
    requires n <= |ms|
    ensures forall k: nat :: k < n && Standing(ms, r, k) ==>
              Mirror(ms[k], k, date, source) in Mirrors(ms, r, n, date, source)
  {
    hide Standing, Mirror;
    if n > 0 {
      MirrorsComplete(ms, r, n - 1, date, source);
    }
  }

  predicate InOrder(made: seq<Movement>, n: nat) {
    && (forall i :: 0 <= i < |made| ==> Reverses(made[i]) < n)
    && forall i, j :: 0 <= i < j < |made| ==> Reverses(made[i]) < Reverses(made[j])
  }

  lemma {:induction false} MirrorsInOrder(ms: seq<Movement>, r: DocumentRef, n: nat, date: Day, source: Source)
    requires n <= |ms|
    ensures InOrder(Mirrors(ms, r, n, date, source), n)
  {
    hide Standing;
    if n > 0 {
      MirrorsInOrder(ms, r, n - 1, date, source);
      var before, made := Mirrors(ms, r, n - 1, date, source), Mirrors(ms, r, n, date, source);
      assert made == before || made == before + [Mirror(ms[n - 1], n - 1, date, source)];
      forall i | 0 <= i < |made|
        ensures Reverses(made[i]) < n
      {
        assert i < |before| ==> made[i] == before[i];
      }
      forall i, j | 0 <= i < j < |made|
        ensures Reverses(made[i]) < Reverses(made[j])
      {
        assert made[i] == before[i];
        assert j < |before| ==> made[j] == before[j];
      }
    }
  }

  function Reverses(m: Movement): int {
    if m.reverses.Some? then m.reverses.value else -1
  }

  /** What a reversal writes: one mirror of each movement of the document that stands, in their order, dated as asked, and
      nothing else. A plain reversal is refused exactly when none stands or the day is not open. */
  lemma ReversesExactly(b: Books, r: DocumentRef, date: Day, source: Source)
    requires MirrorSource(source)
    ensures ReverseDocument(b, r, date, source).Ok? ==>
              exists made :: IsReversal(b.movements, r, date, source, made)
                             && ReverseDocument(b, r, date, source).value == b.(movements := b.movements + made)
    ensures source == ReversalSource ==>
              (ReverseDocument(b, r, date, source).Ok? <==>
                 && AnyStanding(b.movements, r)
                 && date <= b.today && (b.closedThrough.Some? ==> b.closedThrough.value < date))
    ensures !AnyStanding(b.movements, r) ==> ReverseDocument(b, r, date, source) == Refused(AlreadyReversed)
  {
    MirrorsShape(b.movements, r, |b.movements|, date, source);
    MirrorsComplete(b.movements, r, |b.movements|, date, source);
    MirrorsInOrder(b.movements, r, |b.movements|, date, source);
    assert IsReversal(b.movements, r, date, source, Mirrors(b.movements, r, |b.movements|, date, source));
    hide IsReversal, Mirrors, Standing;
  }

  ghost predicate IsReversal(ms: seq<Movement>, r: DocumentRef, date: Day, source: Source, made: seq<Movement>) {
    && (forall m :: m in made ==> MadeFrom(ms, r, |ms|, date, source, m))
    && (forall k: nat :: k < |ms| && Standing(ms, r, k) ==> Mirror(ms[k], k, date, source) in made)
    && InOrder(made, |ms|)
  }

  /**
   * Reversal is an inverse. After a document is reversed it adds nothing to any
   * side, nothing of it is left to reverse, and no other document's part moves.
   */
  lemma ReversalIsInverse(b: Books, r: DocumentRef, date: Day, source: Source)
    requires WellMirrored(b.movements)
    requires ReverseDocument(b, r, date, source).Ok?
    ensures var after := ReverseDocument(b, r, date, source).value.movements;
            && WellMirrored(after)
            && (forall s: Side :: Net(after, r, s) == 0)
            && (forall s: Side, other: DocumentRef :: other != r ==> Net(after, other, s) == Net(b.movements, other, s))
            && !AnyStanding(after, r)
  {
    var ms := b.movements;
    var after := ReverseDocument(b, r, date, source).value.movements;
    MirrorsWell(ms, r, |ms|, date, source);
    forall s: Side, other: DocumentRef
      ensures Net(after, other, s) == if other == r then 0 else Net(ms, other, s)
    {
      MirrorsNet(ms, r, |ms|, date, source, other, s);
      NetIsStanding(ms, r, s);
    }
    forall k | 0 <= k < |after|
      ensures !Standing(after, r, k)
    {
      NothingLeft(ms, r, date, source, k);
    }
  }

  lemma {:induction false} MirrorsBalance(ms: seq<Movement>, r: DocumentRef, n: nat, date: Day, source: Source, s: Side)
    requires n <= |ms| && MirrorSource(source)
    ensures Balance(Mirrored(ms, r, n, date, source), s) == Balance(ms, s) - StandingNet(ms, r, s, n)
  {
    MirroredUnfolds(ms, r, n, date, source);
    if n > 0 {
      MirrorsBalance(ms, r, n - 1, date, source, s);
      if Standing(ms, r, n - 1) {
        var m := Mirror(ms[n - 1], n - 1, date, source);
        BalanceAppend(Mirrored(ms, r, n - 1, date, source), m, s);
        MirrorNegates(m, n - 1, ms[n - 1], s);
      }
    }
  }

  /** A reversal takes off every balance what the document had put on it. */
  lemma ReversalMovesBalance(b: Books, r: DocumentRef, date: Day, source: Source, s: Side)
    requires WellMirrored(b.movements) && ReverseDocument(b, r, date, source).Ok?
    ensures Balance(ReverseDocument(b, r, date, source).value.movements, s) ==
            Balance(b.movements, s) - Net(b.movements, r, s)
  {
    MirrorsBalance(b.movements, r, |b.movements|, date, source, s);
    NetIsStanding(b.movements, r, s);
  }

  lemma NothingLeft(ms: seq<Movement>, r: DocumentRef, date: Day, source: Source, k: nat)
    requires WellMirrored(ms) && MirrorSource(source)
    ensures !Standing(ms + Mirrors(ms, r, |ms|, date, source), r, k)
  {
    var made := Mirrors(ms, r, |ms|, date, source);
    MirrorsReverse(ms, r, |ms|, date, source, k);
    if k < |ms| {
      assert (ms + made)[k] == ms[k];
    } else if k < |ms + made| {
      MirrorsShape(ms, r, |ms|, date, source);
      assert (ms + made)[k] == made[k - |ms|];
      assert made[k - |ms|] in made;
    }
  }

  /** A second reversal of the same document is refused. */
  lemma ReversedOnce(b: Books, r: DocumentRef, date: Day, source: Source, again: Day)
    requires WellMirrored(b.movements)
    requires ReverseDocument(b, r, date, source).Ok?
    ensures ReverseDocument(ReverseDocument(b, r, date, source).value, r, again, source) == Refused(AlreadyReversed)
  {
    ReversalIsInverse(b, r, date, source);
  }
}
