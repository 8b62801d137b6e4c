/**
 * Opening first: a side has at most one live opening balance, and nothing that
 * still stands on it is dated before that opening, in whatever order openings,
 * postings and cancellations arrived.
 */
module Openings {
  import opened Results
  import opened Books
  import opened Posting
  import opened Services
  import Reversal

  ghost predicate OneOpening(papers: seq<Paper>) {
    forall p, q, s :: 0 <= p < |papers| && 0 <= q < |papers| && LiveOpening(papers[p], s) && LiveOpening(papers[q], s)
      ==> p == q
  }

  predicate StandsOn(ms: seq<Movement>, k: nat, s: Side) {
    k < |ms| && ms[k].reverses.None? && !Reversed(ms, k) && Touches(ms[k], s)
  }

  ghost predicate OpeningsFirst(papers: seq<Paper>, ms: seq<Movement>) {
    forall p: nat, k: nat, s: Side :: p < |papers| && LiveOpening(papers[p], s) && StandsOn(ms, k, s) ==>
      papers[p].date <= ms[k].date
  }

  ghost predicate OpeningInv(b: Books) {
    OneOpening(b.papers) && OpeningsFirst(b.papers, b.movements)
  }

  lemma StandsBefore(ms: seq<Movement>, ns: seq<Movement>, k: nat, s: Side)
    requires ms <= ns && StandsOn(ns, k, s) && k < |ms|
    ensures StandsOn(ms, k, s)
  {
    assert forall j :: 0 <= j < |ms| ==> ns[j] == ms[j];
  }

  /** Mirrors are never held to an opening's date: they cancel, they do not stand. */
  lemma MirrorsKeepOpenings(papers: seq<Paper>, ms: seq<Movement>, ns: seq<Movement>)
    requires OpeningsFirst(papers, ms) && ms <= ns
    requires forall j :: |ms| <= j < |ns| ==> ns[j].reverses.Some?
    ensures OpeningsFirst(papers, ns)
  {
    forall p: nat, k: nat, s: Side | p < |papers| && LiveOpening(papers[p], s) && StandsOn(ns, k, s)
      ensures papers[p].date <= ns[k].date
    {
      StandsBefore(ms, ns, k, s);
    }
  }

  lemma PostKeepsOpenings(papers: seq<Paper>, ms: seq<Movement>, m: Movement)
    requires OpeningsFirst(papers, ms)
    requires !BeforeAnOpening(papers, m)
    ensures OpeningsFirst(papers, ms + [m])
  {
    var ns := ms + [m];
    forall p: nat, k: nat, s: Side | p < |papers| && LiveOpening(papers[p], s) && StandsOn(ns, k, s)
      ensures papers[p].date <= ns[k].date
    {
      if k < |ms| {
        StandsBefore(ms, ns, k, s);
      } else {
        assert ns[k] == m;
        assert !LaterOpening(papers, s, m.date);
      }
    }
  }

  lemma {:induction false} LegsKeepOpenings(b: Books, p: Paper, r: DocumentRef, legs: seq<(PartyLeg, CashLeg)>)
    requires OpeningsFirst(b.papers, b.movements)
    requires PaperSource(p.kind) != OpeningSource
    requires PostLegs(b, p, r, legs).Ok?
    ensures OpeningsFirst(b.papers, PostLegs(b, p, r, legs).value.movements)
    ensures OnlyAppendsMovements(b, PostLegs(b, p, r, legs).value)
    decreases |legs|
  {
    if legs != [] {
      var m := LegMovement(p, r, legs[0]);
      PostKeepsOpenings(b.papers, b.movements, m);
      LegsKeepOpenings(Post(b, m).value, p, r, legs[1..]);
    }
  }

  lemma PapersExtended(papers: seq<Paper>, p: Paper, ms: seq<Movement>)
    requires OneOpening(papers) && OpeningsFirst(papers, ms)
    requires PaperSource(p.kind) != OpeningSource
    ensures OneOpening(papers + [p]) && OpeningsFirst(papers + [p], ms)
  {
    var all := papers + [p];
    forall q: nat, k: nat, s: Side | q < |all| && LiveOpening(all[q], s) && StandsOn(ms, k, s)
      ensures all[q].date <= ms[k].date
    {
      assert q < |papers| && all[q] == papers[q];
    }
  }

  /** Any other paper posted leaves the openings first. */
  lemma PaperKeepsOpenings(b: Books, p: Paper)
    requires OpeningInv(b) && PaperSource(p.kind) != OpeningSource
    requires Record(b, p).Ok?
    ensures OpeningInv(Record(b, p).value)
  {
    PapersExtended(b.papers, p, b.movements);
    LegsKeepOpenings(b.(papers := b.papers + [p]), p, PaperRef(|b.papers|), Legs(p.kind));
  }

  /** The guards of record_opening are exactly what a new opening needs to be first. */
  lemma OpeningPosted(b: Books, p: Paper, s: Side)
    requires OpeningInv(b)
    requires LiveOpening(p, s)
    requires !AnyLiveOpening(b.papers, s) && !AnythingBefore(b.movements, s, p.date)
    requires Record(b, p).Ok?
    ensures OpeningInv(Record(b, p).value)
  {
    var created := b.(papers := b.papers + [p]);
    var r := PaperRef(|b.papers|);
    var legs := Legs(p.kind);
    assert legs == [legs[0]] && legs[1..] == [];
    var m := LegMovement(p, r, legs[0]);
    var c := Record(b, p).value;
    var next := Post(created, m).value;
    assert PostLegs(next, p, r, []) == Ok(next);
    assert c.movements == b.movements + [m];
    forall q: nat, k: nat, t: Side | q < |c.papers| && LiveOpening(c.papers[q], t) && StandsOn(c.movements, k, t)
      ensures c.papers[q].date <= c.movements[k].date
    {
      if k < |b.movements| {
        StandsBefore(b.movements, c.movements, k, t);
      }
    }
  }

  lemma CancelKeepsOpenings(b: Books, p: Id)
    requires OpeningInv(b) && p < |b.papers|
    requires StampCancelled(b, p).Ok?
    ensures OpeningInv(StampCancelled(b, p).value)
  {
    var c := StampCancelled(b, p).value;
    ReverseKeepsOpenings(b, PaperRef(p), ReversalSource);
    forall q: nat, k: nat, s: Side | q < |c.papers| && LiveOpening(c.papers[q], s) && StandsOn(c.movements, k, s)
      ensures c.papers[q].date <= c.movements[k].date
    {
      assert LiveOpening(b.papers[q], s);
    }
  }

  lemma ReverseKeepsOpenings(b: Books, r: DocumentRef, source: Source)
    requires OpeningsFirst(b.papers, b.movements)
    requires ReverseDocument(b, r, b.today, source).Ok?
    ensures OpeningsFirst(b.papers, ReverseDocument(b, r, b.today, source).value.movements)
  {
    var ms := b.movements;
    var made := Mirrors(ms, r, |ms|, b.today, source);
    Reversal.MirrorsShape(ms, r, |ms|, b.today, source);
    forall j | |ms| <= j < |ms + made|
      ensures (ms + made)[j].reverses.Some?
    {
      assert (ms + made)[j] == made[j - |ms|] && made[j - |ms|] in made;
    }
    MirrorsKeepOpenings(b.papers, ms, ms + made);
  }
}
