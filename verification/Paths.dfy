/** Open paths and their lengths, for any symmetric distance (apps/maintenance/routing.py). */
module Paths {
  import opened Results

  type Point = int

  /** The straight-line distance between two points, in kilometres. */
  type Distance = (Point, Point) -> real

  ghost predicate Symmetric(km: Distance) {
    forall a, b :: km(a, b) == km(b, a)
  }

  /** The points of a day, and where it starts, if that is known. */
  datatype Map = Map(km: Distance, points: seq<Point>, start: Option<Point>)

  predicate OnMap(m: Map, order: seq<nat>) {
    forall k :: 0 <= k < |order| ==> order[k] < |m.points|
  }

  predicate StopOnMap(m: Map, a: Option<nat>) {
    a.Some? ==> a.value < |m.points|
  }

  /** The edge from one stop to the next; from the start when there is no stop before. */
  function Edge(m: Map, a: Option<nat>, b: Option<nat>): real
    requires StopOnMap(m, a) && StopOnMap(m, b)
  {
    if b.None? then 0.0
    else if a.None? then (if m.start.Some? then m.km(m.start.value, m.points[b.value]) else 0.0)
    else m.km(m.points[a.value], m.points[b.value])
  }

  /** The length of driving these stops in order, coming from `before`. */
  function Length(m: Map, before: Option<nat>, order: seq<nat>): real
    requires StopOnMap(m, before) && OnMap(m, order)
    decreases |order|
  {
    if order == [] then 0.0
    else Edge(m, before, Some(order[0])) + Length(m, Some(order[0]), order[1..])
  }

  function PathKm(m: Map, order: seq<nat>): real
    requires OnMap(m, order)
  {
    Length(m, None, order)
  }

  function Last(before: Option<nat>, order: seq<nat>): Option<nat> {
    if order == [] then before else Some(order[|order| - 1])
  }

  function First(order: seq<nat>): Option<nat> {
    if order == [] then None else Some(order[0])
  }

  /** The edges inside a stretch, whatever is before it. */
  function Inside(m: Map, order: seq<nat>): real
    requires OnMap(m, order)
  {
    if order == [] then 0.0 else Length(m, Some(order[0]), order[1..])
  }

  function Backwards(s: seq<nat>): (r: seq<nat>)
    ensures |r| == |s|
    ensures forall k :: 0 <= k < |s| ==> r[k] == s[|s| - 1 - k]
    ensures multiset(r) == multiset(s)
  {
    if s == [] then []
    else
      assert s == s[..|s| - 1] + [s[|s| - 1]];
      [s[|s| - 1]] + Backwards(s[..|s| - 1])
  }

  lemma {:induction false} LengthJoins(m: Map, before: Option<nat>, xs: seq<nat>, ys: seq<nat>)
    requires StopOnMap(m, before) && OnMap(m, xs) && OnMap(m, ys)
    ensures OnMap(m, xs + ys)
    ensures Length(m, before, xs + ys) == Length(m, before, xs) + Length(m, Last(before, xs), ys)
    decreases |xs|
  {
    if xs == [] {
      assert xs + ys == ys;
    } else {
      assert (xs + ys)[1..] == xs[1..] + ys;
      LengthJoins(m, Some(xs[0]), xs[1..], ys);
    }
  }

  lemma LengthIsEdgeAndInside(m: Map, before: Option<nat>, xs: seq<nat>)
    requires StopOnMap(m, before) && OnMap(m, xs)
    ensures Length(m, before, xs) == Edge(m, before, First(xs)) + Inside(m, xs)
  {
  }

  lemma InsideAppend(m: Map, xs: seq<nat>, last: nat)
    requires OnMap(m, xs) && last < |m.points|
    ensures OnMap(m, xs + [last])
    ensures Inside(m, xs + [last]) ==
              Inside(m, xs) + (if xs == [] then 0.0 else Edge(m, Some(xs[|xs| - 1]), Some(last)))
  {
    if xs != [] {
      assert (xs + [last])[1..] == xs[1..] + [last];
      LengthJoins(m, Some(xs[0]), xs[1..], [last]);
      assert [last][1..] == [];
    }
  }

  lemma InsidePrepend(m: Map, first: nat, xs: seq<nat>)
    requires OnMap(m, xs) && first < |m.points|
    ensures OnMap(m, [first] + xs)
    ensures Inside(m, [first] + xs) == (if xs == [] then 0.0 else Edge(m, Some(first), Some(xs[0]))) + Inside(m, xs)
  {
    assert ([first] + xs)[1..] == xs;
  }

  lemma BackwardsAppend(xs: seq<nat>, last: nat)
    ensures Backwards(xs + [last]) == [last] + Backwards(xs)
  {
    assert (xs + [last])[..|xs|] == xs;
  }

  lemma EdgeBothWays(m: Map, a: nat, b: nat)
    requires Symmetric(m.km) && a < |m.points| && b < |m.points|
    ensures Edge(m, Some(a), Some(b)) == Edge(m, Some(b), Some(a))
  {
    var x, y := m.points[a], m.points[b];
    assert m.km(x, y) == m.km(y, x);
  }

  /** Driven backwards, a stretch has the same length inside. */
  lemma {:induction false} BackwardsInside(m: Map, xs: seq<nat>)
    requires Symmetric(m.km) && OnMap(m, xs)
    ensures Inside(m, Backwards(xs)) == Inside(m, xs)
  {
    if xs != [] {
      var init, last := xs[..|xs| - 1], xs[|xs| - 1];
      assert xs == init + [last];
      BackwardsInside(m, init);
      BackwardsStep(m, init, Backwards(init), last);
      BackwardsAppend(init, last);
    }
  }

  lemma BackwardsStep(m: Map, xs: seq<nat>, back: seq<nat>, last: nat)
    requires Symmetric(m.km) && OnMap(m, xs) && OnMap(m, back) && last < |m.points|
    requires |xs| == |back| && (xs != [] ==> back[0] == xs[|xs| - 1])
    requires Inside(m, back) == Inside(m, xs)
    ensures Inside(m, [last] + back) == Inside(m, xs + [last])
  {
    hide Inside;
    InsideAppend(m, xs, last);
    InsidePrepend(m, last, back);
    if xs != [] {
      EdgeBothWays(m, xs[|xs| - 1], last);
    }
  }

  function Reversal(order: seq<nat>, i: nat, j: nat): (r: seq<nat>)
    requires i <= j < |order|
    ensures |r| == |order|
  {
    order[..i] + Backwards(order[i..j + 1]) + order[j + 1..]
  }

  function Before(order: seq<nat>, i: nat): Option<nat>
    requires i < |order|
  {
    if i > 0 then Some(order[i - 1]) else None
  }

  function AfterStop(order: seq<nat>, j: nat): Option<nat>
    requires j < |order|
  {
    if j + 1 < |order| then Some(order[j + 1]) else None
  }

  /** Reversing the stretch from i to j changes its two outer edges only: what that saves. */
  function Gain(m: Map, order: seq<nat>, i: nat, j: nat): real
    requires OnMap(m, order) && i <= j < |order|
  {
    Edge(m, Before(order, i), Some(order[i])) + Edge(m, Some(order[j]), AfterStop(order, j))
    - Edge(m, Before(order, i), Some(order[j])) - Edge(m, Some(order[i]), AfterStop(order, j))
  }

  /** The gain worked out from two edges is exactly what the whole path gets shorter by. */
  lemma GainIsExact(m: Map, order: seq<nat>, i: nat, j: nat)
    requires Symmetric(m.km) && OnMap(m, order) && i <= j < |order|
    ensures OnMap(m, Reversal(order, i, j))
    ensures PathKm(m, Reversal(order, i, j)) == PathKm(m, order) - Gain(m, order, i, j)
    ensures multiset(Reversal(order, i, j)) == multiset(order)
  {
    var head, mid, tail := order[..i], order[i..j + 1], order[j + 1..];
    var back := Backwards(mid);
    assert order == head + mid + tail;
    assert back[0] == order[j] && back[|back| - 1] == order[i];
    assert mid[0] == order[i] && mid[|mid| - 1] == order[j];
    assert Last(None, head) == Before(order, i) && First(tail) == AfterStop(order, j);
    ThreeParts(m, head, mid, tail);
    ThreeParts(m, head, back, tail);
    BackwardsInside(m, mid);
  }

  lemma ThreeParts(m: Map, head: seq<nat>, mid: seq<nat>, tail: seq<nat>)
    requires OnMap(m, head) && OnMap(m, mid) && OnMap(m, tail) && mid != []
    ensures OnMap(m, head + mid + tail)
    ensures PathKm(m, head + mid + tail) ==
              PathKm(m, head) + Edge(m, Last(None, head), First(mid)) + Inside(m, mid)
              + Edge(m, Last(None, mid), First(tail)) + Inside(m, tail)
  {
    LengthJoins(m, None, head + mid, tail);
    LengthJoins(m, None, head, mid);
    LengthIsEdgeAndInside(m, Last(None, head), mid);
    LengthIsEdgeAndInside(m, Last(None, mid), tail);
    assert (head + mid)[|head + mid| - 1] == mid[|mid| - 1];
  }
}
