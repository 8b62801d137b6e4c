/** Ordering the stops of a day: nearest neighbour, then 2-opt (apps/maintenance/routing.py). */
module Routing {
  import opened Results
  import opened Paths

  const MAX_IMPROVEMENT_PASSES: nat := 200
  const MAX_FIRST_STOPS: nat := 12
  const TOLERANCE: real := 0.000000001

  // Nearest neighbour -----------------------------------------------------------------

  function UpTo(n: nat): (r: seq<nat>)
    ensures |r| == n && forall k :: 0 <= k < n ==> r[k] == k
  {
    seq(n, k => k)
  }

  predicate Ascending(s: seq<nat>) {
    forall i, j :: 0 <= i < j < |s| ==> s[i] < s[j]
  }

  /** From `before`, stop x is nearer than y, or as near and given earlier. */
  predicate Preferred(m: Map, before: Option<nat>, x: nat, y: nat)
    requires StopOnMap(m, before) && x < |m.points| && y < |m.points|
  {
    var kx, ky := Edge(m, before, Some(x)), Edge(m, before, Some(y));
    kx < ky || (kx == ky && x <= y)
  }

  /** Every stop but perhaps the first is preferred to all that come after it. */
  ghost predicate Greedy(m: Map, order: seq<nat>, free: nat)
    requires OnMap(m, order)
  {
    forall i, j :: free <= i < j < |order| ==> Preferred(m, Before(order, i), order[i], order[j])
  }

  method Nearest(m: Map, before: Option<nat>, remaining: seq<nat>) returns (at: nat)
    requires StopOnMap(m, before) && OnMap(m, remaining) && remaining != [] && Ascending(remaining)
    ensures at < |remaining|
    ensures forall k :: 0 <= k < |remaining| ==> Preferred(m, before, remaining[at], remaining[k])
  {
    at := 0;
    for k := 1 to |remaining|
      invariant at < |remaining| && at < k
      invariant forall x :: 0 <= x < k ==> Preferred(m, before, remaining[at], remaining[x])
    {
      if Edge(m, before, Some(remaining[k])) < Edge(m, before, Some(remaining[at])) {
        at := k;
      }
    }
  }

  function Without(s: seq<nat>, at: nat): seq<nat>
    requires at < |s|
  {
    s[..at] + s[at + 1..]
  }

  ghost predicate AllPreferred(m: Map, order: seq<nat>, free: nat, remaining: seq<nat>)
    requires OnMap(m, order) && OnMap(m, remaining)
  {
    forall i, x :: free <= i < |order| && 0 <= x < |remaining| ==>
      Preferred(m, Before(order, i), order[i], remaining[x])
  }

  /** What the stops before keep when another is appended. */
  lemma BeforeAppended(order: seq<nat>, next: nat, i: nat)
    requires i <= |order|
    ensures Before(order + [next], i) == (if i < |order| then Before(order, i) else Last(None, order))
  {
  }

  lemma GreedyAppend(m: Map, order: seq<nat>, free: nat, next: nat)
    requires OnMap(m, order) && next < |m.points| && Greedy(m, order, free)
    requires forall i :: free <= i < |order| ==> Preferred(m, Before(order, i), order[i], next)
    ensures OnMap(m, order + [next])
    ensures Greedy(m, order + [next], free)
  {
    var more := order + [next];
    forall i, j | free <= i < j < |more|
      ensures Preferred(m, Before(more, i), more[i], more[j])
    {
      BeforeAppended(order, next, i);
      assert more[i] == order[i];
      if j < |order| {
        assert more[j] == order[j];
      }
    }
  }

  lemma PreferredToTheRest(m: Map, order: seq<nat>, free: nat, remaining: seq<nat>, at: nat)
    requires OnMap(m, order) && OnMap(m, remaining) && at < |remaining|
    requires AllPreferred(m, order, free, remaining)
    requires forall k :: 0 <= k < |remaining| ==> Preferred(m, Last(None, order), remaining[at], remaining[k])
    ensures OnMap(m, order + [remaining[at]]) && OnMap(m, Without(remaining, at))
    ensures AllPreferred(m, order + [remaining[at]], free, Without(remaining, at))
  {
    var more, less := order + [remaining[at]], Without(remaining, at);
    forall i, x | free <= i < |more| && 0 <= x < |less|
      ensures Preferred(m, Before(more, i), more[i], less[x])
    {
      var y := if x < at then x else x + 1;
      assert less[x] == remaining[y];
      BeforeAppended(order, remaining[at], i);
      if i < |order| {
        assert Preferred(m, Before(order, i), order[i], remaining[y]);
      }
    }
  }

  lemma WithoutOne(remaining: seq<nat>, at: nat)
    requires at < |remaining|
    ensures multiset(remaining) == multiset(Without(remaining, at)) + multiset{remaining[at]}
    ensures Ascending(remaining) ==> Ascending(Without(remaining, at))
  {
    assert remaining == remaining[..at] + [remaining[at]] + remaining[at + 1..];
  }

  /** The loop invariant of the nearest-neighbour search. */
  ghost predicate Growing(m: Map, order: seq<nat>, free: nat, remaining: seq<nat>) {
    && OnMap(m, order) && OnMap(m, remaining) && Ascending(remaining)
    && multiset(order) + multiset(remaining) == multiset(UpTo(|m.points|))
    && free <= |order|
    && Greedy(m, order, free) && AllPreferred(m, order, free, remaining)
  }

  lemma GrowingStep(m: Map, order: seq<nat>, free: nat, remaining: seq<nat>, at: nat)
    requires Growing(m, order, free, remaining) && at < |remaining|
    requires forall k :: 0 <= k < |remaining| ==> Preferred(m, Last(None, order), remaining[at], remaining[k])
    ensures Growing(m, order + [remaining[at]], free, Without(remaining, at))
  {
    forall i | free <= i < |order|
      ensures Preferred(m, Before(order, i), order[i], remaining[at])
    {
    }
    GreedyAppend(m, order, free, remaining[at]);
    PreferredToTheRest(m, order, free, remaining, at);
    WithoutOne(remaining, at);
  }

  lemma GrowingFrom(m: Map, first: nat)
    requires first < |m.points|
    ensures Growing(m, [first], 1, Without(UpTo(|m.points|), first))
  {
    var all := UpTo(|m.points|);
    WithoutOne(all, first);
    assert multiset([first]) == multiset{first};
  }

  /** Every stop once, the first as given, and each next one the nearest of those left. */
  ghost predicate NearestOrder(m: Map, first: Option<nat>, order: seq<nat>) {
    && OnMap(m, order)
    && multiset(order) == multiset(UpTo(|m.points|))
    && (first.Some? ==> order != [] && order[0] == first.value)
    && Greedy(m, order, if first.Some? then 1 else 0)
  }

  method NearestNeighbour(m: Map, first: Option<nat>) returns (order: seq<nat>)
    requires first.Some? ==> first.value < |m.points|
    requires first.Some? || m.start.Some? || m.points == []
    ensures NearestOrder(m, first, order)
  {
    var remaining := UpTo(|m.points|);
    order := [];
    ghost var free := if first.Some? then 1 else 0;
    if first.Some? {
      GrowingFrom(m, first.value);
      order := [first.value];
      remaining := Without(remaining, first.value);
    }
    while remaining != []
      invariant Growing(m, order, free, remaining)
      invariant first.Some? ==> |order| > 0 && order[0] == first.value
      decreases |remaining|
    {
      var at := Nearest(m, Last(None, order), remaining);
      GrowingStep(m, order, free, remaining, at);
      order := order + [remaining[at]];
      remaining := Without(remaining, at);
    }
  }

  // 2-opt ---------------------------------------------------------------------------

  /** No reversal of a stretch of this path saves more than the tolerance. */
  ghost predicate NothingToGain(m: Map, order: seq<nat>)
    requires OnMap(m, order)
  {
    forall i, j :: 0 <= i < j < |order| ==> Gain(m, order, i, j) <= 0.000000001
  }

  /** A reordering of the path, shorter than it by exactly what was saved. */
  ghost predicate Shortened(m: Map, order: seq<nat>, best: seq<nat>, saved: real)
    requires OnMap(m, order)
  {
    && OnMap(m, best) && multiset(best) == multiset(order) && |best| == |order|
    && PathKm(m, best) == PathKm(m, order) - saved
    && 0.0 <= saved && (best != order ==> saved > 0.000000001)
  }

  ghost predicate RowSettled(m: Map, best: seq<nat>, i: nat, end: nat)
    requires OnMap(m, best)
  {
    forall j :: i < j < end && j < |best| ==> Gain(m, best, i, j) <= TOLERANCE
  }

  ghost predicate RowsSettled(m: Map, best: seq<nat>, end: nat)
    requires OnMap(m, best)
  {
    forall i :: 0 <= i < end && i < |best| ==> RowSettled(m, best, i, |best|)
  }

  lemma SettledIsOptimal(m: Map, best: seq<nat>, end: nat)
    requires OnMap(m, best) && |best| <= end + 1 && RowsSettled(m, best, end)
    ensures NothingToGain(m, best)
  {
    forall x, y | 0 <= x < y < |best|
      ensures Gain(m, best, x, y) <= TOLERANCE
    {
      assert RowSettled(m, best, x, |best|);
    }
  }

  lemma ReversalShortens(m: Map, order: seq<nat>, best: seq<nat>, saved: real, i: nat, j: nat)
    requires Symmetric(m.km) && OnMap(m, order) && Shortened(m, order, best, saved)
    requires i <= j < |best| && Gain(m, best, i, j) > TOLERANCE
    ensures Shortened(m, order, Reversal(best, i, j), saved + Gain(m, best, i, j))
    ensures i > 0 ==> Reversal(best, i, j)[i - 1] == best[i - 1]
  {
    GainIsExact(m, best, i, j);
  }

  /** 2-opt: reversals that gain more than the tolerance, until no one is left or the passes run out, each of which has
      then gained. */
  method TwoOpt(m: Map, order: seq<nat>) returns (best: seq<nat>, passes: nat, ghost saved: real)
    requires Symmetric(m.km) && OnMap(m, order)
    ensures Shortened(m, order, best, saved)
    ensures passes <= 200
    ensures NothingToGain(m, best) || (passes == 200 && saved > 200.0 * 0.000000001)
  {
    best, passes, saved := order, 0, 0.0;
    while passes < MAX_IMPROVEMENT_PASSES
      invariant Shortened(m, order, best, saved)
      invariant passes <= MAX_IMPROVEMENT_PASSES
      invariant saved >= passes as real * TOLERANCE && (passes > 0 ==> saved > passes as real * TOLERANCE)
      decreases MAX_IMPROVEMENT_PASSES - passes
    {
      var improved := false;
      passes := passes + 1;
      var i := 0;
      while i + 1 < |best|
        invariant Shortened(m, order, best, saved)
        invariant 0 <= i
        invariant saved >= (if improved then passes else passes - 1) as real * TOLERANCE
        invariant improved ==> saved > passes as real * TOLERANCE
        invariant !improved ==> RowsSettled(m, best, i)
        decreases |best| - i
      {
        var before := Before(best, i);
        var j := i + 1;
        while j < |best|
          invariant Shortened(m, order, best, saved)
          invariant i + 1 <= j <= |best|
          invariant saved >= (if improved then passes else passes - 1) as real * TOLERANCE
          invariant improved ==> saved > passes as real * TOLERANCE
          invariant before == Before(best, i)
          invariant !improved ==> RowsSettled(m, best, i) && RowSettled(m, best, i, j)
          decreases |best| - j
        {
          var after := AfterStop(best, j);
          var gain := Edge(m, before, Some(best[i])) + Edge(m, Some(best[j]), after)
                      - Edge(m, before, Some(best[j])) - Edge(m, Some(best[i]), after);
          assert gain == Gain(m, best, i, j);
          if gain > TOLERANCE {
            ReversalShortens(m, order, best, saved, i, j);
            best := best[..i] + Backwards(best[i..j + 1]) + best[j + 1..];
            saved := saved + gain;
            improved := true;
          }
          j := j + 1;
        }
        i := i + 1;
      }
      if !improved {
        SettledIsOptimal(m, best, i);
        return;
      }
    }
  }

  // The route -----------------------------------------------------------------------

  datatype Stop = Stop(id: nat, point: Option<Point>)

  datatype Route = Route(order: seq<nat>, totalKm: real, legs: map<nat, Option<real>>, unplaced: seq<nat>)

  function Placed(stops: seq<Stop>): (r: seq<Stop>)
    ensures forall k :: 0 <= k < |r| ==> r[k].point.Some?
  {
    if stops == [] then []
    else Placed(stops[..|stops| - 1]) + (if stops[|stops| - 1].point.Some? then [stops[|stops| - 1]] else [])
  }

  function Unplaced(stops: seq<Stop>): (r: seq<Stop>)
    ensures forall k :: 0 <= k < |r| ==> r[k].point.None?
  {
    if stops == [] then []
    else Unplaced(stops[..|stops| - 1]) + (if stops[|stops| - 1].point.None? then [stops[|stops| - 1]] else [])
  }

  function Ids(stops: seq<Stop>): (r: seq<nat>)
    ensures |r| == |stops| && forall k :: 0 <= k < |r| ==> r[k] == stops[k].id
  {
    seq(|stops|, k requires 0 <= k < |stops| => stops[k].id)
  }

  function PointsOf(stops: seq<Stop>): (r: seq<Point>)
    requires forall k :: 0 <= k < |stops| ==> stops[k].point.Some?
    ensures |r| == |stops|
  {
    seq(|stops|, k requires 0 <= k < |stops| => stops[k].point.value)
  }

  function MapOf(km: Distance, stops: seq<Stop>, start: Option<Point>): Map {
    Map(km, PointsOf(Placed(stops)), start)
  }

  lemma {:induction false} IdsSplit(stops: seq<Stop>)
    ensures multiset(Ids(stops)) == multiset(Ids(Placed(stops))) + multiset(Ids(Unplaced(stops)))
  {
    if stops != [] {
      var n := |stops| - 1;
      var init, last := stops[..n], stops[n];
      IdsSplit(init);
      assert Ids(stops) == Ids(init) + [last.id];
      if last.point.Some? {
        assert Ids(Placed(stops)) == Ids(Placed(init)) + [last.id];
        assert Placed(stops) == Placed(init) + [last] && Unplaced(stops) == Unplaced(init);
      } else {
        assert Ids(Unplaced(stops)) == Ids(Unplaced(init)) + [last.id];
        assert Unplaced(stops) == Unplaced(init) + [last] && Placed(stops) == Placed(init);
      }
    }
  }

  function IdsInOrder(stops: seq<Stop>, order: seq<nat>): (r: seq<nat>)
    requires forall k :: 0 <= k < |order| ==> order[k] < |stops|
    ensures |r| == |order| && forall k :: 0 <= k < |r| ==> r[k] == stops[order[k]].id
  {
    seq(|order|, k requires 0 <= k < |order| => stops[order[k]].id)
  }

  lemma IdsWithout(stops: seq<Stop>, order: seq<nat>, k: nat)
    requires forall k :: 0 <= k < |order| ==> order[k] < |stops|
    requires k < |order|
    ensures multiset(IdsInOrder(stops, order)) ==
              multiset(IdsInOrder(stops, Without(order, k))) + multiset{stops[order[k]].id}
  {
    var ids := IdsInOrder(stops, order);
    WithoutOne(ids, k);
    assert IdsInOrder(stops, Without(order, k)) == Without(ids, k);
  }

  /** Naming the stops by a reordering of their positions reorders their ids. */
  lemma {:induction false} IdsReordered(stops: seq<Stop>, xs: seq<nat>, ys: seq<nat>)
    requires forall k :: 0 <= k < |xs| ==> xs[k] < |stops|
    requires forall k :: 0 <= k < |ys| ==> ys[k] < |stops|
    requires multiset(xs) == multiset(ys)
    ensures multiset(IdsInOrder(stops, xs)) == multiset(IdsInOrder(stops, ys))
    decreases |xs|
  {
    if xs == [] {
      assert |multiset(ys)| == 0;
    } else {
      assert xs[0] in multiset(ys);
      var k :| 0 <= k < |ys| && ys[k] == xs[0];
      WithoutOne(xs, 0);
      WithoutOne(ys, k);
      SameRest(multiset(Without(xs, 0)), multiset(Without(ys, k)), multiset{xs[0]});
      IdsReordered(stops, Without(xs, 0), Without(ys, k));
      IdsWithout(stops, xs, 0);
      IdsWithout(stops, ys, k);
    }
  }

  lemma SameRest(a: multiset<nat>, b: multiset<nat>, c: multiset<nat>)
    requires a + c == b + c
    ensures a == b
  {
    forall x | x in a || x in b
      ensures a[x] == b[x]
    {
      assert (a + c)[x] == (b + c)[x];
    }
  }

  function Km(leg: Option<real>): real {
    if leg.Some? then leg.value else 0.0
  }

  /** The legs of the stops in this order, added up. */
  function LegsKm(legs: map<nat, Option<real>>, order: seq<nat>): real
    requires forall k :: 0 <= k < |order| ==> order[k] in legs
  {
    if order == [] then 0.0 else LegsKm(legs, order[..|order| - 1]) + Km(legs[order[|order| - 1]])
  }

  predicate Distinct(ids: seq<nat>) {
    forall i, j :: 0 <= i < j < |ids| ==> ids[i] != ids[j]
  }

  ghost predicate LegsFor(legs: map<nat, Option<real>>, ids: seq<nat>) {
    forall id :: id in legs <==> id in ids
  }

  /** The leg to the k-th stop: from the stop before it, or from the start; there is nothing to measure to a first
      stop without a start, and to the stops after the placed ones. */
  function LegAt(m: Map, best: seq<nat>, k: nat): Option<real>
    requires OnMap(m, best)
  {
    if k >= |best| || (k == 0 && m.start.None?) then None else Some(Edge(m, Before(best, k), Some(best[k])))
  }

  /** The first n ids have their legs, if no id is there twice. */
  ghost predicate LegsRight(m: Map, legs: map<nat, Option<real>>, ids: seq<nat>, best: seq<nat>, n: nat)
    requires OnMap(m, best) && n <= |ids|
  {
    && LegsFor(legs, ids[..n])
    && (Distinct(ids) ==> forall k :: 0 <= k < n ==> ids[k] in legs && legs[ids[k]] == LegAt(m, best, k))
  }

  lemma NextLeg(m: Map, legs: map<nat, Option<real>>, ids: seq<nat>, best: seq<nat>, n: nat)
    requires OnMap(m, best) && n < |ids| && LegsRight(m, legs, ids, best, n)
    ensures LegsRight(m, legs[ids[n] := LegAt(m, best, n)], ids, best, n + 1)
  {
    hide LegAt;
    assert ids[..n + 1] == ids[..n] + [ids[n]];
  }

  /** The legs add up to the length of the path. */
  lemma {:induction false} LegsAddUp(m: Map, legs: map<nat, Option<real>>, ids: seq<nat>, best: seq<nat>, n: nat)
    requires OnMap(m, best) && n <= |ids|
    requires forall k :: 0 <= k < n ==> ids[k] in legs && legs[ids[k]] == LegAt(m, best, k)
    ensures LegsKm(legs, ids[..n]) == PathKm(m, best[..if n < |best| then n else |best|])
  {
    if n > 0 {
      LegsAddUp(m, legs, ids, best, n - 1);
      assert ids[..n][..n - 1] == ids[..n - 1];
      if n <= |best| {
        LengthAppend(m, best[..n - 1], best[n - 1]);
        assert best[..n] == best[..n - 1] + [best[n - 1]];
      }
    }
  }

  lemma LengthAppend(m: Map, order: seq<nat>, next: nat)
    requires OnMap(m, order) && next < |m.points|
    ensures OnMap(m, order + [next])
    ensures PathKm(m, order + [next]) == PathKm(m, order) + Edge(m, Last(None, order), Some(next))
  {
    LengthJoins(m, None, order, [next]);
    assert [next][1..] == [];
  }

  /** One leg for every stop, the ones without a place included. */
  method Legs(m: Map, placed: seq<Stop>, best: seq<nat>, unplaced: seq<nat>) returns (legs: map<nat, Option<real>>)
    requires |placed| == |m.points| && OnMap(m, best)
    ensures var ids := IdsInOrder(placed, best) + unplaced;
            LegsRight(m, legs, ids, best, |ids|)
  {
    ghost var ids := IdsInOrder(placed, best) + unplaced;
    legs := map[];
    var previous: Option<nat> := None;
    for k := 0 to |best|
      invariant previous == Last(None, best[..k])
      invariant LegsRight(m, legs, ids, best, k)
    {
      var here := best[k];
      assert k > 0 ==> best[..k][k - 1] == best[k - 1];
      NextLeg(m, legs, ids, best, k);
      var leg := if previous.Some? || m.start.Some? then Some(Edge(m, previous, Some(here))) else None;
      legs := legs[placed[here].id := leg];
      previous := Some(here);
    }
    for k := 0 to |unplaced|
      invariant LegsRight(m, legs, ids, best, |best| + k)
    {
      NextLeg(m, legs, ids, best, |best| + k);
      legs := legs[unplaced[k] := None];
    }
  }

  // Every start tried ------------------------------------------------------------------

  /** Anchored at the start point, or at each of the first twelve stops when there is none. */
  function Firsts(m: Map): (firsts: seq<Option<nat>>)
    ensures forall k :: 0 <= k < |firsts| ==>
              (firsts[k].Some? ==> firsts[k].value < |m.points|) && (firsts[k].None? ==> m.start.Some?)
  {
    var n := |m.points|;
    if n <= 1 then []
    else if m.start.Some? then [None]
    else seq(if n < MAX_FIRST_STOPS then n else MAX_FIRST_STOPS, k => Some(k))
  }

  /** What one start gives: the nearest-neighbour order from it, or a shortening of that, which no reversal shortens any
      further unless all 200 passes did. */
  ghost predicate Tried(m: Map, first: Option<nat>, order: seq<nat>) {
    exists near, saved ::
      && NearestOrder(m, first, near) && Shortened(m, near, order, saved)
      && (NothingToGain(m, order) || saved > 200.0 * 0.000000001)
  }

  /** Every start tried: the point given if there is one, else each of the first twelve stops; none for a stop alone. */
  ghost predicate TriedInTurn(m: Map, tried: seq<seq<nat>>) {
    && |tried| == (if |m.points| <= 1 then 0 else if m.start.Some? then 1 else if |m.points| < 12 then |m.points| else 12)
    && forall k :: 0 <= k < |tried| ==> Tried(m, if m.start.Some? then None else Some(k), tried[k])
  }

  /** No start tried so far beats the best by more than the tolerance, and the best is one of them or as given. */
  ghost predicate BestSoFar(m: Map, tried: seq<seq<nat>>, best: seq<nat>) {
    && OnMap(m, best) && (best == UpTo(|m.points|) || best in tried)
    && PathKm(m, best) <= PathKm(m, UpTo(|m.points|))
    && |tried| <= |Firsts(m)|
    && forall k :: 0 <= k < |tried| ==>
         && Tried(m, Firsts(m)[k], tried[k]) && OnMap(m, tried[k])
         && PathKm(m, best) <= PathKm(m, tried[k]) + 0.000000001
  }

  lemma OneMoreTried(m: Map, tried: seq<seq<nat>>, best: seq<nat>, order: seq<nat>)
    requires BestSoFar(m, tried, best) && |tried| < |Firsts(m)| && Tried(m, Firsts(m)[|tried|], order)
    ensures OnMap(m, order)
    ensures BestSoFar(m, tried + [order], if PathKm(m, order) < PathKm(m, best) - TOLERANCE then order else best)
  {
    hide PathKm, Firsts, NearestOrder;
    var more := tried + [order];
    assert more[|tried|] == order;
    assert best in tried ==> best in more;
  }

  lemma BestIsReordered(m: Map, tried: seq<seq<nat>>, best: seq<nat>)
    requires BestSoFar(m, tried, best)
    ensures multiset(best) == multiset(UpTo(|m.points|))
  {
    hide PathKm, Firsts;
    if best in tried {
      var k :| 0 <= k < |tried| && tried[k] == best;
      assert Tried(m, Firsts(m)[k], tried[k]);
    }
  }

  /** The order of least length found, over the start point or the first twelve stops. */
  method BestOrder(m: Map) returns (best: seq<nat>, bestKm: real, ghost tried: seq<seq<nat>>)
    requires Symmetric(m.km)
    ensures BestSoFar(m, tried, best) && TriedInTurn(m, tried) && bestKm == PathKm(m, best)
  {
    hide PathKm, NearestOrder, Shortened;
    var n := |m.points|;
    best := UpTo(n);
    bestKm := PathKm(m, best);
    tried := [];
    if n > 1 {
      var firsts: seq<Option<nat>> := [None];
      if m.start.None? {
        firsts := seq(if n < MAX_FIRST_STOPS then n else MAX_FIRST_STOPS, k => Some(k));
      }
      assert firsts == Firsts(m);
      for k := 0 to |firsts|
        invariant |tried| == k && BestSoFar(m, tried, best) && bestKm == PathKm(m, best)
      {
        var order, orderKm := TryFrom(m, firsts[k]);
        OneMoreTried(m, tried, best, order);
        tried := tried + [order];
        if orderKm < bestKm - TOLERANCE {
          best, bestKm := order, orderKm;
        }
      }
    }
  }

  method TryFrom(m: Map, first: Option<nat>) returns (order: seq<nat>, orderKm: real)
    requires Symmetric(m.km) && (first.Some? ==> first.value < |m.points|) && (first.None? ==> m.start.Some?)
    ensures Tried(m, first, order) && OnMap(m, order) && orderKm == PathKm(m, order)
  {
    var near := NearestNeighbour(m, first);
    var best, _, saved := TwoOpt(m, near);
    order, orderKm := best, PathKm(m, best);
    assert NearestOrder(m, first, near) && Shortened(m, near, order, saved);
    hide NearestOrder, Shortened;
  }

  /** The route: `best` is its driving order by position, `tried` what each start gave. */
  method PlanRoute(km: Distance, stops: seq<Stop>, start: Option<Point>)
    returns (route: Route, ghost best: seq<nat>, ghost tried: seq<seq<nat>>)
    requires Symmetric(km)
    ensures var m := MapOf(km, stops, start);
            && BestSoFar(m, tried, best) && TriedInTurn(m, tried)
            && route.totalKm == PathKm(m, best)
            && route.order == IdsInOrder(Placed(stops), best) + Ids(Unplaced(stops))
            && LegsRight(m, route.legs, route.order, best, |route.order|)
    ensures route.unplaced == Ids(Unplaced(stops))
    ensures multiset(route.order) == multiset(Ids(stops))
    ensures Distinct(route.order) ==> LegsKm(route.legs, route.order) == route.totalKm
  {
    hide PathKm, LegsKm, LegAt, Tried;
    var placed := Placed(stops);
    var unplaced := Ids(Unplaced(stops));
    var m := MapOf(km, stops, start);
    var order, orderKm, starts := BestOrder(m);
    best, tried := order, starts;
    var legs := Legs(m, placed, order, unplaced);
    route := Route(IdsInOrder(placed, order) + unplaced, orderKm, legs, unplaced);
    RouteIsReordered(m, stops, best, tried);
    if Distinct(route.order) {
      LegsAddUp(m, legs, route.order, best, |route.order|);
      assert route.order[..|route.order|] == route.order && best[..|best|] == best;
    }
  }

  lemma RouteIsReordered(m: Map, stops: seq<Stop>, best: seq<nat>, tried: seq<seq<nat>>)
    requires |m.points| == |Placed(stops)| && BestSoFar(m, tried, best)
    ensures multiset(IdsInOrder(Placed(stops), best) + Ids(Unplaced(stops))) == multiset(Ids(stops))
  {
    var placed, given := Placed(stops), UpTo(|m.points|);
    BestIsReordered(m, tried, best);
    IdsSplit(stops);
    IdsReordered(placed, best, given);
    assert IdsInOrder(placed, given) == Ids(placed);
  }
}
