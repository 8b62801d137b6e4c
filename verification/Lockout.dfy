/** The sign-in lockout of one e-mail and address pair (apps/users/lockout.py, apps/users/services.py). */
module Lockout {
  import opened Results

  const MAX_ATTEMPTS: nat := 5
  const ATTEMPT_WINDOW_SECONDS: nat := 900
  const LOCKOUT_SECONDS: nat := 900

  /** A cache entry, gone once its time is up. */
  datatype Entry = Entry(value: nat, expires: int)

  /** The pair's two keys: its failures, and its lock. */
  datatype Bucket = Bucket(failures: Option<Entry>, lock: Option<Entry>)

  predicate Live(e: Option<Entry>, now: int) {
    e.Some? && now < e.value.expires
  }

  predicate IsLocked(b: Bucket, now: int) {
    Live(b.lock, now)
  }

  /** When the calls of one attempt reach the cache: the check, `add`, `incr`, the `set` that opens a new window
      if the old one expired in between, and the last write. */
  datatype Times = Times(checked: int, added: int, counted: int, reopened: int, closed: int)

  predicate Forward(t: Times) {
    t.checked <= t.added <= t.counted <= t.reopened <= t.closed
  }

  /** The counter after `add` and `incr`: one that expired before or between them starts again. */
  function CountedEntry(b: Bucket, t: Times): Entry {
    var kept := if Live(b.failures, t.added) then b.failures.value else Entry(0, t.added + ATTEMPT_WINDOW_SECONDS);
    if t.counted < kept.expires then Entry(kept.value + 1, kept.expires)
    else Entry(1, t.reopened + ATTEMPT_WINDOW_SECONDS)
  }

  function Recorded(b: Bucket, t: Times): Bucket {
    var entry := CountedEntry(b, t);
    if entry.value >= MAX_ATTEMPTS then Bucket(None, Some(Entry(1, t.closed + LOCKOUT_SECONDS)))
    else Bucket(Some(entry), b.lock)
  }

  /** The cache keys of a pair, written call by call. */
  class Cache {
    var failures: Option<Entry>
    var lock: Option<Entry>

    function Contents(): Bucket
      reads this
    {
      Bucket(failures, lock)
    }

    constructor ()
      ensures Contents() == Bucket(None, None)
    {
      failures, lock := None, None;
    }

    /** Sets a key that is not there, and leaves one that is, with its expiry, alone. */
    method AddFailures(value: nat, seconds: nat, now: int)
      modifies `failures
      ensures failures == if old(Live(failures, now)) then old(failures) else Some(Entry(value, now + seconds))
    {
      if !Live(failures, now) {
        failures := Some(Entry(value, now + seconds));
      }
    }

    /** Adds one to a key that is there; none there is an error. */
    method IncrementFailures(now: int) returns (count: Option<nat>)
      modifies `failures
      ensures old(Live(failures, now)) ==>
                count == Some(old(failures).value.value + 1)
                && failures == Some(Entry(old(failures).value.value + 1, old(failures).value.expires))
      ensures !old(Live(failures, now)) ==> count == None && failures == old(failures)
    {
      if Live(failures, now) {
        var entry := failures.value;
        failures := Some(Entry(entry.value + 1, entry.expires));
        return Some(entry.value + 1);
      }
      return None;
    }

    method RecordFailure(t: Times)
      requires Forward(t)
      modifies this
      ensures Contents() == Recorded(old(Contents()), t)
    {
      AddFailures(0, ATTEMPT_WINDOW_SECONDS, t.added);
      var incremented := IncrementFailures(t.counted);
      var count := 1;
      if incremented.Some? {
        count := incremented.value;
      } else {
        failures := Some(Entry(1, t.reopened + ATTEMPT_WINDOW_SECONDS));
      }
      if count >= MAX_ATTEMPTS {
        lock := Some(Entry(1, t.closed + LOCKOUT_SECONDS));
        failures := None;
      }
    }

    /** A wrong password: refused while locked, counted otherwise. */
    method FailSignIn(t: Times) returns (refused: bool)
      requires Forward(t)
      modifies this
      ensures refused == IsLocked(old(Contents()), t.checked)
      ensures Contents() == Tried(old(Contents()), t)
    {
      refused := Live(lock, t.checked);
      if !refused {
        RecordFailure(t);
      }
    }

    method Clear()
      modifies this
      ensures Contents() == Bucket(None, None)
    {
      failures, lock := None, None;
    }
  }

  // Runs of wrong passwords, one at a time ----------------------------------------------------

  function Tried(b: Bucket, t: Times): Bucket {
    if IsLocked(b, t.checked) then b else Recorded(b, t)
  }

  predicate OneAtATime(ts: seq<Times>) {
    && (forall k :: 0 <= k < |ts| ==> Forward(ts[k]))
    && (forall k :: 0 <= k < |ts| - 1 ==> ts[k].closed <= ts[k + 1].checked)
  }

  function AfterTries(ts: seq<Times>): Bucket {
    if ts == [] then Bucket(None, None) else Tried(AfterTries(ts[..|ts| - 1]), ts[|ts| - 1])
  }

  /** A counted failure: when the attempt began and when it was counted, when its window opened, and the number it
      was counted as. */
  datatype Failure = Failure(at: int, counted: int, since: int, number: nat)

  /** The failures that were counted, not refused. */
  function Counted(ts: seq<Times>): seq<Failure> {
    if ts == [] then []
    else
      var before, t := AfterTries(ts[..|ts| - 1]), ts[|ts| - 1];
      if IsLocked(before, t.checked) then Counted(ts[..|ts| - 1])
      else
        var entry := CountedEntry(before, t);
        Counted(ts[..|ts| - 1]) + [Failure(t.checked, t.counted, entry.expires - ATTEMPT_WINDOW_SECONDS, entry.value)]
  }

  predicate Plausible(x: Failure) {
    1 <= x.number <= MAX_ATTEMPTS && (x.number == 1 ==> x.at <= x.since)
  }

  /** One counted failure after another: the next in its window, or the first of a later one. */
  predicate Follows(x: Failure, y: Failure) {
    && x.at <= y.at && x.since <= y.at
    && (if x.number == MAX_ATTEMPTS then y.number == 1 && y.at >= x.at + LOCKOUT_SECONDS
        else if y.number == 1 then
          y.since >= x.since + ATTEMPT_WINDOW_SECONDS && y.counted >= x.since + ATTEMPT_WINDOW_SECONDS
        else y.number == x.number + 1 && y.since == x.since)
  }

  predicate Chain(h: seq<Failure>) {
    && (forall k :: 0 <= k < |h| ==> Plausible(h[k]))
    && (forall k :: 0 <= k < |h| - 1 ==> Follows(h[k], h[k + 1]))
  }

  /** The bucket remembers the last counted failure: its window, or its lock. */
  predicate Remembers(b: Bucket, h: seq<Failure>, now: int) {
    if h == [] then b == Bucket(None, None)
    else
      var last := h[|h| - 1];
      && last.at <= now && last.since <= now
      && if last.number == MAX_ATTEMPTS then
           b.failures == None && b.lock.Some? && b.lock.value.expires >= last.at + LOCKOUT_SECONDS
         else
           b.failures == Some(Entry(last.number, last.since + ATTEMPT_WINDOW_SECONDS)) && !Live(b.lock, now)
  }

  lemma RememberedTry(b: Bucket, h: seq<Failure>, t: Times)
    requires Chain(h) && Remembers(b, h, t.checked) && Forward(t) && !IsLocked(b, t.checked)
    ensures var entry := CountedEntry(b, t);
            var x := Failure(t.checked, t.counted, entry.expires - ATTEMPT_WINDOW_SECONDS, entry.value);
            Chain(h + [x]) && Remembers(Recorded(b, t), h + [x], t.closed)
  {
  }

  lemma {:induction false} RunIsChain(ts: seq<Times>)
    requires OneAtATime(ts)
    ensures Chain(Counted(ts))
    ensures ts != [] ==> Remembers(AfterTries(ts), Counted(ts), ts[|ts| - 1].closed)
  {
    hide Chain, Remembers, CountedEntry, Recorded;
    if ts == [] {
      NothingYet(0);
    } else {
      var init, t := ts[..|ts| - 1], ts[|ts| - 1];
      RunIsChain(init);
      var before := AfterTries(init);
      if init != [] {
        StillRemembers(before, Counted(init), init[|init| - 1].closed, t.checked);
      } else {
        NothingYet(t.checked);
      }
      if IsLocked(before, t.checked) {
        StillRemembers(before, Counted(init), t.checked, t.closed);
      } else {
        RememberedTry(before, Counted(init), t);
      }
    }
  }

  lemma NothingYet(now: int)
    ensures Chain([]) && Remembers(Bucket(None, None), [], now)
  {
  }

  lemma StillRemembers(b: Bucket, h: seq<Failure>, now: int, later: int)
    requires Remembers(b, h, now) && now <= later
    ensures Remembers(b, h, later)
  {
  }

  /** The last five counted of these tries: a first failure, and four counted before its window ends. */
  predicate FiveInAWindow(h: seq<Failure>) {
    var n := |h|;
    && n >= 5 && h[n - 5].number == 1
    && forall j :: n - 5 < j < n ==> h[j].counted < h[n - 5].since + 900
  }

  /** Five failures in one window are counted one to five. */
  lemma FiveAreNumbered(h: seq<Failure>)
    requires Chain(h) && FiveInAWindow(h)
    ensures h[|h| - 1].number == 5 && h[|h| - 1].since == h[|h| - 5].since
  {
    var first := |h| - 5;
    assert Follows(h[first], h[first + 1]) && Follows(h[first + 1], h[first + 2]);
    assert Follows(h[first + 2], h[first + 3]) && Follows(h[first + 3], h[first + 4]);
  }

  /** A try that is counted locks the pair exactly when it is counted as the fifth. */
  lemma CountedFifthLocks(xs: seq<Times>, t: Times)
    requires OneAtATime(xs + [t]) && |Counted(xs + [t])| == |Counted(xs)| + 1
    ensures Counted(xs + [t])[|Counted(xs)|].number == 5 <==>
            AfterTries(xs + [t]) == Bucket(None, Some(Entry(1, t.closed + 900)))
  {
    assert (xs + [t])[..|xs|] == xs;
    assert OneAtATime(xs + [t]);
    RunIsChain(xs + [t]);
    assert Plausible(Counted(xs + [t])[|Counted(xs)|]);
  }

  lemma {:induction false} LockedTriesChangeNothing(xs: seq<Times>, ys: seq<Times>, until: int)
    requires AfterTries(xs) == Bucket(None, Some(Entry(1, until)))
    requires forall k :: 0 <= k < |ys| ==> ys[k].checked < until
    ensures AfterTries(xs + ys) == AfterTries(xs) && Counted(xs + ys) == Counted(xs)
  {
    if ys == [] {
      assert xs + ys == xs;
    } else {
      assert (xs + ys)[..|xs + ys| - 1] == xs + ys[..|ys| - 1];
      LockedTriesChangeNothing(xs, ys[..|ys| - 1], until);
    }
  }

  /** The fifth failure inside a window locks the pair for the whole lockout: whatever is tried before it is over is
      refused and changes nothing, and it is over on time. */
  lemma FifthFailureLocks(xs: seq<Times>, t: Times, ys: seq<Times>, now: int)
    requires OneAtATime(xs + [t] + ys)
    requires |Counted(xs + [t])| == |Counted(xs)| + 1 && FiveInAWindow(Counted(xs + [t]))
    requires forall k :: 0 <= k < |ys| ==> ys[k].checked < t.closed + 900
    ensures AfterTries(xs + [t] + ys) == AfterTries(xs + [t]) && Counted(xs + [t] + ys) == Counted(xs + [t])
    ensures IsLocked(AfterTries(xs + [t] + ys), now) <==> now < t.closed + 900
  {
    assert (xs + [t] + ys)[..|xs| + 1] == xs + [t];
    TriesBefore(xs + [t], ys);
    RunIsChain(xs + [t]);
    FiveAreNumbered(Counted(xs + [t]));
    CountedFifthLocks(xs, t);
    LockedTriesChangeNothing(xs + [t], ys, t.closed + 900);
  }

  lemma TriesBefore(xs: seq<Times>, ys: seq<Times>)
    requires OneAtATime(xs + ys)
    ensures OneAtATime(xs)
  {
    forall k | 0 <= k < |xs|
      ensures Forward(xs[k])
      ensures k < |xs| - 1 ==> xs[k].closed <= xs[k + 1].checked
    {
      assert xs[k] == (xs + ys)[k];
      assert k < |xs| - 1 ==> xs[k + 1] == (xs + ys)[k + 1];
    }
  }

  /** The window runs from its first failure: later ones in it leave its end where it was. */
  lemma WindowRunsFromTheFirst(ts: seq<Times>, k: nat)
    requires OneAtATime(ts) && k + 1 < |Counted(ts)| && Counted(ts)[k + 1].number > 1
    ensures Counted(ts)[k + 1].since == Counted(ts)[k].since
    ensures Counted(ts)[k + 1].number == Counted(ts)[k].number + 1
  {
    RunIsChain(ts);
    assert Follows(Counted(ts)[k], Counted(ts)[k + 1]);
  }

  /** Time never runs back along a chain. */
  lemma {:induction false} ChainForward(h: seq<Failure>, i: nat, j: nat)
    requires Chain(h) && i <= j < |h|
    ensures h[i].at <= h[j].at
    decreases j
  {
    if i < j {
      ChainForward(h, i, j - 1);
      assert Follows(h[j - 1], h[j]);
    }
  }

  /** A first failure is found within the numbers left, if the fifth is not reached. */
  lemma {:induction false} FirstWithin(h: seq<Failure>, i: nat) returns (p: nat)
    requires Chain(h) && i + 3 < |h| && h[i].number >= 2
    requires forall k :: i <= k <= i + 3 ==> h[k].number < MAX_ATTEMPTS
    ensures i < p <= i + MAX_ATTEMPTS - h[i].number && p <= i + 3 && h[p].number == 1
  {
    assert Follows(h[i], h[i + 1]) && Follows(h[i + 1], h[i + 2]) && Follows(h[i + 2], h[i + 3]);
    if h[i + 1].number == 1 {
      p := i + 1;
    } else if h[i + 2].number == 1 {
      p := i + 2;
    } else {
      p := i + 3;
    }
  }

  /** After a first failure comes another within four, if the fifth is not reached; a window later. */
  lemma NextFirst(h: seq<Failure>, p: nat) returns (q: nat)
    requires Chain(h) && p + 4 < |h| && h[p].number == 1
    requires forall k :: p <= k <= p + 4 ==> h[k].number < MAX_ATTEMPTS
    ensures p < q <= p + 4 && h[q].number == 1 && h[q].since >= h[p].since + ATTEMPT_WINDOW_SECONDS
  {
    assert Follows(h[p], h[p + 1]) && Follows(h[p + 1], h[p + 2]);
    assert Follows(h[p + 2], h[p + 3]) && Follows(h[p + 3], h[p + 4]);
    if h[p + 1].number == 1 {
      q := p + 1;
    } else if h[p + 2].number == 1 {
      q := p + 2;
    } else if h[p + 3].number == 1 {
      q := p + 3;
    } else {
      q := p + 4;
    }
  }

  /** A lock among nine counted failures keeps the last of them away from the first. */
  lemma LockBetween(h: seq<Failure>, i: nat, k: nat)
    requires Chain(h) && i + 8 < |h| && i <= k < i + 8 && h[k].number == MAX_ATTEMPTS
    ensures h[i + 8].at >= h[i].at + LOCKOUT_SECONDS
  {
    ChainForward(h, i, k);
    assert Follows(h[k], h[k + 1]);
    ChainForward(h, k + 1, i + 8);
  }

  /** Any nine counted failures in a row take the whole window. */
  lemma NineTakeAWindow(h: seq<Failure>, i: nat)
    requires Chain(h) && i + 8 < |h|
    ensures h[i + 8].at >= h[i].at + 900
  {
    if k :| i <= k < i + 8 && h[k].number == 5 {
      LockBetween(h, i, k);
    } else {
      assert forall k :: i <= k < i + 8 ==> Plausible(h[k]);
      var p := i;
      if h[i].number >= 2 {
        p := FirstWithin(h, i);
      }
      var q := NextFirst(h, p);
      assert Plausible(h[p]) && Follows(h[q], h[q + 1]);
      ChainForward(h, i, p);
      ChainForward(h, q + 1, i + 8);
    }
  }

  /** In any span of fifteen minutes at most eight failures are counted. */
  lemma AtMostEightInAWindow(ts: seq<Times>, from: int, i: nat, j: nat)
    requires OneAtATime(ts) && i <= j < |Counted(ts)|
    requires from <= Counted(ts)[i].at && Counted(ts)[j].at < from + 900
    ensures j - i + 1 <= 8
  {
    RunIsChain(ts);
    var h := Counted(ts);
    if j >= i + 8 {
      NineTakeAWindow(h, i);
      ChainForward(h, i + 8, j);
    }
  }

  function Instant(now: int): Times {
    Times(now, now, now, now, now)
  }

  /** After these tries, the last of them by now, the bucket is this and the failures counted began at these times. */
  ghost predicate Stands(ts: seq<Times>, now: int, b: Bucket, began: seq<int>) {
    && OneAtATime(ts) && (ts != [] ==> ts[|ts| - 1].closed <= now)
    && AfterTries(ts) == b
    && |Counted(ts)| == |began| && forall k :: 0 <= k < |began| ==> Counted(ts)[k].at == began[k]
  }

  lemma OneMoreFailure(ts: seq<Times>, last: int, b: Bucket, began: seq<int>, now: int) returns (more: seq<Times>)
    requires Stands(ts, last, b, began) && last <= now && !IsLocked(b, now)
    ensures Stands(more, now, Recorded(b, Instant(now)), began + [now])
  {
    more := ts + [Instant(now)];
    assert more[..|ts|] == ts;
    hide CountedEntry;
  }

  /** And eight there can be: one failure, three more at the end of its window, and the five that open and close the next. */
  lemma EightCanBeCounted() returns (ts: seq<Times>)
    ensures OneAtATime(ts) && |Counted(ts)| == 9
    ensures Counted(ts)[1].at == 899 && Counted(ts)[8].at == 900 < 899 + 900
  {
    ts := [];
    hide AfterTries, Counted, OneAtATime;
    assert Stands(ts, 0, Bucket(None, None), []) by { NoTries(); }
    hide Stands;
    ts := OneMoreFailure(ts, 0, Bucket(None, None), [], 0);
    ts := OneMoreFailure(ts, 0, Bucket(Some(Entry(1, 900)), None), [0], 899);
    ts := OneMoreFailure(ts, 899, Bucket(Some(Entry(2, 900)), None), [0, 899], 899);
    ts := OneMoreFailure(ts, 899, Bucket(Some(Entry(3, 900)), None), [0, 899, 899], 899);
    ts := OneMoreFailure(ts, 899, Bucket(Some(Entry(4, 900)), None), [0, 899, 899, 899], 900);
    ts := OneMoreFailure(ts, 900, Bucket(Some(Entry(1, 1800)), None), [0, 899, 899, 899, 900], 900);
    ts := OneMoreFailure(ts, 900, Bucket(Some(Entry(2, 1800)), None), [0, 899, 899, 899, 900, 900], 900);
    ts := OneMoreFailure(ts, 900, Bucket(Some(Entry(3, 1800)), None), [0, 899, 899, 899, 900, 900, 900], 900);
    ts := OneMoreFailure(ts, 900, Bucket(Some(Entry(4, 1800)), None), [0, 899, 899, 899, 900, 900, 900, 900], 900);
    WhatStands(ts, 900, Recorded(Bucket(Some(Entry(4, 1800)), None), Instant(900)), [0, 899, 899, 899, 900, 900, 900,
        900, 900]);
  }

  lemma NoTries()
    ensures Stands([], 0, Bucket(None, None), [])
  {
  }

  lemma WhatStands(ts: seq<Times>, now: int, b: Bucket, began: seq<int>)
    requires Stands(ts, now, b, began)
    ensures OneAtATime(ts) && |Counted(ts)| == |began|
    ensures forall k :: 0 <= k < |began| ==> Counted(ts)[k].at == began[k]
  {
  }
}
