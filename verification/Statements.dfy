/** Balances by date, and an account's statement (apps/ledger/balances.py, statement.py). */
module Statements {
  import opened Results
  import opened Sums
  import opened Books

  // Balances ------------------------------------------------------------------------

  function DebitsOn(ms: seq<Movement>, a: Id): nat -> int {
    (i: nat) => if i < |ms| && ms[i].party == OnAccount(a, Debit) then ms[i].amount else 0
  }

  function CreditsOn(ms: seq<Movement>, a: Id): nat -> int {
    (i: nat) => if i < |ms| && ms[i].party == OnAccount(a, Credit) then ms[i].amount else 0
  }

  /** Debits added and credits subtracted, over one account. */
  function AccountBalance(ms: seq<Movement>, a: Id): int {
    SumTo(|ms|, DebitsOn(ms, a)) - SumTo(|ms|, CreditsOn(ms, a))
  }

  lemma AccountBalanceIsSigned(ms: seq<Movement>, a: Id)
    ensures AccountBalance(ms, a) == Balance(ms, AccountSide(a))
  {
    SumPlus(|ms|, Signed(ms, AccountSide(a)), CreditsOn(ms, a), DebitsOn(ms, a));
  }

  predicate InDates(day: Day, start: Option<Day>, end: Option<Day>) {
    (start.Some? ==> start.value <= day) && (end.Some? ==> day <= end.value)
  }

  function SignedIn(ms: seq<Movement>, s: Side, start: Option<Day>, end: Option<Day>): nat -> int {
    (i: nat) => if i < |ms| && InDates(ms[i].date, start, end) then SignedOn(ms[i], s) else 0
  }

  /** What a side gains over the days from `start` to `end`, either bound left out when there is none. */
  function Change(ms: seq<Movement>, s: Side, start: Option<Day>, end: Option<Day>): int {
    SumTo(|ms|, SignedIn(ms, s, start, end))
  }

  /** Where a side stood on the eve of `day`. */
  function BalanceBefore(ms: seq<Movement>, s: Side, day: Day): int {
    Change(ms, s, None, Some(day - 1))
  }

  lemma ChangeAppend(ms: seq<Movement>, m: Movement, s: Side, start: Option<Day>, end: Option<Day>)
    ensures Change(ms + [m], s, start, end) ==
            Change(ms, s, start, end) + (if InDates(m.date, start, end) then SignedOn(m, s) else 0)
  {
    SumCongruent(|ms|, SignedIn(ms, s, start, end), SignedIn(ms + [m], s, start, end));
  }

  lemma ChangeSplits(ms: seq<Movement>, s: Side, day: Day, end: Option<Day>)
    requires end.Some? ==> day - 1 <= end.value
    ensures BalanceBefore(ms, s, day) + Change(ms, s, Some(day), end) == Change(ms, s, None, end)
  {
    SumPlus(|ms|, SignedIn(ms, s, None, Some(day - 1)), SignedIn(ms, s, Some(day), end), SignedIn(ms, s, None, end));
  }

  lemma ChangeOfEverything(ms: seq<Movement>, s: Side)
    ensures Change(ms, s, None, None) == Balance(ms, s)
  {
    SumCongruent(|ms|, SignedIn(ms, s, None, None), Signed(ms, s));
  }

  // Order ---------------------------------------------------------------------------

  predicate OnStatement(m: Movement, a: Id, start: Option<Day>, end: Option<Day>) {
    m.party.OnAccount? && m.party.account == a && InDates(m.date, start, end)
  }

  predicate AllWithin(ids: seq<nat>, n: nat) {
    forall i :: 0 <= i < |ids| ==> ids[i] < n
  }

  /** Put movement k in its place: by date, after those of its own day. */
  function Insert(ms: seq<Movement>, ids: seq<nat>, k: nat): (r: seq<nat>)
    requires k < |ms| && AllWithin(ids, |ms|)
    ensures AllWithin(r, |ms|)
  {
    if ids == [] then [k]
    else
      var n := |ids| - 1;
      if ms[ids[n]].date <= ms[k].date then ids + [k]
      else Insert(ms, ids[..n], k) + [ids[n]]
  }

  lemma {:induction false} InsertKeeps(ms: seq<Movement>, ids: seq<nat>, k: nat)
    requires k < |ms| && AllWithin(ids, |ms|)
    ensures multiset(Insert(ms, ids, k)) == multiset(ids) + multiset{k}
  {
    if ids != [] {
      var n := |ids| - 1;
      assert ids == ids[..n] + [ids[n]];
      InsertKeeps(ms, ids[..n], k);
    }
  }

  /** The movements of a statement, among the first n, in the order of date and then creation. */
  function Selected(ms: seq<Movement>, n: nat, a: Id, start: Option<Day>, end: Option<Day>): (r: seq<nat>)
    requires n <= |ms|
    ensures AllWithin(r, |ms|)
  {
    if n == 0 then []
    else
      var before := Selected(ms, n - 1, a, start, end);
      if OnStatement(ms[n - 1], a, start, end) then Insert(ms, before, n - 1) else before
  }

  predicate Precedes(ms: seq<Movement>, x: nat, y: nat)
    requires x < |ms| && y < |ms|
  {
    ms[x].date < ms[y].date || (ms[x].date == ms[y].date && x < y)
  }

  ghost predicate InOrder(ms: seq<Movement>, ids: seq<nat>)
    requires AllWithin(ids, |ms|)
  {
    forall i, j :: 0 <= i < j < |ids| ==> Precedes(ms, ids[i], ids[j])
  }

  lemma {:induction false} InsertedAre(ms: seq<Movement>, ids: seq<nat>, k: nat, i: nat)
    requires k < |ms| && AllWithin(ids, |ms|) && i < |Insert(ms, ids, k)|
    ensures Insert(ms, ids, k)[i] == k || exists j :: 0 <= j < |ids| && ids[j] == Insert(ms, ids, k)[i]
  {
    InsertKeeps(ms, ids, k);
    assert Insert(ms, ids, k)[i] in multiset(Insert(ms, ids, k));
  }

  lemma {:induction false} InsertInOrder(ms: seq<Movement>, ids: seq<nat>, k: nat)
    requires k < |ms| && AllWithin(ids, k)
    requires InOrder(ms, ids)
    ensures InOrder(ms, Insert(ms, ids, k))
  {
    if ids != [] {
      var n := |ids| - 1;
      var init, last := ids[..n], ids[n];
      if ms[last].date > ms[k].date {
        InsertInOrder(ms, init, k);
        var r := Insert(ms, init, k);
        forall i | 0 <= i < |r|
          ensures Precedes(ms, r[i], last)
        {
          InsertedAre(ms, init, k, i);
          if r[i] != k {
            var j :| 0 <= j < n && init[j] == r[i];
            assert Precedes(ms, ids[j], ids[n]);
          }
        }
      } else {
        forall i | 0 <= i < |ids|
          ensures Precedes(ms, ids[i], k)
        {
          assert i < n ==> Precedes(ms, ids[i], ids[n]);
        }
      }
    }
  }

  /** A statement's rows come by date and then in the order they were posted. */
  lemma {:induction false} SelectedInOrder(ms: seq<Movement>, n: nat, a: Id, start: Option<Day>, end: Option<Day>)
    requires n <= |ms|
    ensures AllWithin(Selected(ms, n, a, start, end), n)
    ensures InOrder(ms, Selected(ms, n, a, start, end))
  {
    if n > 0 {
      var before := Selected(ms, n - 1, a, start, end);
      SelectedInOrder(ms, n - 1, a, start, end);
      if OnStatement(ms[n - 1], a, start, end) {
        InsertInOrder(ms, before, n - 1);
        var r := Insert(ms, before, n - 1);
        forall i | 0 <= i < |r|
          ensures r[i] < n
        {
          InsertedAre(ms, before, n - 1, i);
        }
      }
    }
  }

  /** Exactly the account's movements in the range, each once. */
  lemma {:induction false} SelectedExactly(ms: seq<Movement>, n: nat, a: Id, start: Option<Day>, end: Option<Day>, k: nat)
    requires n <= |ms|
    ensures multiset(Selected(ms, n, a, start, end))[k] == if k < n && OnStatement(ms[k], a, start, end) then 1 else 0
  {
    if n > 0 {
      SelectedExactly(ms, n - 1, a, start, end, k);
      if OnStatement(ms[n - 1], a, start, end) {
        InsertKeeps(ms, Selected(ms, n - 1, a, start, end), n - 1);
      }
    }
  }

  // Rows ----------------------------------------------------------------------------

  datatype Row = Row(movement: Id, date: Day, debit: int, credit: int, balance: int, isReversal: bool)
  datatype Statement = Statement(opening: int, rows: seq<Row>, closing: int)

  /** What these movements add to the account, one after another. */
  function Running(ms: seq<Movement>, ids: seq<nat>, a: Id): int
    requires AllWithin(ids, |ms|)
  {
    if ids == [] then 0
    else Running(ms, ids[..|ids| - 1], a) + SignedOn(ms[ids[|ids| - 1]], AccountSide(a))
  }

  function RowOf(ms: seq<Movement>, k: nat, balance: int): Row
    requires k < |ms|
  {
    Row(k, ms[k].date,
        if ms[k].party.OnAccount? && ms[k].party.direction == Debit then ms[k].amount else 0,
        if ms[k].party.OnAccount? && ms[k].party.direction == Credit then ms[k].amount else 0,
        balance, ms[k].reverses.Some?)
  }

  function RowsOf(ms: seq<Movement>, ids: seq<nat>, a: Id, opening: int): seq<Row>
    requires AllWithin(ids, |ms|)
  {
    if ids == [] then []
    else RowsOf(ms, ids[..|ids| - 1], a, opening) +
         [RowOf(ms, ids[|ids| - 1], opening + Running(ms, ids, a))]
  }

  function OpeningBalance(ms: seq<Movement>, a: Id, start: Option<Day>): int {
    if start.Some? then BalanceBefore(ms, AccountSide(a), start.value) else 0
  }

  function StatementOf(ms: seq<Movement>, a: Id, start: Option<Day>, end: Option<Day>): Statement {
    var ids := Selected(ms, |ms|, a, start, end);
    var opening := OpeningBalance(ms, a, start);
    Statement(opening, RowsOf(ms, ids, a, opening), opening + Running(ms, ids, a))
  }

  /** The statement, one row at a time, carrying the balance. */
  method StatementRows(ms: seq<Movement>, a: Id, start: Option<Day>, end: Option<Day>) returns (st: Statement)
    ensures st == StatementOf(ms, a, start, end)
  {
    var opening := OpeningBalance(ms, a, start);
    var ids := Selected(ms, |ms|, a, start, end);
    assert forall i :: 0 <= i < |ids| ==> OnStatement(ms[ids[i]], a, start, end) by {
      forall i | 0 <= i < |ids|
        ensures OnStatement(ms[ids[i]], a, start, end)
      {
        SelectedExactly(ms, |ms|, a, start, end, ids[i]);
        assert ids[i] in multiset(ids);
      }
    }
    var rows: seq<Row> := [];
    var balance := opening;
    for i := 0 to |ids|
      invariant rows == RowsOf(ms, ids[..i], a, opening)
      invariant balance == opening + Running(ms, ids[..i], a)
    {
      var m := ms[ids[i]];
      var debit := if m.party.direction == Debit then m.amount else 0;
      var credit := if m.party.direction == Credit then m.amount else 0;
      balance := balance + debit - credit;
      rows := rows + [Row(ids[i], m.date, debit, credit, balance, m.reverses.Some?)];
      assert ids[..i + 1][..i] == ids[..i];
    }
    assert ids[..|ids|] == ids;
    st := Statement(opening, rows, balance);
  }

  // What a statement says --------------------------------------------------------------

  lemma {:induction false} RunningInsert(ms: seq<Movement>, ids: seq<nat>, k: nat, a: Id)
    requires k < |ms| && AllWithin(ids, |ms|)
    ensures Running(ms, Insert(ms, ids, k), a) == Running(ms, ids, a) + SignedOn(ms[k], AccountSide(a))
  {
    var r := Insert(ms, ids, k);
    if ids == [] {
      assert r[..|r| - 1] == [];
    } else {
      var n := |ids| - 1;
      if ms[ids[n]].date <= ms[k].date {
        assert r[..|r| - 1] == ids;
      } else {
        RunningInsert(ms, ids[..n], k, a);
        assert r[..|r| - 1] == Insert(ms, ids[..n], k);
      }
    }
  }

  lemma {:induction false} RunningIsChange(ms: seq<Movement>, n: nat, a: Id, start: Option<Day>, end: Option<Day>)
    requires n <= |ms|
    ensures Running(ms, Selected(ms, n, a, start, end), a) == SumTo(n, SignedIn(ms, AccountSide(a), start, end))
  {
    if n > 0 {
      RunningIsChange(ms, n - 1, a, start, end);
      if OnStatement(ms[n - 1], a, start, end) {
        RunningInsert(ms, Selected(ms, n - 1, a, start, end), n - 1, a);
      }
    }
  }

  /**
   * The closing of a statement is the balance of everything dated to its end; with
   * no end it is the account's balance, whatever its start.
   */
  lemma ClosingIsBalance(ms: seq<Movement>, a: Id, start: Option<Day>, end: Option<Day>)
    requires start.Some? && end.Some? ==> start.value - 1 <= end.value
    ensures StatementOf(ms, a, start, end).closing == Change(ms, AccountSide(a), None, end)
    ensures end.None? ==> StatementOf(ms, a, start, end).closing == AccountBalance(ms, a)
  {
    RunningIsChange(ms, |ms|, a, start, end);
    if start.Some? {
      ChangeSplits(ms, AccountSide(a), start.value, end);
    }
    if end.None? {
      ChangeOfEverything(ms, AccountSide(a));
      AccountBalanceIsSigned(ms, a);
    }
  }

  // Adjacent statements ------------------------------------------------------------------

  lemma {:induction false} InsertIntoFirst(ms: seq<Movement>, xs: seq<nat>, ys: seq<nat>, k: nat)
    requires k < |ms| && AllWithin(xs, |ms|) && AllWithin(ys, |ms|)
    requires forall j :: 0 <= j < |ys| ==> ms[ys[j]].date > ms[k].date
    ensures Insert(ms, xs + ys, k) == Insert(ms, xs, k) + ys
    decreases |ys|
  {
    if ys == [] {
      assert xs + ys == xs;
    } else {
      var n := |ys| - 1;
      var all, init, last := xs + ys, ys[..n], ys[n];
      assert all[|all| - 1] == last && all[..|all| - 1] == xs + init;
      InsertIntoFirst(ms, xs, init, k);
      assert Insert(ms, all, k) == Insert(ms, xs + init, k) + [last];
      assert init + [last] == ys;
    }
  }

  lemma Regrouped(xs: seq<nat>, ys: seq<nat>, z: nat)
    ensures (xs + ys) + [z] == xs + (ys + [z])
  {
  }

  lemma {:induction false} InsertIntoSecond(ms: seq<Movement>, xs: seq<nat>, ys: seq<nat>, k: nat)
    requires k < |ms| && AllWithin(xs, |ms|) && AllWithin(ys, |ms|)
    requires forall i :: 0 <= i < |xs| ==> ms[xs[i]].date <= ms[k].date
    ensures Insert(ms, xs + ys, k) == xs + Insert(ms, ys, k)
    decreases |ys|
  {
    if ys == [] {
      assert xs + ys == xs;
      assert Insert(ms, xs, k) == xs + [k];
    } else {
      var n := |ys| - 1;
      var all := xs + ys;
      assert all[|all| - 1] == ys[n] && all[..|all| - 1] == xs + ys[..n];
      if ms[ys[n]].date > ms[k].date {
        InsertIntoSecond(ms, xs, ys[..n], k);
        Regrouped(xs, Insert(ms, ys[..n], k), ys[n]);
      } else {
        Regrouped(xs, ys, k);
      }
    }
  }

  lemma SelectedDated(ms: seq<Movement>, n: nat, a: Id, start: Option<Day>, end: Option<Day>, i: nat)
    requires n <= |ms| && i < |Selected(ms, n, a, start, end)|
    ensures InDates(ms[Selected(ms, n, a, start, end)[i]].date, start, end)
  {
    var ids := Selected(ms, n, a, start, end);
    SelectedExactly(ms, n, a, start, end, ids[i]);
    assert ids[i] in multiset(ids);
  }

  lemma {:induction false} SelectedSplits(ms: seq<Movement>, n: nat, a: Id, start: Option<Day>, mid: Day, end: Option<Day>)
    requires n <= |ms|
    requires start.Some? ==> start.value <= mid + 1
    requires end.Some? ==> mid <= end.value
    ensures Selected(ms, n, a, start, end) ==
            Selected(ms, n, a, start, Some(mid)) + Selected(ms, n, a, Some(mid + 1), end)
  {
    if n > 0 {
      SelectedSplits(ms, n - 1, a, start, mid, end);
      var k := n - 1;
      var xs, ys := Selected(ms, k, a, start, Some(mid)), Selected(ms, k, a, Some(mid + 1), end);
      if OnStatement(ms[k], a, start, end) {
        if ms[k].date <= mid {
          forall j | 0 <= j < |ys| ensures ms[ys[j]].date > ms[k].date {
            SelectedDated(ms, k, a, Some(mid + 1), end, j);
          }
          InsertIntoFirst(ms, xs, ys, k);
        } else {
          forall i | 0 <= i < |xs| ensures ms[xs[i]].date <= ms[k].date {
            SelectedDated(ms, k, a, start, Some(mid), i);
          }
          InsertIntoSecond(ms, xs, ys, k);
        }
      }
    }
  }

  lemma {:induction false} RowsJoin(ms: seq<Movement>, xs: seq<nat>, ys: seq<nat>, a: Id, opening: int)
    requires AllWithin(xs, |ms|) && AllWithin(ys, |ms|)
    ensures Running(ms, xs + ys, a) == Running(ms, xs, a) + Running(ms, ys, a)
    ensures RowsOf(ms, xs + ys, a, opening) ==
            RowsOf(ms, xs, a, opening) + RowsOf(ms, ys, a, opening + Running(ms, xs, a))
    decreases |ys|
  {
    if ys == [] {
      assert xs + ys == xs;
    } else {
      var n := |ys| - 1;
      assert (xs + ys)[..|xs + ys| - 1] == xs + ys[..n];
      RowsJoin(ms, xs, ys[..n], a, opening);
    }
  }

  /**
   * Adjacent statements join: one's closing is the next one's opening, and their rows
   * one after the other, balances and all, are the rows of the whole range.
   */
  lemma AdjacentStatementsJoin(ms: seq<Movement>, a: Id, start: Option<Day>, mid: Day, end: Option<Day>)
    requires start.Some? ==> start.value <= mid + 1
    requires end.Some? ==> mid <= end.value
    ensures var whole := StatementOf(ms, a, start, end);
            var first := StatementOf(ms, a, start, Some(mid));
            var second := StatementOf(ms, a, Some(mid + 1), end);
            && first.closing == second.opening
            && whole.opening == first.opening
            && whole.rows == first.rows + second.rows
            && whole.closing == second.closing
  {
    ClosingIsBalance(ms, a, start, Some(mid));
    SelectedSplits(ms, |ms|, a, start, mid, end);
    RowsJoin(ms, Selected(ms, |ms|, a, start, Some(mid)), Selected(ms, |ms|, a, Some(mid + 1), end), a,
             OpeningBalance(ms, a, start));
  }
}
