/** A run in which `cancel_collection` reaches its last attempt and deadlocks with an apply (apps/ledger/services.py). */
module LateLocks {
  import opened LockOrder
  import opened CancelRace

  type State = CancelRace.World

  const CANCELLING: Job := Cancel(0)
  const IDLE: Tx := Tx(Phase.Idle, {})

  function Below(n: nat): (s: set<nat>)
    ensures forall i: nat :: i in s <==> i < n
  {
    if n == 0 then {} else Below(n - 1) + {n - 1}
  }

  /** Invoices 0, 1 and 2, and a collection that pays the first n of them. */
  function Paid(n: nat): Db
    requires n <= 3
  {
    Db(seq(3, i => Invoice(5, false)), [Collection(10, false)], seq(n, k requires 0 <= k < n => Application(0, k, 1)))
  }

  /** Transaction 0 cancels the collection, transaction 1 applies it, again and again. */
  function Both(n: nat, cancel: Tx, apply: Tx): State
    requires n <= 3
  {
    CancelRace.World(Paid(n), [cancel, apply])
  }

  ghost predicate Reaches(run: seq<State>, n: nat, cancel: Tx, apply: Tx) {
    n <= 3 && CancelRace.IsRun(run) && run[|run| - 1] == Both(n, cancel, apply)
  }

  lemma Step(run: seq<State>, n: nat, cancel: Tx, apply: Tx, m: nat, cancel': Tx, apply': Tx, t: nat)
    returns (more: seq<State>)
    requires Reaches(run, n, cancel, apply) && m <= 3
    requires NextBy(Both(n, cancel, apply), Both(m, cancel', apply'), t)
    ensures Reaches(more, m, cancel', apply')
  {
    hide NextBy, CancelRace.Sound;
    more := run + [Both(m, cancel', apply')];
    assert CancelRace.Next(run[|run| - 1], Both(m, cancel', apply'));
  }

  // What is committed ---------------------------------------------------------------------

  lemma {:induction false} PaidMeans(n: nat, i: nat)
    requires n <= 3
    ensures Paying(Paid(n), i) == if i < n then 1 else 0
    ensures Applied(Paid(n).applications, 0) == n
    ensures AppliedInvoices(Paid(n).applications, 0) == Below(n)
  {
    if n > 0 {
      PaidMeans(n - 1, i);
      var apps := Paid(n).applications;
      assert apps[..n - 1] == Paid(n - 1).applications;
      assert forall a :: a in apps <==> a in apps[..n - 1] || a == apps[n - 1];
    }
  }

  lemma StartIsSound()
    ensures CancelRace.Sound(Paid(0))
  {
    forall i: nat
      ensures Paying(Paid(0), i) == 0
    {
      PaidMeans(0, i);
    }
  }

  // One more apply ------------------------------------------------------------------------

  function Applying(i: nat, amount: nat): Job {
    Apply(0, [(i, amount)])
  }

  /** The next invoice may be paid, and paying it is one application more. */
  lemma WrittenIsPaid(n: nat)
    requires n < 3
    ensures Allowed(Paid(n), 0, [(n, 1)])
    ensures Written(Paid(n), Applying(n, 1)) == Paid(n + 1)
  {
    hide Paying, Applied, AppliedInvoices;
    PaidMeans(n, n);
    assert Paid(n).applications + [Application(0, n, 1)] == Paid(n + 1).applications;
    assert Total([(n, 1)][..0]) == 0;
    assert NewApplications(0, [(n, 1)]) == [Application(0, n, 1)];
  }

  /** It still owes after that, so its status stays what it was. */
  lemma StatusStays(n: nat)
    requires n < 3
    ensures Statuses(Paid(n + 1), {n}) == map[n := false]
  {
    hide Paying, Applied, AppliedInvoices;
    PaidMeans(n + 1, n);
    var paid := Statuses(Paid(n + 1), {n});
    assert paid.Keys == {n} && !paid[n];
  }

  lemma PublishedIsPaid(n: nat)
    requires n < 3 && Written(Paid(n), Applying(n, 1)) == Paid(n + 1)
    ensures Published(Paid(n), Applying(n, 1), map[n := false]) == Paid(n + 1)
  {
    hide Written;
    var after := Published(Paid(n), Applying(n, 1), map[n := false]);
    assert after.invoices == Paid(n + 1).invoices;
  }

  /** An apply of one invoice begins, finds its invoice and locks it. */
  lemma ApplyLocks(run: seq<State>, n: nat, cancel: Tx, i: nat, amount: nat) returns (more: seq<State>)
    requires Reaches(run, n, cancel, IDLE) && InvoiceRow(i) !in cancel.held
    ensures Reaches(more, n, cancel, Tx(LockInvoices(Applying(i, amount), 0, {i}), {InvoiceRow(i)}))
  {
    var job := Applying(i, amount);
    var begun := Tx(Start(job, 0), {});
    var found, locked := Tx(LockInvoices(job, 0, {i}), {}), Tx(LockInvoices(job, 0, {i}), {InvoiceRow(i)});
    assert CancelRace.Begins(Both(n, cancel, IDLE), Both(n, cancel, begun), 1, job);
    more := Step(run, n, cancel, IDLE, n, cancel, begun, 1);
    assert InvoicesOf([(i, amount)]) == {i} by {
      assert (i, amount) in [(i, amount)];
    }
    assert Reads(Both(n, cancel, begun), Both(n, cancel, found), 1);
    more := Step(more, n, cancel, begun, n, cancel, found, 1);
    assert {} + {InvoiceRow(i)} == {InvoiceRow(i)};
    assert LocksInvoice(Both(n, cancel, found), Both(n, cancel, locked), 1, i);
    more := Step(more, n, cancel, found, n, cancel, locked, 1);
  }

  /** While the cancel holds nothing, an apply adds the next invoice. */
  lemma ApplyNext(run: seq<State>, n: nat, cancel: Tx) returns (more: seq<State>)
    requires Reaches(run, n, cancel, IDLE) && n < 3 && cancel.held == {}
    ensures Reaches(more, n + 1, cancel, IDLE)
  {
    hide Paying, Applied, AppliedInvoices, Statuses, Written, Published, Allowed, CancelRace.IsRun;
    var job := Applying(n, 1);
    var rows := {InvoiceRow(n), DocumentRow(0)};
    var locked := Tx(LockInvoices(job, 0, {n}), {InvoiceRow(n)});
    var has, ready := Tx(HasDocument(job, 0, {n}), rows), Tx(Ready(job, {n}, map[n := false]), rows);
    more := ApplyLocks(run, n, cancel, n, 1);
    WrittenIsPaid(n);
    StatusStays(n);
    PublishedIsPaid(n);
    assert {InvoiceRow(n)} + {DocumentRow(0)} == rows;
    assert LocksDocument(Both(n, cancel, locked), Both(n, cancel, has), 1);
    more := Step(more, n, cancel, locked, n, cancel, has, 1);
    assert WorksOutApply(Both(n, cancel, has), Both(n, cancel, ready), 1);
    more := Step(more, n, cancel, has, n, cancel, ready, 1);
    assert Commits(Both(n, cancel, ready), Both(n + 1, cancel, IDLE), 1);
    more := Step(more, n, cancel, ready, n + 1, cancel, IDLE, 1);
  }

  // One more attempt -----------------------------------------------------------------------

  function LockedRows(k: nat): set<Row> {
    set i: nat | i < k :: InvoiceRow(i)
  }

  /** The cancel at its a-th attempt has read a invoices and locked the first k of them. */
  function Locking(a: nat, k: nat): Tx {
    Tx(LockInvoices(CANCELLING, a, Below(a)), LockedRows(k))
  }

  lemma {:induction false} LocksItsInvoices(run: seq<State>, a: nat, k: nat) returns (more: seq<State>)
    requires k <= a <= 2 && Reaches(run, a + 1, Locking(a, 0), IDLE)
    ensures Reaches(more, a + 1, Locking(a, k), IDLE)
  {
    if k == 0 {
      more := run;
    } else {
      var before := LocksItsInvoices(run, a, k - 1);
      hide Paying, Applied, AppliedInvoices, CancelRace.IsRun;
      assert LockedRows(k) == LockedRows(k - 1) + {InvoiceRow(k - 1)};
      assert LocksInvoice(Both(a + 1, Locking(a, k - 1), IDLE), Both(a + 1, Locking(a, k), IDLE), 0, k - 1);
      more := Step(before, a + 1, Locking(a, k - 1), IDLE, a + 1, Locking(a, k), IDLE, 0);
    }
  }

  /** It locks them and the collection: and finds one invoice more than it has read. */
  lemma FindsOneMore(run: seq<State>, a: nat) returns (more: seq<State>)
    requires a <= 2 && Reaches(run, a + 1, Locking(a, 0), IDLE)
    ensures a < 2 ==> Reaches(more, a + 1, Tx(Start(CANCELLING, a + 1), {}), IDLE)
    ensures a == 2 ==>
              Reaches(more, 3, Tx(LockLate(CANCELLING, 2, Below(3)), LockedRows(2) + {DocumentRow(0)}), IDLE)
  {
    hide Paying, Applied, AppliedInvoices, Statuses, Written, CancelRace.IsRun;
    var held := LockedRows(a) + {DocumentRow(0)};
    var has := Tx(HasDocument(CANCELLING, a, Below(a)), held);
    var next := if a < 2 then Tx(Start(CANCELLING, a + 1), {}) else Tx(LockLate(CANCELLING, 2, Below(3)), held);
    more := LocksItsInvoices(run, a, a);
    PaidMeans(a + 1, 0);
    assert LocksDocument(Both(a + 1, Locking(a, a), IDLE), Both(a + 1, has, IDLE), 0);
    more := Step(more, a + 1, Locking(a, a), IDLE, a + 1, has, IDLE, 0);
    assert a in Below(a + 1) && a !in Below(a);
    assert Rechecks(Both(a + 1, has, IDLE), Both(a + 1, next, IDLE), 0);
    more := Step(more, a + 1, has, IDLE, a + 1, next, IDLE, 0);
  }

  /** It reads the invoices there are; before it locks any, an apply adds one. */
  lemma MissesOne(run: seq<State>, a: nat) returns (more: seq<State>)
    requires a <= 2 && Reaches(run, a, Tx(Start(CANCELLING, a), {}), IDLE)
    ensures Reaches(more, a + 1, Locking(a, 0), IDLE)
  {
    hide Paying, Applied, AppliedInvoices, CancelRace.IsRun;
    PaidMeans(a, 0);
    assert LockedRows(0) == {};
    assert Reads(Both(a, Tx(Start(CANCELLING, a), {}), IDLE), Both(a, Locking(a, 0), IDLE), 0);
    more := Step(run, a, Tx(Start(CANCELLING, a), {}), IDLE, a, Locking(a, 0), IDLE, 0);
    more := ApplyNext(more, a, Locking(a, 0));
  }

  lemma {:induction false} Attempt(a: nat) returns (run: seq<State>)
    requires a <= 2
    ensures Reaches(run, a, Tx(Start(CANCELLING, a), {}), IDLE)
  {
    if a == 0 {
      StartIsSound();
      hide Paying, Applied, AppliedInvoices, CancelRace.Sound;
      run := [Both(0, IDLE, IDLE)];
      assert CancelRace.Begins(Both(0, IDLE, IDLE), Both(0, Tx(Start(CANCELLING, 0), {}), IDLE), 0, CANCELLING);
      run := Step(run, 0, IDLE, IDLE, 0, Tx(Start(CANCELLING, 0), {}), IDLE, 0);
    } else {
      run := Attempt(a - 1);
      run := MissesOne(run, a - 1);
      run := FindsOneMore(run, a - 1);
    }
  }

  // The deadlock ------------------------------------------------------------------------------

  /** Three applies, one between each unlocked read of the cancel and its locks, bring it to its last attempt; a
      fourth that has locked the newcomer then waits for the collection, and the cancel for the newcomer. */
  lemma LateLocksDeadlock() returns (run: seq<State>)
    ensures CancelRace.IsRun(run)
    ensures |run[|run| - 1].txs| == 2 && run[|run| - 1].txs[0].phase.LockLate?
    ensures WaitCycle(run[|run| - 1], [0, 1], [InvoiceRow(2), DocumentRow(0)])
  {
    hide CancelRace.IsRun;
    run := Attempt(2);
    run := MissesOne(run, 2);
    run := FindsOneMore(run, 2);
    var late := Tx(LockLate(CANCELLING, 2, Below(3)), LockedRows(2) + {DocumentRow(0)});
    run := ApplyLocks(run, 3, late, 2, 1);
  }
}
