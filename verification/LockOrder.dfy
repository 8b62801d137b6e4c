/** The written lock order, and that no set of transactions keeping it waits in a cycle
    (apps/ledger/services.py, apps/ledger/posting.py, apps/billing/services.py). */
module LockOrder {

  /** A row that is locked explicitly; a movement by its place in date, creation and id. */
  datatype Row =
    | InvoiceRow(pk: nat)
    | DocumentRow(pk: nat)
    | CounterRow(pk: nat)
    | MovementRow(pk: nat)
    | AccountRow(pk: nat)
    | CashRow(pk: nat)

  function Kind(r: Row): nat {
    match r
    case InvoiceRow(_) => 1
    case DocumentRow(_) => 2
    case CounterRow(_) => 3
    case MovementRow(_) => 4
    case AccountRow(_) => 5
    case CashRow(_) => 6
  }

  predicate Before(a: Row, b: Row) {
    Kind(a) < Kind(b) || (Kind(a) == Kind(b) && a.pk < b.pk)
  }

  // The paths ---------------------------------------------------------------------

  datatype Side = AccountSide(account: nat) | CashSide(cash: nat)

  /** The service paths, with the rows their lock statements name. */
  datatype Path =
    | RecordCollection(invoices: seq<nat>, counter: nat, account: nat, till: nat)
    | ApplyCollection(invoices: seq<nat>, collection: nat)
    | CancelCollection(invoices: seq<nat>, collection: nat, movements: seq<nat>)
    | RecordPaymentOut(counter: nat, account: nat, till: nat)
    | RecordManualEntry(sides: seq<Side>)
    | RecordTransfer(source: Side, target: Side)
    | RecordOpening(side: Side)
    | CancelDocument(document: nat, movements: seq<nat>)
    | EditDraft(invoice: nat)
    | IssueInvoice(invoice: nat, account: nat)
    | MarkPaid(invoice: nat, counter: nat, account: nat, till: nat)
    | CancelInvoice(invoice: nat, movements: seq<nat>)

  predicate Ascending(s: seq<nat>) {
    forall i, j :: 0 <= i < j < |s| ==> s[i] < s[j]
  }

  lemma Extended(first: nat, rest: seq<nat>)
    requires Ascending(rest) && forall y :: y in rest ==> first < y
    ensures Ascending([first] + rest)
  {
    var all := [first] + rest;
    forall i, j | 0 <= i < j < |all|
      ensures all[i] < all[j]
    {
      assert all[j] == rest[j - 1] && rest[j - 1] in rest;
    }
  }

  function Inserted(s: seq<nat>, x: nat): (r: seq<nat>)
    requires Ascending(s)
    ensures Ascending(r)
    ensures forall y :: y in r <==> y in s || y == x
  {
    if s == [] then [x]
    else if x < s[0] then [x] + s
    else if x == s[0] then s
    else
      var rest := Inserted(s[1..], x);
      assert forall y :: y in rest ==> s[0] < y by {
        assert forall y :: y in s[1..] ==> s[0] < y;
      }
      Extended(s[0], rest);
      [s[0]] + rest
  }

  /** A set of primary keys in their order, as the lock statements sort them. */
  function Sorted(pks: seq<nat>): (r: seq<nat>)
    ensures Ascending(r)
    ensures forall y :: y in r <==> y in pks
  {
    if pks == [] then [] else Inserted(Sorted(pks[1..]), pks[0])
  }

  function Rows(kind: nat -> Row, pks: seq<nat>): (r: seq<Row>)
    ensures |r| == |pks| && forall k :: 0 <= k < |r| ==> r[k] == kind(pks[k])
  {
    seq(|pks|, k requires 0 <= k < |pks| => kind(pks[k]))
  }

  function Invoices(pks: seq<nat>): seq<Row> {
    Rows((pk: nat) => InvoiceRow(pk), Sorted(pks))
  }

  function Movements(pks: seq<nat>): seq<Row> {
    Rows((pk: nat) => MovementRow(pk), Sorted(pks))
  }

  function AccountsOf(sides: seq<Side>): seq<nat> {
    if sides == [] then []
    else (if sides[0].AccountSide? then [sides[0].account] else []) + AccountsOf(sides[1..])
  }

  function TillsOf(sides: seq<Side>): seq<nat> {
    if sides == [] then []
    else (if sides[0].CashSide? then [sides[0].cash] else []) + TillsOf(sides[1..])
  }

  /** `lock_sides`: accounts first, then cash accounts, each by primary key. */
  function Sides(sides: seq<Side>): seq<Row> {
    Rows((pk: nat) => AccountRow(pk), Sorted(AccountsOf(sides)))
    + Rows((pk: nat) => CashRow(pk), Sorted(TillsOf(sides)))
  }

  function ToCollect(invoices: seq<nat>, counter: nat, account: nat, till: nat): seq<Row> {
    Invoices(invoices) + [CounterRow(counter)] + Sides([AccountSide(account), CashSide(till)])
  }

  /** The lock statements of a path, in the order the code runs them. */
  function Requests(p: Path): seq<Row> {
    match p
    case RecordCollection(invoices, counter, account, till) => ToCollect(invoices, counter, account, till)
    case ApplyCollection(invoices, collection) => Invoices(invoices) + [DocumentRow(collection)]
    case CancelCollection(invoices, collection, movements) =>
      Invoices(invoices) + [DocumentRow(collection)] + Movements(movements)
    case RecordPaymentOut(counter, account, till) =>
      [CounterRow(counter)] + Sides([AccountSide(account), CashSide(till)])
    case RecordManualEntry(sides) => Sides(sides)
    case RecordTransfer(source, target) => Sides([source, target]) + Sides([source]) + Sides([target])
    case RecordOpening(side) => Sides([side]) + Sides([side])
    case CancelDocument(document, movements) => [DocumentRow(document)] + Movements(movements)
    case EditDraft(invoice) => [InvoiceRow(invoice)]
    case IssueInvoice(invoice, account) =>
      [InvoiceRow(invoice)] + [InvoiceRow(invoice)] + Sides([AccountSide(account)])
    case MarkPaid(invoice, counter, account, till) =>
      [InvoiceRow(invoice)] + ToCollect([invoice], counter, account, till)
    case CancelInvoice(invoice, movements) =>
      [InvoiceRow(invoice)] + [InvoiceRow(invoice)] + Movements(movements)
  }

  /** Each row asked for is held already, or comes after every row held. */
  ghost predicate Ordered(rs: seq<Row>) {
    forall k :: 0 <= k < |rs| ==> rs[k] in rs[..k] || forall j :: 0 <= j < k ==> Before(rs[j], rs[k])
  }

  ghost predicate Increasing(rs: seq<Row>) {
    forall i, j :: 0 <= i < j < |rs| ==> Before(rs[i], rs[j])
  }

  /** Rows in increasing order, of kinds between these two. */
  ghost predicate Band(rs: seq<Row>, low: nat, high: nat) {
    Increasing(rs) && forall k :: 0 <= k < |rs| ==> low <= Kind(rs[k]) <= high
  }

  lemma BandsJoin(xs: seq<Row>, low: nat, middle: nat, ys: seq<Row>, high: nat)
    requires low <= middle < high && Band(xs, low, middle) && Band(ys, middle + 1, high)
    ensures Band(xs + ys, low, high)
  {
  }

  lemma RowBands(pks: seq<nat>)
    ensures Band(Invoices(pks), 1, 1) && Band(Movements(pks), 4, 4)
  {
  }

  lemma SidesBand(sides: seq<Side>)
    ensures Band(Sides(sides), 5, 6)
  {
    BandsJoin(Rows((pk: nat) => AccountRow(pk), Sorted(AccountsOf(sides))), 5, 5,
              Rows((pk: nat) => CashRow(pk), Sorted(TillsOf(sides))), 6);
  }

  /** Asking again for rows already held waits for nothing. */
  lemma HeldAlready(rs: seq<Row>, again: seq<Row>)
    requires Ordered(rs) && forall k :: 0 <= k < |again| ==> again[k] in rs
    ensures Ordered(rs + again)
  {
    var all := rs + again;
    forall k | 0 <= k < |all|
      ensures all[k] in all[..k] || forall j :: 0 <= j < k ==> Before(all[j], all[k])
    {
      if k < |rs| {
        assert all[..k] == rs[..k];
        assert rs[k] in rs[..k] || forall j :: 0 <= j < k ==> Before(rs[j], rs[k]);
      } else {
        assert all[k] == again[k - |rs|];
        var i :| 0 <= i < |rs| && rs[i] == all[k];
        assert all[..k][i] == all[k];
      }
    }
  }

  /** A row asked for twice running is asked for once. */
  lemma AskedTwice(r: Row, rs: seq<Row>)
    requires Increasing([r] + rs)
    ensures Ordered([r] + ([r] + rs))
  {
    var all := [r] + ([r] + rs);
    forall k | 0 <= k < |all|
      ensures all[k] in all[..k] || forall j :: 0 <= j < k ==> Before(all[j], all[k])
    {
      if k == 1 {
        assert all[..1][0] == r;
      } else if k > 1 {
        forall j | 0 <= j < k
          ensures Before(all[j], all[k])
        {
          var once := [r] + rs;
          assert all[k] == once[k - 1];
          assert all[j] == once[if j == 0 then 0 else j - 1];
        }
      }
    }
  }

  lemma OneSideOfTwo(source: Side, target: Side, side: Side)
    requires side == source || side == target
    ensures forall k :: 0 <= k < |Sides([side])| ==> Sides([side])[k] in Sides([source, target])
  {
    assert [source, target][1..] == [target] && [side][1..] == [] && [target][1..] == [];
    assert AccountsOf([side]) == (if side.AccountSide? then [side.account] else []);
    assert TillsOf([side]) == (if side.CashSide? then [side.cash] else []);
    assert Sorted([]) == [];
    OneOfTwo(source, target, side);
    hide AccountsOf, TillsOf, Sorted;
    forall k | 0 <= k < |Sides([side])|
      ensures Sides([side])[k] in Sides([source, target])
    {
      if side.AccountSide? {
        SortedOne(side.account);
      } else {
        SortedOne(side.cash);
      }
      SideLocked([source, target], Sides([side])[k]);
    }
  }

  lemma OneOfTwo(source: Side, target: Side, side: Side)
    requires side == source || side == target
    ensures if side.AccountSide? then side.account in AccountsOf([source, target]) else side.cash in TillsOf([source,
        target])
  {
    assert [source, target][1..] == [target] && [target][1..] == [];
  }

  lemma SideLocked(sides: seq<Side>, row: Row)
    requires (row.AccountRow? && row.pk in AccountsOf(sides)) || (row.CashRow? && row.pk in TillsOf(sides))
    ensures row in Sides(sides)
  {
    var accounts, tills := Sorted(AccountsOf(sides)), Sorted(TillsOf(sides));
    if row.AccountRow? {
      assert row.pk in accounts;
      var i :| 0 <= i < |accounts| && accounts[i] == row.pk;
      assert Sides(sides)[i] == row;
    } else {
      assert row.pk in tills;
      var i :| 0 <= i < |tills| && tills[i] == row.pk;
      assert Sides(sides)[|accounts| + i] == row;
    }
  }

  lemma SortedOne(pk: nat)
    ensures Sorted([pk]) == [pk]
  {
    assert [pk][1..] == [];
  }

  lemma ToCollectBand(invoices: seq<nat>, counter: nat, account: nat, till: nat)
    ensures Band(ToCollect(invoices, counter, account, till), 1, 6)
  {
    hide Sorted, AccountsOf, TillsOf;
    RowBands(invoices);
    SidesBand([AccountSide(account), CashSide(till)]);
    BandsJoin(Invoices(invoices), 1, 1, [CounterRow(counter)], 3);
    BandsJoin(Invoices(invoices) + [CounterRow(counter)], 1, 3, Sides([AccountSide(account), CashSide(till)]), 6);
  }

  lemma CancelledBand(invoices: seq<nat>, document: nat, movements: seq<nat>)
    ensures Band(Invoices(invoices) + [DocumentRow(document)] + Movements(movements), 1, 4)
    ensures Band(Invoices(invoices) + [DocumentRow(document)], 1, 2)
    ensures Band([DocumentRow(document)] + Movements(movements), 2, 4)
  {
    hide Sorted;
    RowBands(invoices);
    RowBands(movements);
    BandsJoin(Invoices(invoices), 1, 1, [DocumentRow(document)], 2);
    BandsJoin(Invoices(invoices) + [DocumentRow(document)], 1, 2, Movements(movements), 4);
    BandsJoin([DocumentRow(document)], 2, 2, Movements(movements), 4);
  }

  lemma TransferIsOrdered(source: Side, target: Side)
    ensures Ordered(Sides([source, target]) + Sides([source]) + Sides([target]))
  {
    hide Sides;
    SidesBand([source, target]);
    OneSideOfTwo(source, target, source);
    OneSideOfTwo(source, target, target);
    HeldAlready(Sides([source, target]), Sides([source]));
    HeldAlready(Sides([source, target]) + Sides([source]), Sides([target]));
  }

  /** The invoice is locked, and locked again, before the rest. */
  lemma InvoiceTwice(invoice: nat, rest: seq<Row>)
    requires Band(rest, 2, 6)
    ensures Ordered([InvoiceRow(invoice)] + [InvoiceRow(invoice)] + rest)
  {
    BandsJoin([InvoiceRow(invoice)], 1, 1, rest, 6);
    AskedTwice(InvoiceRow(invoice), rest);
    assert [InvoiceRow(invoice)] + [InvoiceRow(invoice)] + rest == [InvoiceRow(invoice)] + ([InvoiceRow(invoice)] + rest);
  }

  lemma MarkPaidIsOrdered(invoice: nat, counter: nat, account: nat, till: nat)
    ensures Ordered([InvoiceRow(invoice)] + ToCollect([invoice], counter, account, till))
  {
    var sides := [AccountSide(account), CashSide(till)];
    SortedOne(invoice);
    assert Invoices([invoice]) == [InvoiceRow(invoice)];
    SidesBand(sides);
    PaidInOrder(InvoiceRow(invoice), CounterRow(counter), Sides(sides));
  }

  lemma PaidInOrder(invoice: Row, counter: Row, sides: seq<Row>)
    requires invoice.InvoiceRow? && counter.CounterRow? && Band(sides, 5, 6)
    ensures Ordered([invoice] + ([invoice] + [counter] + sides))
  {
    BandsJoin([counter], 2, 4, sides, 6);
    InvoiceTwice(invoice.pk, [counter] + sides);
    assert [invoice] + ([invoice] + [counter] + sides) == [invoice] + [invoice] + ([counter] + sides);
  }

  /** Every service path asks for its rows in the written order. */
  lemma EveryPathIsOrdered(p: Path)
    ensures Ordered(Requests(p))
  {
    match p
    case RecordCollection(invoices, counter, account, till) => ToCollectBand(invoices, counter, account, till);
    case ApplyCollection(invoices, collection) => CancelledBand(invoices, collection, []);
    case CancelCollection(invoices, collection, movements) => CancelledBand(invoices, collection, movements);
    case RecordPaymentOut(counter, account, till) =>
      SidesBand([AccountSide(account), CashSide(till)]);
      BandsJoin([CounterRow(counter)], 3, 4, Sides([AccountSide(account), CashSide(till)]), 6);
    case RecordManualEntry(sides) => SidesBand(sides);
    case RecordTransfer(source, target) => TransferIsOrdered(source, target);
    case RecordOpening(side) =>
      SidesBand([side]);
      HeldAlready(Sides([side]), Sides([side]));
    case CancelDocument(document, movements) => CancelledBand([], document, movements);
    case EditDraft(invoice) =>
    case IssueInvoice(invoice, account) =>
      SidesBand([AccountSide(account)]);
      InvoiceTwice(invoice, Sides([AccountSide(account)]));
    case MarkPaid(invoice, counter, account, till) => MarkPaidIsOrdered(invoice, counter, account, till);
    case CancelInvoice(invoice, movements) =>
      RowBands(movements);
      InvoiceTwice(invoice, Movements(movements));
  }

  /** `cancel_collection`'s last attempt, which locks invoices after the document, keeps the order exactly
      when there is no newcomer among them. */
  lemma LateLocksKeepOrderIff(first: seq<nat>, document: nat, late: seq<nat>)
    ensures Ordered(Invoices(first) + [DocumentRow(document)] + Invoices(late)) <==>
            forall pk :: pk in late ==> pk in first
  {
    var held := Invoices(first) + [DocumentRow(document)];
    CancelledBand(first, document, []);
    if forall pk :: pk in late ==> pk in first {
      forall k | 0 <= k < |Invoices(late)|
        ensures Invoices(late)[k] in held
      {
        assert Sorted(late)[k] in late;
        InvoiceAmong(first, Sorted(late)[k]);
      }
      hide Invoices;
      HeldAlready(held, Invoices(late));
    } else {
      var pk :| pk in late && pk !in first;
      InvoiceAmong(first, pk);
      InvoiceAmong(late, pk);
      Newcomer(held, Invoices(late), InvoiceRow(pk), DocumentRow(document));
    }
  }

  lemma InvoiceAmong(pks: seq<nat>, pk: nat)
    ensures InvoiceRow(pk) in Invoices(pks) <==> pk in pks
  {
    var sorted := Sorted(pks);
    assert pk in sorted <==> pk in pks;
    if pk in sorted {
      var i :| 0 <= i < |sorted| && sorted[i] == pk;
      assert Invoices(pks)[i] == InvoiceRow(pk);
    }
  }

  /** A row that is not held, asked for after one it comes before, breaks the order. */
  lemma Newcomer(held: seq<Row>, more: seq<Row>, row: Row, later: Row)
    requires row in more && row !in held && later in held && !Before(later, row)
    ensures !Ordered(held + more)
  {
    var all := held + more;
    var k := FirstAt(more, row);
    var j :| 0 <= j < |held| && held[j] == later;
    var at := |held| + k;
    assert all[at] == row && all[j] == later;
    assert all[at] !in all[..at] by {
      assert all[..at] == held + more[..k];
    }
  }

  lemma {:induction false} FirstAt(rows: seq<Row>, row: Row) returns (k: nat)
    requires row in rows
    ensures k < |rows| && rows[k] == row && row !in rows[..k]
  {
    if rows[0] == row {
      k := 0;
    } else {
      k := FirstAt(rows[1..], row);
      assert rows[..k + 1] == [rows[0]] + rows[1..][..k];
      k := k + 1;
    }
  }

  // The transactions --------------------------------------------------------------------

  /** A running transaction has its first locks and waits for the next, or has them all. */
  datatype Transaction = Idle | Running(path: Path, at: nat)

  type World = seq<Transaction>

  function Held(t: Transaction): seq<Row>
    requires t.Running? ==> t.at <= |Requests(t.path)|
  {
    if t.Idle? then [] else Requests(t.path)[..t.at]
  }

  ghost predicate Valid(w: World) {
    forall t :: 0 <= t < |w| && w[t].Running? ==> w[t].at <= |Requests(w[t].path)|
  }

  ghost predicate Waiting(w: World, t: nat)
    requires Valid(w)
  {
    t < |w| && w[t].Running? && w[t].at < |Requests(w[t].path)|
  }

  function Wanted(w: World, t: nat): Row
    requires Valid(w) && Waiting(w, t)
  {
    Requests(w[t].path)[w[t].at]
  }

  /** Some other transaction holds the row this one wants. */
  ghost predicate Blocks(w: World, u: nat, t: nat)
    requires Valid(w) && Waiting(w, t)
  {
    u < |w| && u != t && Wanted(w, t) in Held(w[u])
  }

  /** No row is held by two transactions. */
  ghost predicate Exclusive(w: World)
    requires Valid(w)
  {
    forall t: nat, u: nat, r: Row :: t < |w| && u < |w| && t != u && r in Held(w[t]) ==> r !in Held(w[u])
  }

  ghost predicate Begins(w: World, w': World, t: nat, p: Path) {
    t < |w| && w[t].Idle? && w' == w[t := Running(p, 0)]
  }

  ghost predicate Acquires(w: World, w': World, t: nat)
    requires Valid(w)
  {
    && Waiting(w, t) && (forall u: nat :: !Blocks(w, u, t))
    && w' == w[t := Running(w[t].path, w[t].at + 1)]
  }

  /** Commit or rollback, at any point: every lock is let go. */
  ghost predicate Ends(w: World, w': World, t: nat) {
    t < |w| && w[t].Running? && w' == w[t := Idle]
  }

  /** One transaction takes one step. */
  ghost predicate Next(w: World, w': World)
    requires Valid(w)
  {
    || (exists t: nat, p :: Begins(w, w', t, p))
    || (exists t: nat :: Acquires(w, w', t))
    || (exists t: nat :: Ends(w, w', t))
  }

  lemma NextKeepsExclusive(w: World, w': World)
    requires Valid(w) && Exclusive(w) && Next(w, w')
    ensures Valid(w') && Exclusive(w')
  {
    hide Requests;
    if exists t: nat :: Acquires(w, w', t) {
      var t: nat :| Acquires(w, w', t);
      var wanted := Wanted(w, t);
      assert Held(w'[t]) == Held(w[t]) + [wanted];
      forall u: nat | u < |w| && u != t
        ensures wanted !in Held(w'[u])
      {
        assert !Blocks(w, u, t);
      }
    }
  }

  /** The rows held by a transaction come before the row it waits for. */
  lemma HeldBeforeWanted(w: World, t: nat, u: nat)
    requires Valid(w) && Exclusive(w) && Waiting(w, t) && Waiting(w, u) && Blocks(w, u, t)
    ensures Before(Wanted(w, t), Wanted(w, u)) || Wanted(w, u) in Held(w[u])
  {
    hide Requests;
    EveryPathIsOrdered(w[u].path);
    var rs := Requests(w[u].path);
    var i :| 0 <= i < w[u].at && rs[i] == Wanted(w, t);
  }

  /** Someone can always go on: of the transactions that are running, one has all its locks, or the next
      lock it asks for is free or its own. */
  ghost predicate CanGoOn(w: World, t: nat)
    requires Valid(w)
  {
    t < |w| && w[t].Running? && (Waiting(w, t) ==> forall u: nat :: !Blocks(w, u, t))
  }

  ghost function Later(w: World, t: nat): set<nat>
    requires Valid(w) && Waiting(w, t)
  {
    set u: nat | u < |w| && Waiting(w, u) && Before(Wanted(w, t), Wanted(w, u)) :: u
  }

  lemma SomeoneGoesOn(w: World, t: nat) returns (u: nat)
    requires Valid(w) && Exclusive(w) && t < |w| && w[t].Running?
    ensures CanGoOn(w, u)
    decreases if Waiting(w, t) then 1 + |Later(w, t)| else 0
  {
    if CanGoOn(w, t) {
      return t;
    }
    var next: nat :| Blocks(w, next, t);
    if CanGoOn(w, next) {
      return next;
    }
    var third: nat :| Blocks(w, third, next);
    HeldBeforeWanted(w, t, next);
    assert Wanted(w, next) in Held(w[third]) && Wanted(w, next) !in Held(w[next]);
    LaterShrinks(w, t, next);
    u := SomeoneGoesOn(w, next);
  }

  lemma LaterShrinks(w: World, t: nat, u: nat)
    requires Valid(w) && Waiting(w, t) && Waiting(w, u) && Before(Wanted(w, t), Wanted(w, u))
    ensures |Later(w, u)| < |Later(w, t)|
  {
    hide Requests;
    assert u in Later(w, t) && u !in Later(w, u);
    assert Later(w, u) <= Later(w, t) - {u};
    SmallerSet(Later(w, u), Later(w, t) - {u});
  }

  lemma {:induction false} SmallerSet(a: set<nat>, b: set<nat>)
    requires a <= b
    ensures |a| <= |b|
    decreases |a|
  {
    if a != {} {
      var x :| x in a;
      SmallerSet(a - {x}, b - {x});
    }
  }

  /** Each transaction of the list waits for a row the next one holds, and the last for one of the first. */
  ghost predicate WaitsInACycle(w: World, ts: seq<nat>)
    requires Valid(w)
  {
    && ts != []
    && (forall k :: 0 <= k < |ts| ==> Waiting(w, ts[k]))
    && (forall k :: 0 <= k < |ts| ==> Blocks(w, ts[if k + 1 < |ts| then k + 1 else 0], ts[k]))
  }

  /** No set of concurrent transactions on these paths waits in a cycle. */
  lemma NoCycle(w: World, ts: seq<nat>)
    requires Valid(w) && Exclusive(w)
    ensures !WaitsInACycle(w, ts)
  {
    if WaitsInACycle(w, ts) {
      var last := |ts| - 1;
      ClimbsTo(w, ts, last);
      hide Wanted, Held;
      assert Blocks(w, ts[0], ts[last]);
      BlockedIsNotHeld(w, ts, 0);
      HeldBeforeWanted(w, ts[last], ts[0]);
    }
  }

  /** What a blocked transaction wants it does not hold itself. */
  lemma BlockedIsNotHeld(w: World, ts: seq<nat>, k: nat)
    requires Valid(w) && Exclusive(w) && WaitsInACycle(w, ts) && k < |ts|
    ensures Wanted(w, ts[k]) !in Held(w[ts[k]])
  {
    var next := ts[if k + 1 < |ts| then k + 1 else 0];
    assert Blocks(w, next, ts[k]);
  }

  lemma {:induction false} ClimbsTo(w: World, ts: seq<nat>, k: nat)
    requires Valid(w) && Exclusive(w) && WaitsInACycle(w, ts) && k < |ts|
    ensures k == 0 || Before(Wanted(w, ts[0]), Wanted(w, ts[k]))
  {
    if k > 0 {
      ClimbsTo(w, ts, k - 1);
      assert Blocks(w, ts[k - 1 + 1], ts[k - 1]);
      BlockedIsNotHeld(w, ts, k);
      HeldBeforeWanted(w, ts[k - 1], ts[k]);
    }
  }

  ghost predicate IsRun(run: seq<World>) {
    && run != []
    && (forall t :: 0 <= t < |run[0]| ==> run[0][t].Idle?)
    && (forall k :: 0 <= k < |run| ==> Valid(run[k]))
    && forall k :: 0 <= k < |run| - 1 ==> Next(run[k], run[k + 1])
  }

  lemma {:induction false} RunsStayExclusive(run: seq<World>)
    requires IsRun(run)
    ensures Valid(run[|run| - 1]) && Exclusive(run[|run| - 1])
  {
    hide Next, Valid, Requests;
    var n := |run| - 1;
    if n > 0 {
      assert IsRun(run[..n]);
      RunsStayExclusive(run[..n]);
      NextKeepsExclusive(run[n - 1], run[n]);
    }
  }

  /** In every run of any number of these calls no set of transactions waits in a cycle, and while any is running
      one can go on. */
  lemma RunsNeverDeadlock(run: seq<World>, ts: seq<nat>, t: nat) returns (u: nat)
    requires IsRun(run)
    ensures !WaitsInACycle(run[|run| - 1], ts)
    ensures t < |run[|run| - 1]| && run[|run| - 1][t].Running? ==> CanGoOn(run[|run| - 1], u)
  {
    var w := run[|run| - 1];
    RunsStayExclusive(run);
    NoCycle(w, ts);
    u := 0;
    if t < |w| && w[t].Running? {
      u := SomeoneGoesOn(w, t);
    }
  }
}
