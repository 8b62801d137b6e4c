/** `cancel_collection` against `apply_collection`, lock by lock (apps/ledger/services.py).

    Any number of transactions run both calls. A transaction takes one row lock a step, reads what others
    have committed, keeps its own writes to itself, and publishes them when it commits. */
module CancelRace {
  import opened LockOrder

  const CANCEL_ATTEMPTS: nat := 3

  datatype Invoice = Invoice(total: nat, paid: bool)
  datatype Collection = Collection(amount: nat, cancelled: bool)
  datatype Application = Application(collection: nat, invoice: nat, amount: nat)
  /** What is committed. */
  datatype Db = Db(invoices: seq<Invoice>, collections: seq<Collection>, applications: seq<Application>)

  predicate Stands(cs: seq<Collection>, c: nat) {
    c < |cs| && !cs[c].cancelled
  }

  /** What standing collections have paid of an invoice (`invoice_collected`). */
  function Collected(apps: seq<Application>, cs: seq<Collection>, i: nat): nat {
    if apps == [] then 0
    else
      var last := apps[|apps| - 1];
      Collected(apps[..|apps| - 1], cs, i)
      + (if last.invoice == i && Stands(cs, last.collection) then last.amount else 0)
  }

  /** What a collection has been applied to, in all. */
  function Applied(apps: seq<Application>, c: nat): nat {
    if apps == [] then 0
    else
      var last := apps[|apps| - 1];
      Applied(apps[..|apps| - 1], c) + (if last.collection == c then last.amount else 0)
  }

  /** The invoices a collection pays (`_applied_invoice_ids`). */
  function AppliedInvoices(apps: seq<Application>, c: nat): set<nat> {
    set a | a in apps && a.collection == c :: a.invoice
  }

  function Paying(db: Db, i: nat): nat {
    Collected(db.applications, db.collections, i)
  }

  /** The invoices' statuses agree with what they owe, and nothing is paid or applied beyond what there is. */
  ghost predicate Sound(db: Db) {
    && (forall i :: 0 <= i < |db.invoices| ==> StatusAgrees(db, i))
    && (forall c :: 0 <= c < |db.collections| ==> Applied(db.applications, c) <= db.collections[c].amount)
  }

  ghost predicate StatusAgrees(db: Db, i: nat)
    requires i < |db.invoices|
  {
    Paying(db, i) <= db.invoices[i].total && (db.invoices[i].paid <==> Paying(db, i) == db.invoices[i].total)
  }

  // The transactions -------------------------------------------------------------------

  /** An amount for each invoice, in the order of their keys. */
  type Wants = seq<(nat, nat)>

  predicate InKeyOrder(wants: Wants) {
    forall i, j :: 0 <= i < j < |wants| ==> wants[i].0 < wants[j].0
  }

  datatype Job = Apply(collection: nat, wants: Wants) | Cancel(collection: nat)

  datatype Phase =
    | Idle
    | Start(job: Job, attempt: nat)
    | LockInvoices(job: Job, attempt: nat, ids: set<nat>)
    | HasDocument(job: Job, attempt: nat, ids: set<nat>)
    | LockLate(job: Job, attempt: nat, ids: set<nat>)
    | Ready(job: Job, ids: set<nat>, paid: map<nat, bool>)

  datatype Tx = Tx(phase: Phase, held: set<Row>)

  datatype World = World(db: Db, txs: seq<Tx>)

  function InvoicesOf(wants: Wants): set<nat> {
    set w | w in wants :: w.0
  }

  function NewApplications(c: nat, wants: Wants): (r: seq<Application>)
    ensures |r| == |wants|
    ensures forall k :: 0 <= k < |r| ==> r[k] == Application(c, wants[k].0, wants[k].1)
  {
    seq(|wants|, k requires 0 <= k < |wants| => Application(c, wants[k].0, wants[k].1))
  }

  function Total(wants: Wants): nat {
    if wants == [] then 0 else Total(wants[..|wants| - 1]) + wants[|wants| - 1].1
  }

  /** `_apply` accepts: each invoice up to what it owes and not twice, all together up to what is left. */
  predicate Allowed(db: Db, c: nat, wants: Wants) {
    && c < |db.collections|
    && Total(wants) + Applied(db.applications, c) <= db.collections[c].amount
    && forall k :: 0 <= k < |wants| ==>
         && wants[k].0 < |db.invoices| && wants[k].1 > 0
         && Paying(db, wants[k].0) + wants[k].1 <= db.invoices[wants[k].0].total
         && wants[k].0 !in AppliedInvoices(db.applications, c)
  }

  /** What the transaction itself sees once it has written its applications, or its cancellation. */
  function Written(db: Db, job: Job): Db {
    match job
    case Apply(c, wants) => db.(applications := db.applications + NewApplications(c, wants))
    case Cancel(c) =>
      if c < |db.collections| then db.(collections := db.collections[c := db.collections[c].(cancelled := true)]) else db
  }

  /** The statuses `sync_invoice_status` gives these invoices, read after the transaction's own writes. */
  function Statuses(db: Db, ids: set<nat>): map<nat, bool> {
    map i | i in ids && i < |db.invoices| :: i := Paying(db, i) >= db.invoices[i].total
  }

  /** The writes published: the job's rows, and the statuses it worked out before. */
  function Published(db: Db, job: Job, paid: map<nat, bool>): Db {
    var written := Written(db, job);
    written.(invoices := seq(|db.invoices|, i requires 0 <= i < |db.invoices| =>
      if i in paid then db.invoices[i].(paid := paid[i]) else db.invoices[i]))
  }

  // Steps -------------------------------------------------------------------------------

  /** No other transaction holds the row. */
  ghost predicate Free(w: World, t: nat, row: Row) {
    forall u: nat :: u < |w.txs| && u != t ==> row !in w.txs[u].held
  }

  ghost predicate Moves(w: World, w': World, t: nat, phase: Phase, held: set<Row>) {
    t < |w.txs| && w' == World(w.db, w.txs[t := Tx(phase, held)])
  }

  ghost predicate Begins(w: World, w': World, t: nat, job: Job) {
    && t < |w.txs| && w.txs[t].phase.Idle?
    && (job.Apply? ==> InKeyOrder(job.wants))
    && Moves(w, w', t, Start(job, 0), {})
  }

  /** The invoices are found without a lock. */
  ghost predicate Reads(w: World, w': World, t: nat) {
    && t < |w.txs| && w.txs[t].phase.Start?
    && var p := w.txs[t].phase;
       var ids := if p.job.Apply? then InvoicesOf(p.job.wants)
                  else AppliedInvoices(w.db.applications, p.job.collection);
       Moves(w, w', t, LockInvoices(p.job, p.attempt, ids), {})
  }

  /** The row a transaction waits for in this phase: the least invoice not yet held, then the document. */
  ghost predicate WaitsFor(tx: Tx, row: Row) {
    match tx.phase
    case LockInvoices(job, _, ids) =>
      || (row.InvoiceRow? && row.pk in ids && row !in tx.held
          && forall i :: i in ids && i < row.pk ==> InvoiceRow(i) in tx.held)
      || (row == DocumentRow(job.collection) && forall i :: i in ids ==> InvoiceRow(i) in tx.held)
    case LockLate(_, _, ids) =>
      row.InvoiceRow? && row.pk in ids && row !in tx.held
      && forall i :: i in ids && i < row.pk ==> InvoiceRow(i) in tx.held
    case _ => false
  }

  ghost predicate LocksInvoice(w: World, w': World, t: nat, i: nat) {
    && t < |w.txs| && WaitsFor(w.txs[t], InvoiceRow(i)) && Free(w, t, InvoiceRow(i))
    && Moves(w, w', t, w.txs[t].phase, w.txs[t].held + {InvoiceRow(i)})
  }

  /** Locked, the document is refused if it is cancelled. */
  ghost predicate LocksDocument(w: World, w': World, t: nat) {
    && t < |w.txs| && w.txs[t].phase.LockInvoices?
    && var p := w.txs[t].phase;
       var row := DocumentRow(p.job.collection);
       && WaitsFor(w.txs[t], row) && Free(w, t, row)
       && if Stands(w.db.collections, p.job.collection)
          then Moves(w, w', t, HasDocument(p.job, p.attempt, p.ids), w.txs[t].held + {row})
          else Moves(w, w', t, Phase.Idle, {})
  }

  /** Under its locks, `apply_collection` checks and works out what it writes. */
  ghost predicate WorksOutApply(w: World, w': World, t: nat) {
    && t < |w.txs| && w.txs[t].phase.HasDocument? && w.txs[t].phase.job.Apply?
    && var p := w.txs[t].phase;
       if Allowed(w.db, p.job.collection, p.job.wants)
       then Moves(w, w', t, Ready(p.job, p.ids, Statuses(Written(w.db, p.job), p.ids)), w.txs[t].held)
       else Moves(w, w', t, Phase.Idle, {})
  }

  /** Holding its locks, `cancel_collection` reads once more, and gives them up for another attempt if it finds a newcomer;
      its last attempt locks the newcomers late. */
  ghost predicate Rechecks(w: World, w': World, t: nat) {
    && t < |w.txs| && w.txs[t].phase.HasDocument? && w.txs[t].phase.job.Cancel?
    && var p := w.txs[t].phase;
       var applied := AppliedInvoices(w.db.applications, p.job.collection);
       if !(applied <= p.ids) && p.attempt + 1 < CANCEL_ATTEMPTS
       then Moves(w, w', t, Start(p.job, p.attempt + 1), {})
       else if !(applied <= p.ids)
       then Moves(w, w', t, LockLate(p.job, p.attempt, applied), w.txs[t].held)
       else Moves(w, w', t, Ready(p.job, applied, Statuses(Written(w.db, p.job), applied)), w.txs[t].held)
  }

  ghost predicate LateLocksDone(w: World, w': World, t: nat) {
    && t < |w.txs| && w.txs[t].phase.LockLate?
    && var p := w.txs[t].phase;
       && (forall i :: i in p.ids ==> InvoiceRow(i) in w.txs[t].held)
       && Moves(w, w', t, Ready(p.job, p.ids, Statuses(Written(w.db, p.job), p.ids)), w.txs[t].held)
  }

  ghost predicate Commits(w: World, w': World, t: nat) {
    && t < |w.txs| && w.txs[t].phase.Ready?
    && var p := w.txs[t].phase;
       w' == World(Published(w.db, p.job, p.paid), w.txs[t := Tx(Phase.Idle, {})])
  }

  /** A rollback, at any point. */
  ghost predicate RollsBack(w: World, w': World, t: nat) {
    Moves(w, w', t, Phase.Idle, {})
  }

  ghost predicate NextBy(w: World, w': World, t: nat) {
    || (exists job :: Begins(w, w', t, job))
    || Reads(w, w', t)
    || (exists i: nat :: LocksInvoice(w, w', t, i))
    || LocksDocument(w, w', t)
    || WorksOutApply(w, w', t)
    || Rechecks(w, w', t)
    || LateLocksDone(w, w', t)
    || Commits(w, w', t)
    || RollsBack(w, w', t)
  }

  /** Some transaction takes one step. */
  ghost predicate Next(w: World, w': World) {
    exists t: nat :: NextBy(w, w', t)
  }

  ghost predicate IsRun(run: seq<World>) {
    && run != [] && Sound(run[0].db)
    && (forall t :: 0 <= t < |run[0].txs| ==> run[0].txs[t] == Tx(Phase.Idle, {}))
    && forall k :: 0 <= k < |run| - 1 ==> Next(run[k], run[k + 1])
  }

  // The invariant -----------------------------------------------------------------------

  ghost predicate HoldsInvoices(held: set<Row>, ids: set<nat>) {
    forall i :: i in ids ==> InvoiceRow(i) in held
  }

  /** What a transaction has read still holds of what is committed now. */
  ghost predicate UpToDate(db: Db, tx: Tx) {
    match tx.phase
    case Idle => tx.held == {}
    case Start(job, attempt) =>
      tx.held == {} && attempt < CANCEL_ATTEMPTS && (job.Apply? ==> InKeyOrder(job.wants))
    case LockInvoices(job, attempt, ids) =>
      && attempt < CANCEL_ATTEMPTS
      && (job.Apply? ==> InKeyOrder(job.wants) && ids == InvoicesOf(job.wants))
      && forall row :: row in tx.held ==>
           row.InvoiceRow? && row.pk in ids && forall i :: i in ids && i < row.pk ==> InvoiceRow(i) in tx.held
    case HasDocument(job, attempt, ids) =>
      && attempt < CANCEL_ATTEMPTS
      && (job.Apply? ==> InKeyOrder(job.wants) && ids == InvoicesOf(job.wants))
      && HoldsInvoices(tx.held, ids)
      && DocumentRow(job.collection) in tx.held && Stands(db.collections, job.collection)
    case LockLate(job, attempt, ids) =>
      && attempt + 1 == CANCEL_ATTEMPTS && job.Cancel?
      && DocumentRow(job.collection) in tx.held && Stands(db.collections, job.collection)
      && ids == AppliedInvoices(db.applications, job.collection)
    case Ready(job, ids, paid) =>
      && HoldsInvoices(tx.held, ids)
      && DocumentRow(job.collection) in tx.held && Stands(db.collections, job.collection)
      && paid == Statuses(Written(db, job), ids)
      && (if job.Apply? then
            InKeyOrder(job.wants) && ids == InvoicesOf(job.wants) && Allowed(db, job.collection, job.wants)
          else ids == AppliedInvoices(db.applications, job.collection))
  }

  ghost predicate Exclusive(txs: seq<Tx>) {
    forall t: nat, u: nat, row: Row :: t < |txs| && u < |txs| && t != u && row in txs[t].held ==> row !in txs[u].held
  }

  ghost predicate RaceInv(w: World) {
    && Sound(w.db)
    && Exclusive(w.txs)
    && forall t :: 0 <= t < |w.txs| ==> UpToDate(w.db, w.txs[t])
  }

  // What a commit leaves alone --------------------------------------------------------------

  /** From one committed state to the next, only these invoices and this collection were touched. */
  ghost predicate TouchesOnly(db: Db, db': Db, ids: set<nat>, c: nat) {
    && |db'.invoices| == |db.invoices| && |db'.collections| == |db.collections|
    && (forall i :: 0 <= i < |db.invoices| ==> db'.invoices[i].total == db.invoices[i].total)
    && (forall d :: 0 <= d < |db.collections| && d != c ==> db'.collections[d] == db.collections[d])
    && |db.applications| <= |db'.applications| && db'.applications[..|db.applications|] == db.applications
    && (forall k :: |db.applications| <= k < |db'.applications| ==>
          db'.applications[k].collection == c && db'.applications[k].invoice in ids)
    && (db'.collections == db.collections || AppliedInvoices(db.applications, c) <= ids)
  }

  lemma {:induction false} CollectedSame(apps: seq<Application>, cs: seq<Collection>, cs': seq<Collection>, i: nat)
    requires forall a :: a in apps && a.invoice == i ==> Stands(cs', a.collection) == Stands(cs, a.collection)
    ensures Collected(apps, cs', i) == Collected(apps, cs, i)
  {
    if apps != [] {
      CollectedSame(apps[..|apps| - 1], cs, cs', i);
    }
  }

  lemma {:induction false} CollectedMore(apps: seq<Application>, more: seq<Application>, cs: seq<Collection>, i: nat)
    requires forall k :: 0 <= k < |more| ==> more[k].invoice != i
    ensures Collected(apps + more, cs, i) == Collected(apps, cs, i)
  {
    if more == [] {
      assert apps + more == apps;
    } else {
      assert (apps + more)[..|apps + more| - 1] == apps + more[..|more| - 1];
      CollectedMore(apps, more[..|more| - 1], cs, i);
    }
  }

  lemma {:induction false} AppliedMore(apps: seq<Application>, more: seq<Application>, c: nat)
    requires forall k :: 0 <= k < |more| ==> more[k].collection != c
    ensures Applied(apps + more, c) == Applied(apps, c)
  {
    if more == [] {
      assert apps + more == apps;
    } else {
      assert (apps + more)[..|apps + more| - 1] == apps + more[..|more| - 1];
      AppliedMore(apps, more[..|more| - 1], c);
    }
  }

  /** Invoices not touched are paid as much as before. */
  lemma OtherInvoicesSame(db: Db, db': Db, ids: set<nat>, c: nat, i: nat)
    requires TouchesOnly(db, db', ids, c) && i !in ids
    ensures Paying(db', i) == Paying(db, i)
  {
    var n := |db.applications|;
    var more := db'.applications[n..];
    assert db'.applications == db.applications + more;
    forall k | 0 <= k < |more|
      ensures more[k].invoice != i
    {
      assert more[k] == db'.applications[n + k];
    }
    CollectedMore(db.applications, more, db'.collections, i);
    forall a | a in db.applications && a.invoice == i
      ensures Stands(db'.collections, a.collection) == Stands(db.collections, a.collection)
    {
      if a.collection == c {
        assert i in AppliedInvoices(db.applications, c);
      }
    }
    CollectedSame(db.applications, db.collections, db'.collections, i);
  }

  /** Collections not touched pay the same invoices, the same in all. */
  lemma OtherCollectionsSame(db: Db, db': Db, ids: set<nat>, c: nat, d: nat)
    requires TouchesOnly(db, db', ids, c) && d != c
    ensures Applied(db'.applications, d) == Applied(db.applications, d)
    ensures AppliedInvoices(db'.applications, d) == AppliedInvoices(db.applications, d)
    ensures Stands(db'.collections, d) == Stands(db.collections, d)
  {
    var n := |db.applications|;
    var more := db'.applications[n..];
    assert db'.applications == db.applications + more;
    forall k | 0 <= k < |more|
      ensures more[k].collection == c
    {
      assert more[k] == db'.applications[n + k];
    }
    AppliedMore(db.applications, more, d);
    forall a | a in more
      ensures a.collection == c
    {
    }
  }

  lemma {:induction false} CollectedAppend(apps: seq<Application>, more: seq<Application>, cs: seq<Collection>, i: nat)
    ensures Collected(apps + more, cs, i) == Collected(apps, cs, i) + Collected(more, cs, i)
  {
    if more == [] {
      assert apps + more == apps;
    } else {
      assert (apps + more)[..|apps + more| - 1] == apps + more[..|more| - 1];
      CollectedAppend(apps, more[..|more| - 1], cs, i);
    }
  }

  lemma {:induction false} AppliedAppend(apps: seq<Application>, more: seq<Application>, c: nat)
    ensures Applied(apps + more, c) == Applied(apps, c) + Applied(more, c)
  {
    if more == [] {
      assert apps + more == apps;
    } else {
      assert (apps + more)[..|apps + more| - 1] == apps + more[..|more| - 1];
      AppliedAppend(apps, more[..|more| - 1], c);
    }
  }

  /** An untouched invoice reads the same to another transaction after its own writes. */
  lemma WrittenSame(db: Db, db': Db, ids: set<nat>, c: nat, job: Job, i: nat)
    requires TouchesOnly(db, db', ids, c) && job.collection != c && i !in ids
    ensures Paying(Written(db', job), i) == Paying(Written(db, job), i)
  {
    OtherInvoicesSame(db, db', ids, c, i);
    OtherCollectionsSame(db, db', ids, c, job.collection);
    if job.Apply? {
      var news := NewApplications(job.collection, job.wants);
      CollectedAppend(db.applications, news, db.collections, i);
      CollectedAppend(db'.applications, news, db'.collections, i);
      CollectedSame(news, db.collections, db'.collections, i);
    } else {
      OtherInvoicesSame(Written(db, job), Written(db', job), ids, c, i);
    }
  }

  lemma StatusesSame(db: Db, db': Db, ids: set<nat>, c: nat, job: Job, mine: set<nat>)
    requires TouchesOnly(db, db', ids, c) && job.collection != c && mine !! ids
    ensures Statuses(Written(db', job), mine) == Statuses(Written(db, job), mine)
  {
    forall i | i in mine
      ensures Paying(Written(db', job), i) == Paying(Written(db, job), i)
    {
      WrittenSame(db, db', ids, c, job, i);
    }
  }

  lemma AllowedSame(db: Db, db': Db, ids: set<nat>, c: nat, d: nat, wants: Wants)
    requires TouchesOnly(db, db', ids, c) && d != c && InvoicesOf(wants) !! ids && Allowed(db, d, wants)
    ensures Allowed(db', d, wants)
  {
    OtherCollectionsSame(db, db', ids, c, d);
    forall k | 0 <= k < |wants|
      ensures Paying(db', wants[k].0) == Paying(db, wants[k].0)
    {
      assert wants[k] in wants;
      assert wants[k].0 in InvoicesOf(wants);
      OtherInvoicesSame(db, db', ids, c, wants[k].0);
    }
  }

  // A commit keeps the books sound ------------------------------------------------------------

  lemma {:induction false} NewNothingElse(c: nat, wants: Wants, cs: seq<Collection>, i: nat)
    requires forall k :: 0 <= k < |wants| ==> wants[k].0 != i
    ensures Collected(NewApplications(c, wants), cs, i) == 0
  {
    if wants != [] {
      NewInit(c, wants);
      NewNothingElse(c, wants[..|wants| - 1], cs, i);
    }
  }

  lemma NewInit(c: nat, wants: Wants)
    requires wants != []
    ensures NewApplications(c, wants)[..|wants| - 1] == NewApplications(c, wants[..|wants| - 1])
  {
  }

  /** Each invoice named gets its amount, once. */
  lemma {:induction false} NewPays(c: nat, wants: Wants, cs: seq<Collection>, k: nat)
    requires InKeyOrder(wants) && k < |wants| && Stands(cs, c)
    ensures Collected(NewApplications(c, wants), cs, wants[k].0) == wants[k].1
  {
    var n := |wants| - 1;
    NewInit(c, wants);
    if k == n {
      NewNothingElse(c, wants[..n], cs, wants[k].0);
    } else {
      NewPays(c, wants[..n], cs, k);
    }
  }

  lemma {:induction false} NewTotal(c: nat, wants: Wants)
    ensures Applied(NewApplications(c, wants), c) == Total(wants)
  {
    if wants != [] {
      NewInit(c, wants);
      NewTotal(c, wants[..|wants| - 1]);
    }
  }

  lemma {:induction false} CancelledPaysLess(apps: seq<Application>, cs: seq<Collection>, cs': seq<Collection>, i: nat)
    requires forall c: nat :: Stands(cs', c) ==> Stands(cs, c)
    ensures Collected(apps, cs', i) <= Collected(apps, cs, i)
  {
    if apps != [] {
      CancelledPaysLess(apps[..|apps| - 1], cs, cs', i);
    }
  }

  /** The writes touch only the invoices and the collection locked for them. */
  lemma PublishTouches(db: Db, tx: Tx)
    requires UpToDate(db, tx) && tx.phase.Ready?
    ensures TouchesOnly(db, Published(db, tx.phase.job, tx.phase.paid), tx.phase.ids, tx.phase.job.collection)
  {
    var p := tx.phase;
    var db' := Published(db, p.job, p.paid);
    if p.job.Apply? {
      forall k | |db.applications| <= k < |db'.applications|
        ensures db'.applications[k].collection == p.job.collection && db'.applications[k].invoice in p.ids
      {
        var want := p.job.wants[k - |db.applications|];
        assert want in p.job.wants;
      }
    }
  }

  /** An invoice the transaction locked owes no less than nothing after its writes. */
  lemma TouchedWithinTotal(db: Db, tx: Tx, i: nat)
    requires Sound(db) && UpToDate(db, tx) && tx.phase.Ready? && i in tx.phase.ids && i < |db.invoices|
    ensures Paying(Written(db, tx.phase.job), i) <= db.invoices[i].total
  {
    var job := tx.phase.job;
    assert StatusAgrees(db, i);
    if job.Apply? {
      var news := NewApplications(job.collection, job.wants);
      CollectedAppend(db.applications, news, db.collections, i);
      var k :| 0 <= k < |job.wants| && job.wants[k].0 == i;
      NewPays(job.collection, job.wants, db.collections, k);
    } else {
      CancelledPaysLess(db.applications, db.collections, Written(db, job).collections, i);
    }
  }

  lemma PublishedStatus(db: Db, tx: Tx, i: nat)
    requires Sound(db) && UpToDate(db, tx) && tx.phase.Ready? && i < |db.invoices|
    ensures StatusAgrees(Published(db, tx.phase.job, tx.phase.paid), i)
  {
    var p := tx.phase;
    var db' := Published(db, p.job, p.paid);
    assert StatusAgrees(db, i);
    if i in p.ids {
      TouchedWithinTotal(db, tx, i);
      assert i in p.paid && p.paid[i] == (Paying(Written(db, p.job), i) >= db.invoices[i].total);
      assert Paying(db', i) == Paying(Written(db, p.job), i);
    } else {
      PublishTouches(db, tx);
      OtherInvoicesSame(db, db', p.ids, p.job.collection, i);
    }
  }

  lemma PublishedApplied(db: Db, tx: Tx, d: nat)
    requires Sound(db) && UpToDate(db, tx) && tx.phase.Ready? && d < |db.collections|
    ensures var db' := Published(db, tx.phase.job, tx.phase.paid);
            |db'.collections| == |db.collections| && Applied(db'.applications, d) <= db'.collections[d].amount
  {
    var job := tx.phase.job;
    if job.Apply? {
      var news := NewApplications(job.collection, job.wants);
      AppliedAppend(db.applications, news, d);
      NewTotal(job.collection, job.wants);
      if d != job.collection {
        AppliedMore([], news, d);
        assert [] + news == news;
      }
    }
  }

  lemma CommitKeepsSound(db: Db, tx: Tx)
    requires Sound(db) && UpToDate(db, tx) && tx.phase.Ready?
    ensures Sound(Published(db, tx.phase.job, tx.phase.paid))
  {
    var db' := Published(db, tx.phase.job, tx.phase.paid);
    forall i | 0 <= i < |db'.invoices|
      ensures StatusAgrees(db', i)
    {
      PublishedStatus(db, tx, i);
    }
    forall d | 0 <= d < |db'.collections|
      ensures Applied(db'.applications, d) <= db'.collections[d].amount
    {
      PublishedApplied(db, tx, d);
    }
  }

  /** Under their own locks, the others' readings outlive the commit. */
  lemma OthersStayUpToDate(db: Db, tx: Tx, other: Tx)
    requires UpToDate(db, tx) && tx.phase.Ready? && UpToDate(db, other) && tx.held !! other.held
    ensures UpToDate(Published(db, tx.phase.job, tx.phase.paid), other)
  {
    var ids, c := tx.phase.ids, tx.phase.job.collection;
    var db' := Published(db, tx.phase.job, tx.phase.paid);
    PublishTouches(db, tx);
    match other.phase
    case HasDocument(job, _, _) =>
      OtherCollectionsSame(db, db', ids, c, job.collection);
    case LockLate(job, _, _) =>
      OtherCollectionsSame(db, db', ids, c, job.collection);
    case Ready(job, mine, _) =>
      OtherCollectionsSame(db, db', ids, c, job.collection);
      forall i | i in mine
        ensures i !in ids
      {
        assert InvoiceRow(i) in other.held;
      }
      StatusesSame(db, db', ids, c, job, mine);
      if job.Apply? {
        AllowedSame(db, db', ids, c, job.collection, job.wants);
      }
    case _ =>
  }

  // Every step keeps the invariant ---------------------------------------------------------------

  lemma CommitKeeps(w: World, w': World, t: nat)
    requires RaceInv(w) && Commits(w, w', t)
    ensures RaceInv(w')
  {
    CommitKeepsSound(w.db, w.txs[t]);
    forall u | 0 <= u < |w.txs|
      ensures UpToDate(w'.db, w'.txs[u])
    {
      if u != t {
        assert w.txs[t].held !! w.txs[u].held;
        OthersStayUpToDate(w.db, w.txs[t], w.txs[u]);
      }
    }
  }

  /** A step that commits nothing: its own transaction must be up to date, and take no row another holds. */
  lemma MoveKeeps(w: World, w': World, t: nat, phase: Phase, held: set<Row>)
    requires RaceInv(w) && Moves(w, w', t, phase, held)
    requires UpToDate(w.db, Tx(phase, held))
    requires forall row :: row in held ==> row in w.txs[t].held || Free(w, t, row)
    ensures RaceInv(w')
  {
  }

  lemma LocksInvoiceKeeps(w: World, w': World, t: nat, i: nat)
    requires RaceInv(w) && LocksInvoice(w, w', t, i)
    ensures RaceInv(w')
  {
    assert UpToDate(w.db, w.txs[t]);
    MoveKeeps(w, w', t, w.txs[t].phase, w.txs[t].held + {InvoiceRow(i)});
  }

  lemma LocksDocumentKeeps(w: World, w': World, t: nat)
    requires RaceInv(w) && LocksDocument(w, w', t)
    ensures RaceInv(w')
  {
    assert UpToDate(w.db, w.txs[t]);
    var p := w.txs[t].phase;
    if Stands(w.db.collections, p.job.collection) {
      MoveKeeps(w, w', t, HasDocument(p.job, p.attempt, p.ids), w.txs[t].held + {DocumentRow(p.job.collection)});
    } else {
      MoveKeeps(w, w', t, Phase.Idle, {});
    }
  }

  lemma WorksOutApplyKeeps(w: World, w': World, t: nat)
    requires RaceInv(w) && WorksOutApply(w, w', t)
    ensures RaceInv(w')
  {
    assert UpToDate(w.db, w.txs[t]);
    var p := w.txs[t].phase;
    if Allowed(w.db, p.job.collection, p.job.wants) {
      MoveKeeps(w, w', t, Ready(p.job, p.ids, Statuses(Written(w.db, p.job), p.ids)), w.txs[t].held);
    } else {
      MoveKeeps(w, w', t, Phase.Idle, {});
    }
  }

  lemma RechecksKeeps(w: World, w': World, t: nat)
    requires RaceInv(w) && Rechecks(w, w', t)
    ensures RaceInv(w')
  {
    assert UpToDate(w.db, w.txs[t]);
    var p := w.txs[t].phase;
    var applied := AppliedInvoices(w.db.applications, p.job.collection);
    if applied <= p.ids {
      MoveKeeps(w, w', t, Ready(p.job, applied, Statuses(Written(w.db, p.job), applied)), w.txs[t].held);
    } else if p.attempt + 1 < CANCEL_ATTEMPTS {
      MoveKeeps(w, w', t, Start(p.job, p.attempt + 1), {});
    } else {
      MoveKeeps(w, w', t, LockLate(p.job, p.attempt, applied), w.txs[t].held);
    }
  }

  lemma LateLocksDoneKeeps(w: World, w': World, t: nat)
    requires RaceInv(w) && LateLocksDone(w, w', t)
    ensures RaceInv(w')
  {
    assert UpToDate(w.db, w.txs[t]);
    var p := w.txs[t].phase;
    MoveKeeps(w, w', t, Ready(p.job, p.ids, Statuses(Written(w.db, p.job), p.ids)), w.txs[t].held);
  }

  lemma BeginsOrReadsKeeps(w: World, w': World, t: nat)
    requires RaceInv(w) && ((exists job :: Begins(w, w', t, job)) || Reads(w, w', t) || RollsBack(w, w', t))
    ensures RaceInv(w')
  {
    assert UpToDate(w.db, w.txs[t]);
    MoveKeeps(w, w', t, w'.txs[t].phase, {});
  }

  /** Whatever step any transaction takes, the books stay sound and every reading under locks stays true. */
  lemma StepKeepsRace(w: World, w': World, t: nat)
    requires RaceInv(w) && NextBy(w, w', t)
    ensures RaceInv(w')
  {
    if exists i: nat :: LocksInvoice(w, w', t, i) {
      var i: nat :| LocksInvoice(w, w', t, i);
      LocksInvoiceKeeps(w, w', t, i);
    } else if LocksDocument(w, w', t) {
      LocksDocumentKeeps(w, w', t);
    } else if WorksOutApply(w, w', t) {
      WorksOutApplyKeeps(w, w', t);
    } else if Rechecks(w, w', t) {
      RechecksKeeps(w, w', t);
    } else if LateLocksDone(w, w', t) {
      LateLocksDoneKeeps(w, w', t);
    } else if Commits(w, w', t) {
      CommitKeeps(w, w', t);
    } else {
      BeginsOrReadsKeeps(w, w', t);
    }
  }

  lemma NextKeepsRace(w: World, w': World)
    requires RaceInv(w) && Next(w, w')
    ensures RaceInv(w')
  {
    var t: nat :| NextBy(w, w', t);
    StepKeepsRace(w, w', t);
  }

  lemma StartIsSound(w: World)
    requires Sound(w.db) && forall t :: 0 <= t < |w.txs| ==> w.txs[t] == Tx(Phase.Idle, {})
    ensures RaceInv(w)
  {
  }

  lemma {:induction false} RunKeepsRace(run: seq<World>)
    requires IsRun(run)
    ensures RaceInv(run[|run| - 1])
  {
    hide Next, RaceInv, Sound;
    var n := |run| - 1;
    if n > 0 {
      assert IsRun(run[..n]);
      RunKeepsRace(run[..n]);
      NextKeepsRace(run[n - 1], run[n]);
    } else {
      StartIsSound(run[0]);
    }
  }

  // Main results -----------------------------------------------------------------------------------

  /** In every interleaving: no invoice is paid beyond its total, no collection applied beyond its amount, and an
      invoice reads paid exactly when nothing is owed. */
  lemma StatusesAlwaysAgree(run: seq<World>, i: nat, c: nat)
    requires IsRun(run)
    ensures var db := run[|run| - 1].db;
            && (i < |db.invoices| ==> StatusAgrees(db, i))
            && (c < |db.collections| ==> Applied(db.applications, c) <= db.collections[c].amount)
  {
    RunKeepsRace(run);
  }

  /** When a cancel commits, every invoice the collection paid, whatever was applied since its first read, has a
      status that agrees, none counts the collection's money, and its locks covered every one of them. */
  lemma CancelSettlesEveryInvoice(run: seq<World>, w': World, t: nat, i: nat)
    requires IsRun(run) && Commits(run[|run| - 1], w', t) && run[|run| - 1].txs[t].phase.job.Cancel?
    requires i in AppliedInvoices(w'.db.applications, run[|run| - 1].txs[t].phase.job.collection)
    ensures !Stands(w'.db.collections, run[|run| - 1].txs[t].phase.job.collection)
    ensures InvoiceRow(i) in run[|run| - 1].txs[t].held
    ensures i < |w'.db.invoices| ==> StatusAgrees(w'.db, i)
  {
    var w := run[|run| - 1];
    RunKeepsRace(run);
    CommitKeeps(w, w', t);
    assert UpToDate(w.db, w.txs[t]);
  }

  // One call, from the step that begins it --------------------------------------------------------

  ghost predicate BeginsAny(w: World, w': World, t: nat) {
    exists job :: Begins(w, w', t, job)
  }

  /** Transaction t begins this job at step a of the run, and no other job after it. */
  ghost predicate OneCall(run: seq<World>, t: nat, a: nat, job: Job) {
    && IsRun(run) && a + 1 < |run| && Begins(run[a], run[a + 1], t, job)
    && forall k :: a < k < |run| - 1 ==> !BeginsAny(run[k], run[k + 1], t)
  }

  /** How often the transaction finds its invoices, from step a on. */
  ghost function TimesRead(run: seq<World>, t: nat, a: nat): nat
    decreases |run|
  {
    if |run| <= a + 1 then 0
    else
      var n := |run| - 1;
      TimesRead(run[..n], t, a) + (if Reads(run[n - 1], run[n], t) then 1 else 0)
  }

  function MostAttempts(job: Job): nat {
    if job.Apply? then 1 else CANCEL_ATTEMPTS
  }

  /** The reads the phase accounts for: the attempts it counts, and the one it is in once it has read. */
  ghost predicate ReadsCounted(tx: Tx, job: Job, times: nat) {
    && times <= MostAttempts(job)
    && match tx.phase
       case Idle => true
       case Start(mine, attempt) => mine == job && times == attempt < MostAttempts(job)
       case LockInvoices(mine, attempt, _) => mine == job && times == attempt + 1
       case HasDocument(mine, attempt, _) => mine == job && times == attempt + 1
       case LockLate(mine, _, _) => mine == job && job.Cancel? && times == CANCEL_ATTEMPTS
       case Ready(mine, _, _) => mine == job
  }

  lemma OneTransactionMoves(w: World, w': World, u: nat)
    requires NextBy(w, w', u)
    ensures |w'.txs| == |w.txs|
    ensures forall t: nat :: t < |w.txs| && t != u ==> w'.txs[t] == w.txs[t]
  {
    hide Statuses, Written, Published, Allowed, AppliedInvoices, WaitsFor, Free, Stands;
  }

  lemma OwnReadsCounted(w: World, w': World, t: nat, job: Job, times: nat)
    requires t < |w.txs| && NextBy(w, w', t) && !BeginsAny(w, w', t)
    requires ReadsCounted(w.txs[t], job, times)
    ensures |w'.txs| == |w.txs|
    ensures ReadsCounted(w'.txs[t], job, times + if Reads(w, w', t) then 1 else 0)
  {
    hide Statuses, Written, Published, Allowed, AppliedInvoices, InvoicesOf, WaitsFor, Free, Stands, InKeyOrder;
  }

  lemma ReadStaysCounted(w: World, w': World, t: nat, job: Job, times: nat)
    requires Next(w, w') && t < |w.txs| && ReadsCounted(w.txs[t], job, times)
    requires !BeginsAny(w, w', t)
    ensures |w'.txs| == |w.txs|
    ensures ReadsCounted(w'.txs[t], job, times + if Reads(w, w', t) then 1 else 0)
  {
    hide NextBy, BeginsAny, ReadsCounted;
    var u: nat :| NextBy(w, w', u);
    if u == t {
      OwnReadsCounted(w, w', t, job, times);
    } else {
      OneTransactionMoves(w, w', u);
    }
  }

  lemma {:induction false} CallIsCounted(run: seq<World>, t: nat, a: nat, job: Job)
    requires OneCall(run, t, a, job)
    ensures t < |run[|run| - 1].txs|
    ensures ReadsCounted(run[|run| - 1].txs[t], job, TimesRead(run, t, a))
  {
    hide Next, Sound, Begins, BeginsAny, ReadsCounted;
    var n := |run| - 1;
    if a + 1 < n {
      assert IsRun(run[..n]);
      assert OneCall(run[..n], t, a, job);
      CallIsCounted(run[..n], t, a, job);
      ReadStaysCounted(run[n - 1], run[n], t, job, TimesRead(run[..n], t, a));
    } else {
      BeginsUnread(run, t, a, job);
    }
  }

  lemma BeginsUnread(run: seq<World>, t: nat, a: nat, job: Job)
    requires a + 2 == |run| && Begins(run[a], run[a + 1], t, job)
    ensures t < |run[a + 1].txs| && ReadsCounted(run[a + 1].txs[t], job, TimesRead(run, t, a))
  {
    assert TimesRead(run[..a + 1], t, a) == 0;
  }

  /** Whatever the others do meanwhile, one cancel finds its invoices three times at most, and locks any late only
      when it has found them three times; one apply finds them once. */
  lemma AtMostThreeAttempts(run: seq<World>, t: nat, a: nat, job: Job)
    requires OneCall(run, t, a, job)
    ensures TimesRead(run, t, a) <= if job.Cancel? then 3 else 1
    ensures t < |run[|run| - 1].txs|
    ensures run[|run| - 1].txs[t].phase.LockLate? ==> TimesRead(run, t, a) == 3
  {
    hide OneCall, TimesRead;
    CallIsCounted(run, t, a, job);
  }

  /** Except on that last attempt, a transaction waits only for rows after all it holds. */
  lemma WaitsForwards(w: World, t: nat, row: Row)
    requires RaceInv(w) && t < |w.txs| && WaitsFor(w.txs[t], row) && !w.txs[t].phase.LockLate?
    ensures forall r :: r in w.txs[t].held ==> Before(r, row)
  {
    assert UpToDate(w.db, w.txs[t]);
  }

  /** A list of transactions, each waiting for a row the next one holds, the last for one of the first. */
  ghost predicate WaitCycle(w: World, ts: seq<nat>, rows: seq<Row>) {
    && ts != [] && |rows| == |ts|
    && (forall k :: 0 <= k < |ts| ==> ts[k] < |w.txs| && WaitsFor(w.txs[ts[k]], rows[k]))
    && (forall k :: 0 <= k < |ts| ==> rows[k] in w.txs[ts[if k + 1 < |ts| then k + 1 else 0]].held)
  }

  ghost predicate NoneLate(w: World, ts: seq<nat>) {
    forall k :: 0 <= k < |ts| ==> ts[k] < |w.txs| && !w.txs[ts[k]].phase.LockLate?
  }

  lemma NextWantsLater(w: World, ts: seq<nat>, rows: seq<Row>, k: nat)
    requires RaceInv(w) && WaitCycle(w, ts, rows) && NoneLate(w, ts) && k < |ts|
    ensures Before(rows[k], rows[if k + 1 < |ts| then k + 1 else 0])
  {
    hide RaceInv, WaitsFor;
    var next := if k + 1 < |ts| then k + 1 else 0;
    WaitsForwards(w, ts[next], rows[next]);
  }

  lemma {:induction false} RowsClimb(w: World, ts: seq<nat>, rows: seq<Row>, k: nat)
    requires RaceInv(w) && WaitCycle(w, ts, rows) && NoneLate(w, ts) && k < |ts|
    ensures k == 0 || Before(rows[0], rows[k])
  {
    hide RaceInv, WaitsFor;
    if k > 0 {
      RowsClimb(w, ts, rows, k - 1);
      NextWantsLater(w, ts, rows, k - 1);
    }
  }

  /** A deadlock between these calls needs a cancel on its last attempt. */
  lemma CycleNeedsLateLocks(run: seq<World>, ts: seq<nat>, rows: seq<Row>)
    requires IsRun(run) && WaitCycle(run[|run| - 1], ts, rows)
    ensures !NoneLate(run[|run| - 1], ts)
  {
    var w := run[|run| - 1];
    RunKeepsRace(run);
    if NoneLate(w, ts) {
      RowsClimb(w, ts, rows, |ts| - 1);
      NextWantsLater(w, ts, rows, |ts| - 1);
    }
  }
}
