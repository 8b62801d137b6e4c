/** Carrying older invoices into the ledger, again and again until nothing is left (apps/ledger/migration_helpers.py). */
module CarryOver {
  import Allocation
  import opened Books
  import opened Collecting
  import Posting
  import opened Results
  import opened Services

  /** The books, and the till payments of each currency are carried into, once there is one. */
  datatype Firm = Firm(books: Books, carried: map<Currency, Id>)

  function CarryTill(f: Firm, currency: Currency): Firm {
    if currency in f.carried then f
    else Firm(f.books.(tills := f.books.tills + [TillAccount(currency, true)]), f.carried[currency := |f.books.tills|])
  }

  function NotAfterToday(b: Books, day: Day): Day {
    if day <= b.today then day else b.today
  }

  function PaidDay(inv: Invoice): Option<Day> {
    if inv.paidOn.Some? then inv.paidOn else inv.date
  }

  /** A draft marked paid the old way: nothing, or not enough, collected. */
  predicate ToCollect(b: Books, i: Id)
    requires i < |b.invoices|
  {
    b.invoices[i].status == Paid && PaidDay(b.invoices[i]).Some? && Remaining(b, i) > 0
  }

  function CarriedPosting(b: Books, i: Id): Posting.Outcome
    requires i < |b.invoices|
  {
    var date := b.invoices[i].date;
    PostInvoice(b, i, if date.Some? then Some(NotAfterToday(b, date.value)) else None)
  }

  function CarriedCollection(f: Firm, i: Id): Posting.Outcome
    requires i < |f.books.invoices| && ToCollect(f.books, i) && f.books.invoices[i].currency in f.carried
  {
    CollectInvoice(f.books, i, NotAfterToday(f.books, PaidDay(f.books.invoices[i]).value),
                   Some(f.carried[f.books.invoices[i].currency]))
  }

  /** One draft: posted, collected if it was marked paid, and synced (`_carry_over_draft`). */
  function CarryDraft(f: Firm, i: Id): Result<Firm, Error> {
    if i >= |f.books.invoices| then Refused(UnknownRecord)
    else if !Payable(f.books.invoices[i].status) then Ok(f)
    else
      var posted :- CarriedPosting(f.books, i);
      if ToCollect(posted, i) then
        var tilled := CarryTill(Firm(posted, f.carried), posted.invoices[i].currency);
        var collected :- CarriedCollection(tilled, i);
        Ok(Firm(SyncIn(collected, {i}), tilled.carried))
      else Ok(Firm(SyncIn(posted, {i}), f.carried))
  }

  /** A failing draft is rolled back, and the run goes on. */
  function Carried(f: Firm, i: Id): Firm {
    var outcome := CarryDraft(f, i);
    if outcome.Ok? then outcome.value else f
  }

  function CarryAll(f: Firm, ids: seq<Id>): Firm {
    if ids == [] then f else Carried(CarryAll(f, ids[..|ids| - 1]), ids[|ids| - 1])
  }

  predicate Posted(b: Books, i: Id) {
    Posting.KeyTaken(b.movements, InvoiceSource, InvoiceRef(i))
  }

  /** A run has work for this draft (`_to_carry`). */
  predicate NeedsCarry(b: Books, i: Id) {
    && i < |b.invoices| && Payable(b.invoices[i].status)
    && var inv := b.invoices[i];
       || (!Posted(b, i) && !(inv.status == Paid && inv.total == 0))
       || (inv.status == Paid && inv.total > 0 && Remaining(b, i) > 0)
  }

  // What one draft's carry changes ----------------------------------------------------------

  /** The unique key: each invoice posts once. */
  ghost predicate PostedOnce(b: Books) {
    forall j, k :: 0 <= j < k < |b.movements| && b.movements[j].source == InvoiceSource == b.movements[k].source ==>
      b.movements[j].document != b.movements[k].document
  }

  ghost predicate Sound(b: Books) {
    CollectionsKnown(b) && PostedOnce(b)
  }

  /** Rows are only added, and those added are this invoice's: its posting, and what pays it. */
  ghost predicate OnlyFor(b: Books, c: Books, i: Id) {
    && |c.invoices| == |b.invoices|
    && (forall j :: 0 <= j < |b.invoices| && j != i ==> c.invoices[j] == b.invoices[j])
    && (i < |b.invoices| ==> c.invoices[i].total == b.invoices[i].total)
    && b.movements <= c.movements && b.papers <= c.papers && b.applications <= c.applications
    && (forall k :: |b.movements| <= k < |c.movements| && c.movements[k].source == InvoiceSource ==>
          c.movements[k].document == InvoiceRef(i))
    && forall k :: |b.applications| <= k < |c.applications| ==> c.applications[k].invoice == i
  }

  lemma OnlyForOnwards(a: Books, b: Books, c: Books, i: Id)
    requires OnlyFor(a, b, i) && OnlyFor(b, c, i)
    ensures OnlyFor(a, c, i)
  {
    forall k | |a.movements| <= k < |c.movements| && c.movements[k].source == InvoiceSource
      ensures c.movements[k].document == InvoiceRef(i)
    {
      assert k < |b.movements| ==> c.movements[k] == b.movements[k];
    }
    forall k | |a.applications| <= k < |c.applications|
      ensures c.applications[k].invoice == i
    {
      assert k < |b.applications| ==> c.applications[k] == b.applications[k];
    }
  }

  /** Another invoice owes what it owed, is posted if it was, and needs carrying if it did. */
  lemma OthersKept(b: Books, c: Books, i: Id, j: Id)
    requires OnlyFor(b, c, i) && CollectionsKnown(b) && j != i
    ensures NeedsCarry(c, j) == NeedsCarry(b, j)
  {
    if j < |b.invoices| {
      var more := c.applications[|b.applications|..];
      assert c.applications == b.applications + more;
      CollectedKept(b.papers, c.papers, b.applications, more, j);
      PostedKept(b, c, i, j);
    }
  }

  lemma PostedKept(b: Books, c: Books, i: Id, j: Id)
    requires OnlyFor(b, c, i) && j != i
    ensures Posted(c, j) == Posted(b, j)
  {
    if Posted(b, j) {
      var k :| 0 <= k < |b.movements| && b.movements[k].source == InvoiceSource && b.movements[k].document == InvoiceRef(j);
      assert c.movements[k] == b.movements[k];
    }
    if Posted(c, j) {
      var k :| 0 <= k < |c.movements| && c.movements[k].source == InvoiceSource && c.movements[k].document == InvoiceRef(j);
      assert k < |b.movements| && b.movements[k] == c.movements[k];
    }
  }

  lemma PostingEffect(b: Books, i: Id)
    requires Sound(b) && i < |b.invoices| && CarriedPosting(b, i).Ok?
    ensures var c := CarriedPosting(b, i).value;
            && Sound(c) && OnlyFor(b, c, i)
            && c.invoices == b.invoices && c.applications == b.applications && c.papers == b.papers && c.tills == b.tills
            && (b.invoices[i].total != 0 ==> Posted(c, i))
            && b.invoices[i].date.Some?
  {
    var c := CarriedPosting(b, i).value;
    if c.movements != b.movements {
      assert c.movements[|b.movements|].source == InvoiceSource;
    }
  }

  lemma PostingKeepsInvoices(b: Books, i: Id)
    requires i < |b.invoices| && CarriedPosting(b, i).Ok?
    ensures CarriedPosting(b, i).value.invoices == b.invoices
  {
  }

  /** The till named has the invoice's currency, so nothing but a rule of posting can refuse it. */
  lemma TillEffect(f: Firm, currency: Currency)
    ensures var g := CarryTill(f, currency);
            && currency in g.carried
            && g.books == f.books.(tills := g.books.tills)
            && (Sound(f.books) ==> Sound(g.books))
            && forall i :: OnlyFor(f.books, g.books, i)
  {
  }

  ghost predicate AllFor(made: seq<Application>, c: Id, i: Id) {
    forall k :: 0 <= k < |made| ==> made[k].invoice == i && made[k].collection == c
  }

  lemma NewApplicationsFor(c: Id, owed: Decimal, n: nat, i: Id)
    requires IsMoney(owed)
    ensures AllFor(NewApplications(c, [Applied(i, owed)], n), c, i)
  {
    var applies := [Applied(i, owed)];
    OneAsked(i, owed);
    Allocation.NewApplicationsShape(c, applies, n);
    var made := NewApplications(c, applies, n);
    forall k | 0 <= k < |made|
      ensures made[k].invoice == i && made[k].collection == c
    {
      assert made[k].invoice in Named(applies);
    }
  }

  lemma RecordsForOne(b: Books, c: Books, p: Paper, owed: Decimal, i: Id)
    requires Sound(b) && i < |b.invoices| && IsMoney(owed)
    requires RecordsOne(b, c, p, [Applied(i, owed)])
    ensures Sound(c) && OnlyFor(b, c, i)
  {
    hide Collected, LatestPayment;
    OneAsked(i, owed);
    var made := NewApplications(|b.papers|, [Applied(i, owed)], |b.invoices|);
    NewApplicationsFor(|b.papers|, owed, |b.invoices|, i);
    forall k | |b.applications| <= k < |c.applications|
      ensures c.applications[k].invoice == i && c.applications[k].collection < |c.papers|
    {
      assert c.applications[k] == made[k - |b.applications|];
    }
  }

  /** A collection of all an invoice owes leaves it owing nothing, and touches no other. */
  lemma CollectionEffect(b: Books, account: Id, till: Id, owed: Decimal, date: Day, i: Id)
    requires Sound(b) && i < |b.invoices| && IsMoney(owed) && Cents(owed) == Remaining(b, i)
    requires RecordCollection(b, account, till, owed, date, [Applied(i, owed)]).Ok?
    ensures var c := RecordCollection(b, account, till, owed, date, [Applied(i, owed)]).value;
            && Sound(c) && OnlyFor(b, c, i) && Remaining(c, i) == 0
            && c.invoices[i] == Synced(c.papers, c.applications, b.invoices[i], i)
  {
    hide RecordCollection, Synced, Collected, NewApplications;
    CollectionRows(b, account, till, owed, date, [Applied(i, owed)]);
    OneAsked(i, owed);
    var c := RecordCollection(b, account, till, owed, date, [Applied(i, owed)]).value;
    var p := Paper(Collection(account, till), Cents(owed), b.accounts[account].currency, date, b.lastCollection + 1, false);
    OwesNothing(b, c, p, owed, i);
    RecordsForOne(b, c, p, owed, i);
  }

  lemma AccountsDontMatter(b: Books, customer: Id, currency: Currency, i: Id)
    requires Sound(b)
    ensures var c := AccountForCustomer(b, customer, currency);
            Sound(c) && OnlyFor(b, c, i) && c == b.(accounts := c.accounts)
  {
  }

  lemma CarriedCollectionEffect(f: Firm, i: Id)
    requires Sound(f.books) && i < |f.books.invoices| && ToCollect(f.books, i)
    requires f.books.invoices[i].currency in f.carried && CarriedCollection(f, i).Ok?
    ensures var c := CarriedCollection(f, i).value;
            && Sound(c) && OnlyFor(f.books, c, i) && Remaining(c, i) == 0
            && c.invoices[i] == Synced(c.papers, c.applications, f.books.invoices[i], i)
  {
    hide RecordCollection, Synced;
    var b, inv := f.books, f.books.invoices[i];
    var start := AccountForCustomer(b, inv.customer, inv.currency);
    var owed := OfCents(Remaining(b, i));
    AccountsDontMatter(b, inv.customer, inv.currency, i);
    CollectionEffect(start, FindAccount(b.accounts, Customer, inv.customer, inv.currency), f.carried[inv.currency], owed,
                     NotAfterToday(b, PaidDay(inv).value), i);
    OnlyForOnwards(b, start, CarriedCollection(f, i).value, i);
  }

  /** Synced, an invoice that owes nothing reads paid, one that owes something issued. */
  lemma SyncEffect(b: Books, i: Id)
    requires Sound(b) && i < |b.invoices| && Payable(b.invoices[i].status)
    ensures var c := SyncIn(b, {i});
            && Sound(c) && OnlyFor(b, c, i) && Payable(c.invoices[i].status) && Remaining(c, i) == Remaining(b, i)
            && (c.invoices[i].status == Paid <==> c.invoices[i].total == 0 || Remaining(c, i) <= 0)
            && (Posted(c, i) <==> Posted(b, i))
  {
    hide Collected, LatestPayment;
  }

  /** A draft carried has nothing left to carry; one marked paid that owed something is collected in full. */
  lemma CarrySettles(f: Firm, i: Id)
    requires Sound(f.books) && CarryDraft(f, i).Ok?
    ensures var g := CarryDraft(f, i).value;
            && Sound(g.books) && OnlyFor(f.books, g.books, i) && !NeedsCarry(g.books, i)
            && i < |f.books.invoices|
            && (NeedsCarry(f.books, i) && f.books.invoices[i].total > 0 && f.books.invoices[i].status == Paid ==>
                  g.books.invoices[i].status == Paid && Remaining(g.books, i) <= 0)
            && (NeedsCarry(f.books, i) && f.books.invoices[i].total == 0 ==> g.books.invoices[i].status == Paid)
  {
    var b := f.books;
    if Payable(b.invoices[i].status) {
      PostingEffect(b, i);
      var posted := CarriedPosting(b, i).value;
      assert Remaining(posted, i) == Remaining(b, i);
      hide CarriedPosting, CarriedCollection, SyncIn, Collected, OnlyFor, Sound, Posting.KeyTaken;
      if ToCollect(posted, i) {
        CarryCollects(f, posted, i);
      } else {
        SyncEffect(posted, i);
        OnlyForOnwards(b, posted, SyncIn(posted, {i}), i);
      }
    } else {
      hide SyncIn;
    }
  }

  lemma CarryCollects(f: Firm, posted: Books, i: Id)
    requires Sound(posted) && OnlyFor(f.books, posted, i) && i < |posted.invoices| && ToCollect(posted, i)
    requires posted.invoices[i].total != 0 ==> Posted(posted, i)
    requires var tilled := CarryTill(Firm(posted, f.carried), posted.invoices[i].currency);
             CarriedCollection(tilled, i).Ok?
    ensures var tilled := CarryTill(Firm(posted, f.carried), posted.invoices[i].currency);
            var c := SyncIn(CarriedCollection(tilled, i).value, {i});
            && Sound(c) && OnlyFor(f.books, c, i) && c.invoices[i].status == Paid && Remaining(c, i) == 0
            && (posted.invoices[i].total != 0 ==> Posted(c, i))
  {
    hide CarriedCollection, SyncIn, Collected, Sound, CarryTill, Posting.KeyTaken, Synced, OnlyFor;
    var currency := posted.invoices[i].currency;
    var tilled := CarryTill(Firm(posted, f.carried), currency);
    TillEffect(Firm(posted, f.carried), currency);
    CarriedCollectionEffect(tilled, i);
    var collected := CarriedCollection(tilled, i).value;
    OnlyForOnwards(f.books, posted, tilled.books, i);
    OnlyForOnwards(f.books, tilled.books, collected, i);
    OnlyForMeans(posted, tilled.books, i);
    OnlyForMeans(tilled.books, collected, i);
    StillPayable(tilled.books, collected, i);
    SyncEffect(collected, i);
    OnlyForMeans(collected, SyncIn(collected, {i}), i);
    PostedStays(posted, tilled.books, i);
    PostedStays(tilled.books, collected, i);
    OnlyForOnwards(f.books, collected, SyncIn(collected, {i}), i);
  }

  lemma OnlyForMeans(b: Books, c: Books, i: Id)
    requires OnlyFor(b, c, i)
    ensures |c.invoices| == |b.invoices| && b.movements <= c.movements
    ensures i < |b.invoices| ==> c.invoices[i].total == b.invoices[i].total
  {
  }

  lemma StillPayable(b: Books, c: Books, i: Id)
    requires i < |b.invoices| == |c.invoices| && Payable(b.invoices[i].status)
    requires c.invoices[i] == Synced(c.papers, c.applications, b.invoices[i], i)
    ensures Payable(c.invoices[i].status)
  {
  }

  lemma PostedStays(b: Books, c: Books, i: Id)
    requires b.movements <= c.movements
    ensures Posted(b, i) ==> Posted(c, i)
  {
    if Posted(b, i) {
      var k :| 0 <= k < |b.movements| && b.movements[k].source == InvoiceSource && b.movements[k].document == InvoiceRef(i);
      assert c.movements[k] == b.movements[k];
    }
  }

  // Runs ------------------------------------------------------------------------------------

  lemma CarriedKeeps(f: Firm, i: Id)
    requires Sound(f.books)
    ensures Sound(Carried(f, i).books) && OnlyFor(f.books, Carried(f, i).books, i)
  {
    hide CarryDraft;
    if CarryDraft(f, i).Ok? {
      CarrySettles(f, i);
    }
  }

  ghost predicate Distinct(ids: seq<Id>) {
    forall j, k :: 0 <= j < k < |ids| ==> ids[j] != ids[k]
  }

  lemma {:induction false} OthersKeptInRun(f: Firm, ids: seq<Id>, i: Id)
    requires Sound(f.books) && i !in ids
    ensures Sound(CarryAll(f, ids).books)
    ensures NeedsCarry(CarryAll(f, ids).books, i) == NeedsCarry(f.books, i)
  {
    hide Carried, NeedsCarry, OnlyFor;
    if ids != [] {
      var n := |ids| - 1;
      OthersKeptInRun(f, ids[..n], i);
      CarriedKeeps(CarryAll(f, ids[..n]), ids[n]);
      OthersKept(CarryAll(f, ids[..n]).books, CarryAll(f, ids).books, ids[n], i);
    }
  }

  lemma {:induction false} RunStaysSound(f: Firm, ids: seq<Id>)
    requires Sound(f.books)
    ensures Sound(CarryAll(f, ids).books)
  {
    hide Carried;
    if ids != [] {
      RunStaysSound(f, ids[..|ids| - 1]);
      CarriedKeeps(CarryAll(f, ids[..|ids| - 1]), ids[|ids| - 1]);
    }
  }

  /** The draft's own carry was refused, when the run came to it. */
  ghost predicate FailedAt(f: Firm, ids: seq<Id>, k: nat)
    requires k < |ids|
  {
    CarryDraft(CarryAll(f, ids[..k]), ids[k]).Refused?
  }

  /** After a run a draft needs carrying again exactly when it did before and its own carry failed. */
  lemma {:induction false} OnlyFailuresRemain(f: Firm, ids: seq<Id>, k: nat)
    requires Sound(f.books) && Distinct(ids) && k < |ids|
    ensures NeedsCarry(CarryAll(f, ids).books, ids[k]) <==> NeedsCarry(f.books, ids[k]) && FailedAt(f, ids, k)
  {
    var n := |ids| - 1;
    var before := CarryAll(f, ids[..n]);
    RunStaysSound(f, ids[..n]);
    if k == n {
      OthersKeptInRun(f, ids[..n], ids[n]);
      if CarryDraft(before, ids[n]).Ok? {
        CarrySettles(before, ids[n]);
      }
      hide CarryDraft, NeedsCarry;
    } else {
      hide Carried, NeedsCarry, OnlyFor, CarryDraft;
      assert ids[..n][..k] == ids[..k];
      OnlyFailuresRemain(f, ids[..n], k);
      CarriedKeeps(before, ids[n]);
      OthersKept(before.books, CarryAll(f, ids).books, ids[n], ids[k]);
    }
  }

  /** A run over every draft with work in which none fails leaves the next run nothing to find. */
  lemma RunConverges(f: Firm, ids: seq<Id>, i: Id)
    requires Sound(f.books) && Distinct(ids)
    requires forall j :: NeedsCarry(f.books, j) ==> j in ids
    requires forall k :: 0 <= k < |ids| ==> !FailedAt(f, ids, k)
    ensures !NeedsCarry(CarryAll(f, ids).books, i)
  {
    if i in ids {
      var k :| 0 <= k < |ids| && ids[k] == i;
      hide NeedsCarry, FailedAt;
      OnlyFailuresRemain(f, ids, k);
    } else {
      hide NeedsCarry;
      OthersKeptInRun(f, ids, i);
    }
  }

  /** Where there is nothing to carry: each positive total is posted, exactly once; what reads paid is collected in
      full; and a zero total that was never posted reads paid. */
  lemma NothingToCarryMeans(b: Books, i: Id)
    requires Sound(b) && i < |b.invoices| && Payable(b.invoices[i].status) && !NeedsCarry(b, i)
    ensures b.invoices[i].total > 0 ==>
              exists k :: 0 <= k < |b.movements| && b.movements[k].source == InvoiceSource
                          && b.movements[k].document == InvoiceRef(i) && OnlyPosting(b, i, k)
    ensures b.invoices[i].total > 0 && b.invoices[i].status == Paid ==> Remaining(b, i) <= 0
    ensures b.invoices[i].total == 0 && !Posted(b, i) ==> b.invoices[i].status == Paid
  {
    if b.invoices[i].total > 0 {
      assert Posted(b, i);
      var k :| 0 <= k < |b.movements| && b.movements[k].source == InvoiceSource && b.movements[k].document == InvoiceRef(i);
      assert OnlyPosting(b, i, k);
    }
  }

  ghost predicate OnlyPosting(b: Books, i: Id, k: nat) {
    forall j :: 0 <= j < |b.movements| && j != k && b.movements[j].source == InvoiceSource ==>
      b.movements[j].document != InvoiceRef(i)
  }

  /** A draft marked paid the old way that still owes something. */
  predicate MarkedPaid(b: Books, i: Id) {
    NeedsCarry(b, i) && b.invoices[i].status == Paid && b.invoices[i].total > 0
  }

  lemma CarriedPaid(f: Firm, i: Id)
    requires Sound(f.books) && MarkedPaid(f.books, i) && CarryDraft(f, i).Ok?
    ensures PaidInFull(Carried(f, i).books, i)
  {
    hide CarryDraft;
    CarrySettles(f, i);
  }

  predicate PaidInFull(b: Books, i: Id) {
    i < |b.invoices| && b.invoices[i].status == Paid && Remaining(b, i) <= 0
  }

  lemma PaidInFullKept(b: Books, c: Books, i: Id, j: Id)
    requires OnlyFor(b, c, i) && CollectionsKnown(b) && j != i
    ensures PaidInFull(b, j) == PaidInFull(c, j)
  {
    if j < |b.invoices| {
      var more := c.applications[|b.applications|..];
      assert c.applications == b.applications + more;
      CollectedKept(b.papers, c.papers, b.applications, more, j);
    }
  }

  lemma MarkedPaidKept(f: Firm, ids: seq<Id>, i: Id)
    requires Sound(f.books) && i !in ids && MarkedPaid(f.books, i)
    ensures MarkedPaid(CarryAll(f, ids).books, i)
  {
    hide CarryAll, Remaining, Posted;
    OthersKeptInRun(f, ids, i);
    InvoiceKeptInRun(f, ids, i);
  }

  /** A draft marked paid the old way is collected in full by the run, and reads paid still. */
  lemma {:induction false} MarkedPaidIsCollected(f: Firm, ids: seq<Id>, k: nat)
    requires Sound(f.books) && Distinct(ids) && k < |ids| && !FailedAt(f, ids, k)
    requires MarkedPaid(f.books, ids[k])
    ensures PaidInFull(CarryAll(f, ids).books, ids[k])
  {
    hide Carried, CarryDraft, MarkedPaid, PaidInFull, OnlyFor;
    var n := |ids| - 1;
    var before := CarryAll(f, ids[..n]);
    RunStaysSound(f, ids[..n]);
    if k == n {
      MarkedPaidKept(f, ids[..n], ids[n]);
      CarriedPaid(before, ids[n]);
    } else {
      assert ids[..n][..k] == ids[..k];
      MarkedPaidIsCollected(f, ids[..n], k);
      CarriedKeeps(before, ids[n]);
      PaidInFullKept(before.books, CarryAll(f, ids).books, ids[n], ids[k]);
    }
  }

  lemma {:induction false} InvoiceKeptInRun(f: Firm, ids: seq<Id>, i: Id)
    requires Sound(f.books) && i !in ids && i < |f.books.invoices|
    ensures i < |CarryAll(f, ids).books.invoices| && CarryAll(f, ids).books.invoices[i] == f.books.invoices[i]
  {
    hide Carried;
    if ids != [] {
      var n := |ids| - 1;
      InvoiceKeptInRun(f, ids[..n], i);
      RunStaysSound(f, ids[..n]);
      CarriedKeeps(CarryAll(f, ids[..n]), ids[n]);
    }
  }

  /** A failing draft leaves no trace: the run goes as if it had not been on the list. */
  lemma {:induction false} FailureLeavesNoTrace(f: Firm, before: seq<Id>, i: Id, rest: seq<Id>)
    requires CarryDraft(CarryAll(f, before), i).Refused?
    ensures CarryAll(f, before + [i] + rest) == CarryAll(f, before + rest)
    decreases |rest|
  {
    hide CarryDraft, CarryAll;
    if rest == [] {
      assert before + [i] + [] == before + [i] && before + [] == before;
      OneMoreCarried(f, before, i);
    } else {
      var n := |rest| - 1;
      FailureLeavesNoTrace(f, before, i, rest[..n]);
      OneMoreCarried(f, before + [i] + rest[..n], rest[n]);
      OneMoreCarried(f, before + rest[..n], rest[n]);
      assert before + [i] + rest == before + [i] + rest[..n] + [rest[n]];
      assert before + rest == before + rest[..n] + [rest[n]];
    }
  }

  lemma OneMoreCarried(f: Firm, ids: seq<Id>, i: Id)
    ensures CarryAll(f, ids + [i]) == Carried(CarryAll(f, ids), i)
  {
    assert (ids + [i])[..|ids|] == ids;
  }

  // The job, in place ---------------------------------------------------------------------------

  /** How many invoices' debits are among the movements. */
  function Postings(ms: seq<Movement>): nat {
    if ms == [] then 0
    else Postings(ms[..|ms| - 1]) + (if ms[|ms| - 1].source == InvoiceSource then 1 else 0)
  }

  lemma OneMovementMore(before: seq<Movement>, after: seq<Movement>)
    requires |after| == |before| + 1 && before <= after
    ensures Postings(after) == Postings(before) + (if after[|before|].source == InvoiceSource then 1 else 0)
  {
    assert after[..|after| - 1] == before;
  }

  lemma PostingCounts(b: Books, i: Id)
    requires i < |b.invoices| && CarriedPosting(b, i).Ok?
    ensures var c := CarriedPosting(b, i).value;
            && c.papers == b.papers
            && Postings(c.movements) == Postings(b.movements) + (if c.movements != b.movements then 1 else 0)
  {
    hide Postings;
    var c := CarriedPosting(b, i).value;
    if c.movements != b.movements {
      OneMovementMore(b.movements, c.movements);
    }
  }

  lemma CollectionCounts(b: Books, i: Id, date: Day, till: Id)
    requires CollectInvoice(b, i, date, Some(till)).Ok?
    ensures var c := CollectInvoice(b, i, date, Some(till)).value;
            |c.papers| == |b.papers| + 1 && Postings(c.movements) == Postings(b.movements)
  {
    hide Postings, RecordCollection, Collected, NewApplications, Synced, Named;
    var inv := b.invoices[i];
    var start := AccountForCustomer(b, inv.customer, inv.currency);
    var owed := OfCents(Remaining(b, i));
    var account := FindAccount(b.accounts, Customer, inv.customer, inv.currency);
    CollectionRows(start, account, till, owed, date, [Applied(i, owed)]);
    OneMovementMore(start.movements, CollectInvoice(b, i, date, Some(till)).value.movements);
  }

  lemma SyncMovesNothing(b: Books, i: Id)
    ensures SyncIn(b, {i}).movements == b.movements && SyncIn(b, {i}).papers == b.papers
  {
  }

  /** What one run did. */
  datatype CarriedCounts = CarriedCounts(posted: nat, collected: nat, failed: nat)

  class Carrier {
    var books: Books
    var carried: map<Currency, Id>

    function Contents(): Firm
      reads this
    {
      Firm(books, carried)
    }

    constructor (start: Books)
      ensures Contents() == Firm(start, map[])
    {
      books, carried := start, map[];
    }

    method CarriedTill(currency: Currency) returns (till: Id)
      modifies this
      ensures Contents() == CarryTill(old(Contents()), currency)
      ensures currency in carried && till == carried[currency]
    {
      if currency !in carried {
        carried := carried[currency := |books.tills|];
        books := books.(tills := books.tills + [TillAccount(currency, true)]);
      }
      till := carried[currency];
    }

    /** One draft in a transaction of its own: a refusal puts the rows back. */
    method CarryDraftOver(i: Id) returns (outcome: Result<(bool, bool), Error>)
      modifies this
      ensures Contents() == Carried(old(Contents()), i)
      ensures outcome.Refused? <==> CarryDraft(old(Contents()), i).Refused?
      ensures Postings(books.movements) ==
              Postings(old(books.movements)) + (if outcome.Ok? && outcome.value.0 then 1 else 0)
      ensures |books.papers| == |old(books.papers)| + (if outcome.Ok? && outcome.value.1 then 1 else 0)
    {
      hide CarriedPosting, CollectInvoice, SyncIn, Postings;
      var before, tillsBefore := books, carried;
      if i >= |books.invoices| {
        return Refused(UnknownRecord);
      }
      if !Payable(books.invoices[i].status) {
        return Ok((false, false));
      }
      var posting := CarriedPosting(books, i);
      if posting.Refused? {
        return Refused(posting.error);
      }
      PostingKeepsInvoices(books, i);
      PostingCounts(books, i);
      books := posting.value;
      var posted := books.movements != before.movements;
      var collects := ToCollect(books, i);
      if collects {
        var inv := books.invoices[i];
        var till := CarriedTill(inv.currency);
        var collection := CollectInvoice(books, i, NotAfterToday(books, PaidDay(inv).value), Some(till));
        if collection.Refused? {
          books, carried := before, tillsBefore;
          return Refused(collection.error);
        }
        CollectionCounts(books, i, NotAfterToday(books, PaidDay(inv).value), till);
        books := collection.value;
      }
      SyncMovesNothing(books, i);
      books := SyncIn(books, {i});
      return Ok((posted, collects));
    }

    /** The daily run: the debits it posted, the collections it recorded and the drafts that failed are counted, and a
        failure does not stop the others. */
    method CarryInvoicesOver(ids: seq<Id>) returns (result: CarriedCounts)
      modifies this
      ensures Contents() == CarryAll(old(Contents()), ids)
      ensures result.failed == |set k | 0 <= k < |ids| && FailedAt(old(Contents()), ids, k)|
      ensures result.posted == Postings(books.movements) - Postings(old(books.movements))
      ensures result.collected == |books.papers| - |old(books.papers)|
    {
      hide Carried, CarryDraft, Postings;
      result := CarriedCounts(0, 0, 0);
      ghost var failures: set<int> := {};
      for n := 0 to |ids|
        invariant Contents() == CarryAll(old(Contents()), ids[..n])
        invariant failures == set k | 0 <= k < n && FailedAt(old(Contents()), ids, k)
        invariant result.failed == |failures|
        invariant result.posted == Postings(books.movements) - Postings(old(books.movements))
        invariant result.collected == |books.papers| - |old(books.papers)|
      {
        assert ids[..n + 1][..n] == ids[..n];
        var outcome := CarryDraftOver(ids[n]);
        if outcome.Refused? {
          failures := failures + {n};
          result := result.(failed := result.failed + 1);
        } else {
          result := CarriedCounts(result.posted + (if outcome.value.0 then 1 else 0),
                                  result.collected + (if outcome.value.1 then 1 else 0), result.failed);
        }
      }
      assert ids[..|ids|] == ids;
    }
  }
}
