/** Carrying the older invoices over brings the books under the ledger's invariant (apps/ledger/migration_helpers.py). */
module LegacyBooks {
  import opened Allocation
  import opened Books
  import opened CarryOver
  import opened Collecting
  import opened LedgerRuns
  import opened Posting
  import opened Results
  import opened Services

  // What the ledger's own rows say ---------------------------------------------------------

  /** To the ledger's rows an invoice that asks something and never posted is a draft still; any other live one reads
      what its collections say. */
  function AsPosted(b: Books, i: Id): Invoice
    requires i < |b.invoices|
  {
    var inv := b.invoices[i];
    if !Payable(inv.status) then inv
    else if inv.total != 0 && !Posted(b, i) then inv.(status := Draft, paidOn := None)
    else Synced(b.papers, b.applications, inv, i)
  }

  function View(b: Books): (v: Books)
    ensures v == b.(invoices := v.invoices) && |v.invoices| == |b.invoices|
    ensures forall i :: 0 <= i < |b.invoices| ==> v.invoices[i] == AsPosted(b, i)
  {
    b.(invoices := seq(|b.invoices|, i requires 0 <= i < |b.invoices| => AsPosted(b, i)))
  }

  /** Every live invoice has a number, and no two the same: the older code saw to that too. */
  ghost predicate Numbered(invoices: seq<Invoice>) {
    && (forall i :: 0 <= i < |invoices| && Payable(invoices[i].status) ==> invoices[i].number.Some?)
    && NumbersDistinct(invoices)
  }

  /** Books with older invoices among them: the ledger's own rows are in order without those. */
  ghost predicate LegacyInv(b: Books) {
    LedgerInv(View(b)) && Numbered(b.invoices)
  }

  /** The books the first run finds: numbered invoices, and no movement, paper or application at all. */
  lemma BeforeTheLedger(b: Books)
    requires b.movements == [] && b.papers == [] && b.applications == [] && b.accounts == []
    requires Numbered(b.invoices)
    requires forall i :: 0 <= i < |b.invoices| && Payable(b.invoices[i].status) && b.invoices[i].total == 0 ==>
               b.invoices[i].date.Some?
    ensures LegacyInv(b) && Sound(b)
  {
  }

  // A posting ---------------------------------------------------------------------------------

  /** A live invoice's number is no other's, in the view either. */
  lemma NumberIsFree(b: Books, i: Id)
    requires Numbered(b.invoices) && i < |b.invoices| && Payable(b.invoices[i].status)
    ensures b.invoices[i].number.Some? && !NumberTaken(View(b).invoices, i, b.invoices[i].number.value)
  {
    forall k | 0 <= k < |b.invoices| && k != i && Payable(View(b).invoices[k].status)
      ensures View(b).invoices[k].number != b.invoices[i].number
    {
      assert View(b).invoices[k] == AsPosted(b, k);
    }
  }

  /** Status and payment date are what collections say, whatever they were. */
  lemma SyncedOver(ps: seq<Paper>, apps: seq<Application>, x: Invoice, y: Invoice, i: Id)
    requires Payable(x.status) && Payable(y.status) && y == x.(status := y.status, paidOn := y.paidOn)
    ensures Synced(ps, apps, y, i) == Synced(ps, apps, x, i)
  {
  }

  /** Posting an invoice looks at no other invoice. */
  lemma PostsTheSame(b: Books, v: Books, i: Id, date: Option<Day>, posted: Books)
    requires PostInvoice(b, i, date) == Ok(posted)
    requires v == b.(invoices := v.invoices) && i < |v.invoices| && Payable(v.invoices[i].status)
    requires v.invoices[i] == b.invoices[i].(status := v.invoices[i].status, paidOn := v.invoices[i].paidOn)
    ensures PostInvoice(v, i, date) == Ok(v.(accounts := posted.accounts, movements := posted.movements))
  {
    hide FindAccount, BeforeAnOpening, KeyTaken;
  }

  lemma PostingViewed(b: Books, i: Id)
    requires LegacyInv(b) && i < |b.invoices| && Payable(b.invoices[i].status) && CarriedPosting(b, i).Ok?
    ensures LegacyInv(CarriedPosting(b, i).value)
  {
    var inv := b.invoices[i];
    var date := if inv.date.Some? then Some(NotAfterToday(b, inv.date.value)) else None;
    if inv.total != 0 && !Posted(b, i) {
      var v, posted := View(b), CarriedPosting(b, i).value;
      var issued := inv.(status := Issued, paidOn := None);
      var marked := v.(invoices := v.invoices[i := issued]);
      NumberIsFree(b, i);
      PostsTheSame(b, marked, i, date, posted);
      var c := PostInvoice(marked, i, date).value;
      hide LedgerInv, PostInvoice;
      GoingLiveKeeps(v, i, issued, date);
      PostedView(b, i, posted, c);
    }
  }

  lemma PostedView(b: Books, i: Id, posted: Books, c: Books)
    requires i < |b.invoices| && Payable(b.invoices[i].status) && b.invoices[i].total != 0
    requires CarriedPosting(b, i) == Ok(posted) && !Posted(b, i)
    requires c == View(b).(accounts := posted.accounts, movements := posted.movements,
                           invoices := View(b).invoices[i := b.invoices[i].(status := Issued, paidOn := None)])
    ensures SyncIn(c, {i}) == View(posted)
    ensures posted.invoices == b.invoices
  {
    PostingRows(b, i, posted);
    hide CarriedPosting, KeyTaken;
    forall j | 0 <= j < |b.invoices|
      ensures SyncIn(c, {i}).invoices[j] == AsPosted(posted, j)
    {
      if j == i {
        SyncedOver(b.papers, b.applications, b.invoices[i], c.invoices[i], i);
      } else {
        assert c.invoices[j] == AsPosted(b, j);
      }
    }
    hide Synced, AsPosted;
    assert SyncIn(c, {i}).invoices == View(posted).invoices;
  }

  lemma PostingRows(b: Books, i: Id, posted: Books)
    requires i < |b.invoices| && b.invoices[i].total != 0 && !Posted(b, i) && CarriedPosting(b, i) == Ok(posted)
    ensures posted == b.(accounts := posted.accounts, movements := posted.movements)
    ensures Posted(posted, i) && forall j :: j != i ==> Posted(posted, j) == Posted(b, j)
  {
    hide FindAccount, BeforeAnOpening;
    assert posted.movements[|b.movements|].document == InvoiceRef(i);
    forall j: Id | j != i
      ensures Posted(posted, j) == Posted(b, j)
    {
      if Posted(b, j) {
        var k :| 0 <= k < |b.movements| && b.movements[k].source == InvoiceSource
            && b.movements[k].document == InvoiceRef(j);
        assert posted.movements[k] == b.movements[k];
      }
    }
  }

  // A till and an account -----------------------------------------------------------------------

  lemma TillViewed(f: Firm, currency: Currency)
    requires LegacyInv(f.books)
    ensures LegacyInv(CarryTill(f, currency).books)
  {
    var c := CarryTill(f, currency).books;
    assert View(c).invoices == View(f.books).invoices;
    CountersFrame(View(f.books), View(c));
  }

  lemma AccountViewed(b: Books, customer: Id, currency: Currency)
    requires LegacyInv(b)
    ensures LegacyInv(AccountForCustomer(b, customer, currency))
  {
    var c := AccountForCustomer(b, customer, currency);
    assert View(c).invoices == View(b).invoices;
    AccountOnAskKeeps(View(b), customer, currency);
  }

  // A collection ----------------------------------------------------------------------------------

  /** What applying to one invoice looks at: that invoice, and no other. */
  lemma AppliesTheSame(b: Books, v: Books, c: Id, account: Account, owed: Decimal, i: Id, limit: int)
    requires IsMoney(owed) && i < |b.invoices| == |v.invoices| && v == b.(invoices := v.invoices)
    requires Payable(v.invoices[i].status)
    requires v.invoices[i] == b.invoices[i].(status := v.invoices[i].status, paidOn := v.invoices[i].paidOn)
    requires Apply(b, c, account, [Applied(i, owed)], limit).Ok?
    ensures Apply(v, c, account, [Applied(i, owed)], limit) ==
            Ok(v.(applications := b.applications + NewApplications(c, [Applied(i, owed)], |b.invoices|)))
  {
    hide Collected, PerInvoice, NewApplications, FirstObstacle, Pays;
    var applies := [Applied(i, owed)];
    OneAsked(i, owed);
    NoObstacle(b, c, account, applies, |b.invoices|, i);
    assert Obstacle(v, c, account, i, PerInvoice(applies, i)) == Obstacle(b, c, account, i, PerInvoice(applies, i));
    NothingInTheWay(v, c, account, applies, |v.invoices|);
  }

  /** Posting looks at no invoice. */
  lemma LegsTheSame(b: Books, v: Books, p: Paper, r: DocumentRef)
    requires v == b.(invoices := v.invoices) && p.kind.Collection? && PostLegs(b, p, r, Legs(p.kind)).Ok?
    ensures PostLegs(v, p, r, Legs(p.kind)).Ok?
  {
    hide BeforeAnOpening, KeyTaken;
    var m := LegMovement(p, r, Legs(p.kind)[0]);
    assert Post(b, m).Ok?;
    assert Post(v, m).Ok?;
    assert Legs(p.kind)[1..] == [];
  }

  lemma CollectsTheSame(b: Books, v: Books, account: Id, till: Id, owed: Decimal, date: Day, i: Id)
    requires i < |b.invoices| == |v.invoices| && v == b.(invoices := v.invoices) && Payable(v.invoices[i].status)
    requires v.invoices[i] == b.invoices[i].(status := v.invoices[i].status, paidOn := v.invoices[i].paidOn)
    requires RecordCollection(b, account, till, owed, date, [Applied(i, owed)]).Ok?
    ensures RecordCollection(v, account, till, owed, date, [Applied(i, owed)]).Ok?
  {
    hide Apply, PostLegs, SyncIn, NewApplications, Legs, Named, Payable;
    var c, applies := |b.papers|, [Applied(i, owed)];
    var p := Paper(Collection(account, till), Cents(owed), b.accounts[account].currency, date, b.lastCollection + 1, false);
    var createdB := b.(papers := b.papers + [p], lastCollection := b.lastCollection + 1);
    var createdV := v.(papers := v.papers + [p], lastCollection := v.lastCollection + 1);
    AppliesTheSame(createdB, createdV, c, b.accounts[account], owed, i, Cents(owed));
    var appliedB := Apply(createdB, c, b.accounts[account], applies, Cents(owed)).value;
    AppliedRows(createdB, c, b.accounts[account], applies, Cents(owed));
    LegsTheSame(appliedB, Apply(createdV, c, b.accounts[account], applies, Cents(owed)).value, p, PaperRef(c));
  }

  lemma AppliedRows(b: Books, c: Id, account: Account, applies: seq<Applied>, limit: int)
    requires Apply(b, c, account, applies, limit).Ok?
    ensures Apply(b, c, account, applies, limit).value ==
            b.(applications := b.applications + NewApplications(c, applies, |b.invoices|))
  {
  }

  /** More papers, and applications to other invoices, leave an invoice's status alone. */
  lemma {:induction false} SyncedElsewhere(ps: seq<Paper>, qs: seq<Paper>, apps: seq<Application>,
      more: seq<Application>, inv: Invoice, j: Id)
    requires ps <= qs && (forall k :: 0 <= k < |apps| ==> apps[k].collection < |ps|)
    requires forall k :: 0 <= k < |more| ==> more[k].invoice != j
    ensures Synced(qs, apps + more, inv, j) == Synced(ps, apps, inv, j)
  {
    hide Collected, LatestPayment;
    CollectedKept(ps, qs, apps, more, j);
    LatestElsewhere(ps, qs, apps, more, j);
  }

  lemma {:induction false} LatestElsewhere(ps: seq<Paper>, qs: seq<Paper>, apps: seq<Application>,
      more: seq<Application>, j: Id)
    requires ps <= qs && (forall k :: 0 <= k < |apps| ==> apps[k].collection < |ps|)
    requires forall k :: 0 <= k < |more| ==> more[k].invoice != j
    ensures LatestPayment(qs, apps + more, j) == LatestPayment(ps, apps, j)
  {
    if more == [] {
      assert apps + more == apps;
      LatestAgrees(ps, qs, apps, j);
    } else {
      var n := |more| - 1;
      LatestElsewhere(ps, qs, apps, more[..n], j);
      LatestAppend(qs, apps + more[..n], more[n], j);
      assert apps + more == apps + more[..n] + [more[n]];
    }
  }

  /** Another invoice's carry leaves this one's view alone. */
  lemma ViewElsewhere(b: Books, c: Books, i: Id, j: Id)
    requires OnlyFor(b, c, i) && CollectionsKnown(b) && j != i && j < |b.invoices|
    ensures AsPosted(c, j) == AsPosted(b, j)
    ensures ShowsStatus(c, j) == ShowsStatus(b, j)
  {
    hide Synced, Posted;
    var more := c.applications[|b.applications|..];
    assert c.applications == b.applications + more;
    SyncedElsewhere(b.papers, c.papers, b.applications, more, b.invoices[j], j);
    CarryOver.PostedKept(b, c, i, j);
  }

  /** A live invoice the ledger's rows know. */
  predicate Known(b: Books, i: Id) {
    i < |b.invoices| && Payable(b.invoices[i].status) && (b.invoices[i].total == 0 || Posted(b, i))
  }

  /** Synced now or before, an invoice the rows know looks the same. */
  lemma KnownIsSynced(b: Books, i: Id, before: Invoice)
    requires Known(b, i) && Payable(before.status)
    requires b.invoices[i] == before.(status := b.invoices[i].status, paidOn := b.invoices[i].paidOn)
    ensures AsPosted(b, i) == Synced(b.papers, b.applications, before, i)
  {
    hide Synced, Posted;
    SyncedOver(b.papers, b.applications, before, b.invoices[i], i);
  }

  /** A collection recorded on the books, and on their view: the view of the one is the other. */
  lemma RecordedView(b: Books, c: Books, c': Books, p: Paper, owed: Decimal, i: Id)
    requires Sound(b) && Known(b, i) && IsMoney(owed)
    requires RecordsOne(b, c, p, [Applied(i, owed)]) && RecordsOne(View(b), c', p, [Applied(i, owed)])
    ensures View(c) == c'
  {
    var inv := b.invoices[i];
    OneAsked(i, owed);
    RecordsForOne(b, c, p, owed, i);
    KeptByRecord(b, c, p, owed, i);
    hide NewApplications, Sound, Posted, OnlyFor;
    forall j | 0 <= j < |b.invoices|
      ensures AsPosted(c, j) == c'.invoices[j]
    {
      if j == i {
        KnownIsSynced(b, i, inv);
        KnownIsSynced(c, i, inv);
        SyncedOver(c.papers, c.applications, inv, View(b).invoices[i], i);
      } else {
        assert CollectionsKnown(b) by {
          SoundKnows(b);
        }
        ViewElsewhere(b, c, i, j);
      }
    }
    hide AsPosted, Synced;
    assert View(c).invoices == c'.invoices;
  }

  lemma SoundKnows(b: Books)
    requires Sound(b)
    ensures CollectionsKnown(b)
  {
  }

  lemma KeptByRecord(b: Books, c: Books, p: Paper, owed: Decimal, i: Id)
    requires Known(b, i) && IsMoney(owed) && RecordsOne(b, c, p, [Applied(i, owed)])
    ensures Known(c, i)
    ensures c.invoices[i] == b.invoices[i].(status := c.invoices[i].status, paidOn := c.invoices[i].paidOn)
  {
    hide NewApplications, Collected, LatestPayment, Posted;
    OneAsked(i, owed);
    PostedStays(b, c, i);
  }

  lemma NumbersStay(b: Books, c: Books)
    requires Numbered(b.invoices) && |c.invoices| == |b.invoices|
    requires forall j :: 0 <= j < |b.invoices| ==>
               c.invoices[j].number == b.invoices[j].number
               && Payable(c.invoices[j].status) == Payable(b.invoices[j].status)
    ensures Numbered(c.invoices)
  {
  }

  lemma KnownLooksLive(b: Books, i: Id)
    requires Known(b, i)
    ensures var inv := View(b).invoices[i];
            && i < |b.invoices| && Payable(inv.status)
            && inv == b.invoices[i].(status := inv.status, paidOn := inv.paidOn)
  {
    hide Collected, LatestPayment, Posted;
    KnownIsSynced(b, i, b.invoices[i]);
  }

  /** Recorded on the books, a collection can be recorded on their view, and keeps the invariant there. */
  lemma RecordedOnBoth(b: Books, account: Id, till: Id, owed: Decimal, date: Day, i: Id)
    returns (c: Books, c': Books, p: Paper)
    requires LedgerInv(View(b)) && Known(b, i)
    requires RecordCollection(b, account, till, owed, date, [Applied(i, owed)]).Ok?
    ensures RecordCollection(b, account, till, owed, date, [Applied(i, owed)]) == Ok(c)
    ensures IsMoney(owed) && RecordsOne(b, c, p, [Applied(i, owed)]) && RecordsOne(View(b), c', p, [Applied(i, owed)])
    ensures LedgerInv(c')
  {
    hide *;
    var v := View(b);
    KnownLooksLive(b, i);
    CollectsTheSame(b, v, account, till, owed, date, i);
    CollectionRows(b, account, till, owed, date, [Applied(i, owed)]);
    CollectionRows(v, account, till, owed, date, [Applied(i, owed)]);
    CollectionKeeps(v, account, till, owed, date, [Applied(i, owed)]);
    c := RecordCollection(b, account, till, owed, date, [Applied(i, owed)]).value;
    c' := RecordCollection(v, account, till, owed, date, [Applied(i, owed)]).value;
    p := Paper(Collection(account, till), Cents(owed), b.accounts[account].currency, date, b.lastCollection + 1, false);
  }

  lemma RecordKeepsLegacy(b: Books, account: Id, till: Id, owed: Decimal, date: Day, i: Id)
    requires LegacyInv(b) && Sound(b) && Known(b, i)
    requires RecordCollection(b, account, till, owed, date, [Applied(i, owed)]).Ok?
    ensures var c := RecordCollection(b, account, till, owed, date, [Applied(i, owed)]).value;
            LegacyInv(c) && Sound(c) && Known(c, i)
  {
    hide RecordCollection, LedgerInv, Known, Sound, RecordsOne;
    var c, c', p := RecordedOnBoth(b, account, till, owed, date, i);
    KnownIsThere(b, i);
    RecordedView(b, c, c', p, owed, i);
    RecordsForOne(b, c, p, owed, i);
    KeptByRecord(b, c, p, owed, i);
    RecordsPayable(b, c, p, owed, i);
    NumbersStay(b, c);
  }

  lemma KnownIsThere(b: Books, i: Id)
    requires Known(b, i)
    ensures i < |b.invoices|
  {
  }

  lemma RecordsPayable(b: Books, c: Books, p: Paper, owed: Decimal, i: Id)
    requires IsMoney(owed) && RecordsOne(b, c, p, [Applied(i, owed)])
    ensures |c.invoices| == |b.invoices|
    ensures forall j :: 0 <= j < |b.invoices| ==>
               c.invoices[j].number == b.invoices[j].number
               && Payable(c.invoices[j].status) == Payable(b.invoices[j].status)
  {
    hide Collected, LatestPayment, NewApplications, Named;
  }

  // One draft -------------------------------------------------------------------------------------

  lemma SyncViewed(b: Books, i: Id)
    requires LegacyInv(b) && Known(b, i)
    ensures LegacyInv(SyncIn(b, {i})) && ShowsStatus(SyncIn(b, {i}), i)
  {
    var c := SyncIn(b, {i});
    assert c.invoices[i] == Synced(b.papers, b.applications, b.invoices[i], i);
    SyncedOver(b.papers, b.applications, b.invoices[i], c.invoices[i], i);
    forall j | 0 <= j < |b.invoices|
      ensures AsPosted(c, j) == AsPosted(b, j)
    {
      assert j != i ==> c.invoices[j] == b.invoices[j];
    }
    assert View(c).invoices == View(b).invoices;
    hide LedgerInv, AsPosted, Collected, LatestPayment;
    NumbersStay(b, c);
  }

  lemma AfterPosting(b: Books, i: Id)
    requires Sound(b) && i < |b.invoices| && Payable(b.invoices[i].status) && CarriedPosting(b, i).Ok?
    ensures var c := CarriedPosting(b, i).value;
            Sound(c) && Known(c, i) && c.invoices == b.invoices
  {
    PostingEffect(b, i);
  }

  lemma CarriedCollectionViewed(f: Firm, i: Id)
    requires LegacyInv(f.books) && Sound(f.books) && Known(f.books, i) && ToCollect(f.books, i)
    requires f.books.invoices[i].currency in f.carried && CarriedCollection(f, i).Ok?
    ensures LegacyInv(CarriedCollection(f, i).value) && Known(CarriedCollection(f, i).value, i)
  {
    hide RecordCollection, LegacyInv, Sound, FindAccount;
    var b, inv := f.books, f.books.invoices[i];
    var start := AccountForCustomer(b, inv.customer, inv.currency);
    var owed := OfCents(Remaining(b, i));
    AccountViewed(b, inv.customer, inv.currency);
    AccountsDontMatter(b, inv.customer, inv.currency, i);
    RecordKeepsLegacy(start, FindAccount(b.accounts, Customer, inv.customer, inv.currency), f.carried[inv.currency], owed,
                      NotAfterToday(b, PaidDay(inv).value), i);
  }

  /** Carried, a draft is on the ledger's rows and reads what its collections say. */
  lemma CarryViewed(f: Firm, i: Id)
    requires LegacyInv(f.books) && Sound(f.books) && CarryDraft(f, i).Ok?
    ensures LegacyInv(CarryDraft(f, i).value.books)
    ensures i < |CarryDraft(f, i).value.books.invoices| && ShowsStatus(CarryDraft(f, i).value.books, i)
  {
    var b := f.books;
    if Payable(b.invoices[i].status) {
      PostingViewed(b, i);
      AfterPosting(b, i);
      var posted := CarriedPosting(b, i).value;
      hide CarriedPosting, LegacyInv, Sound, SyncIn, ShowsStatus;
      if ToCollect(posted, i) {
        var tilled := CarryTill(Firm(posted, f.carried), posted.invoices[i].currency);
        TillViewed(Firm(posted, f.carried), posted.invoices[i].currency);
        TillEffect(Firm(posted, f.carried), posted.invoices[i].currency);
        assert Known(tilled.books, i);
        CarriedCollectionViewed(tilled, i);
        SyncViewed(CarriedCollection(tilled, i).value, i);
      } else {
        SyncViewed(posted, i);
      }
    } else {
      hide LegacyInv;
    }
  }

  // Runs ------------------------------------------------------------------------------------------

  /** Whatever is carried, and whatever fails, the rows already on the ledger stay under its invariant. */
  lemma {:induction false} RunStaysLegacy(f: Firm, ids: seq<Id>)
    requires LegacyInv(f.books) && Sound(f.books)
    ensures LegacyInv(CarryAll(f, ids).books) && Sound(CarryAll(f, ids).books)
  {
    hide LegacyInv, Sound, CarryDraft;
    RunStaysSound(f, ids);
    if ids != [] {
      var before := CarryAll(f, ids[..|ids| - 1]);
      RunStaysLegacy(f, ids[..|ids| - 1]);
      if CarryDraft(before, ids[|ids| - 1]).Ok? {
        CarryViewed(before, ids[|ids| - 1]);
      }
    }
  }

  lemma {:induction false} StatusElsewhere(f: Firm, ids: seq<Id>, i: Id)
    requires Sound(f.books) && i !in ids && i < |f.books.invoices|
    ensures i < |CarryAll(f, ids).books.invoices|
    ensures ShowsStatus(CarryAll(f, ids).books, i) == ShowsStatus(f.books, i)
  {
    hide Carried, ShowsStatus, OnlyFor, Sound;
    InvoiceKeptInRun(f, ids, i);
    if ids != [] {
      var n := |ids| - 1;
      var before := CarryAll(f, ids[..n]);
      StatusElsewhere(f, ids[..n], i);
      RunStaysSound(f, ids[..n]);
      CarriedKeeps(before, ids[n]);
      SoundKnows(before.books);
      ViewElsewhere(before.books, CarryAll(f, ids).books, ids[n], i);
    }
  }

  lemma {:induction false} CarriedShowsStatus(f: Firm, ids: seq<Id>, k: nat)
    requires LegacyInv(f.books) && Sound(f.books) && Distinct(ids) && k < |ids| && !FailedAt(f, ids, k)
    ensures ids[k] < |CarryAll(f, ids).books.invoices| && ShowsStatus(CarryAll(f, ids).books, ids[k])
  {
    hide Carried, ShowsStatus, OnlyFor, Sound, LegacyInv, CarryDraft;
    var n := |ids| - 1;
    var before := CarryAll(f, ids[..n]);
    RunStaysLegacy(f, ids[..n]);
    if k == n {
      CarryViewed(before, ids[n]);
      CarriedIs(before, ids[n]);
    } else {
      assert ids[..n][..k] == ids[..k];
      CarriedShowsStatus(f, ids[..n], k);
      CarriedKeeps(before, ids[n]);
      SoundKnows(before.books);
      OnlyForMeans(before.books, CarryAll(f, ids).books, ids[n]);
      ViewElsewhere(before.books, CarryAll(f, ids).books, ids[n], ids[k]);
    }
  }

  lemma CarriedIs(f: Firm, i: Id)
    requires CarryDraft(f, i).Ok?
    ensures Carried(f, i) == CarryDraft(f, i).value
  {
  }

  /** Books whose every status shows, and that have nothing left to carry, are their own view. */
  lemma ViewIsBooks(b: Books)
    requires forall i: nat :: i < |b.invoices| ==> ShowsStatus(b, i) && !NeedsCarry(b, i)
    ensures View(b) == b
  {
    forall i: nat | i < |b.invoices|
      ensures AsPosted(b, i) == b.invoices[i]
    {
      assert ShowsStatus(b, i) && !NeedsCarry(b, i);
    }
    assert View(b).invoices == b.invoices;
  }

  lemma InvShowsStatus(b: Books, i: nat)
    requires LedgerInv(b) && i < |b.invoices|
    ensures ShowsStatus(b, i)
  {
  }

  lemma {:induction false} InvoicesStay(f: Firm, ids: seq<Id>)
    requires Sound(f.books)
    ensures |CarryAll(f, ids).books.invoices| == |f.books.invoices|
  {
    hide Carried, Sound, OnlyFor;
    if ids != [] {
      var n := |ids| - 1;
      InvoicesStay(f, ids[..n]);
      RunStaysSound(f, ids[..n]);
      CarriedKeeps(CarryAll(f, ids[..n]), ids[n]);
      OnlyForMeans(CarryAll(f, ids[..n]).books, CarryAll(f, ids).books, ids[n]);
    }
  }

  /** Once every draft with work is carried, the whole books are under the ledger's invariant: exactly when the drafts
      the run had no work for already read what the ledger says of them. */
  lemma CarriedIntoTheLedger(f: Firm, ids: seq<Id>)
    requires LegacyInv(f.books) && Sound(f.books) && Distinct(ids)
    requires forall j :: NeedsCarry(f.books, j) ==> j in ids
    requires forall k :: 0 <= k < |ids| ==> !FailedAt(f, ids, k)
    ensures LedgerInv(CarryAll(f, ids).books) <==>
              forall j: nat :: j < |f.books.invoices| && j !in ids ==> ShowsStatus(f.books, j)
  {
    hide LedgerInv, ShowsStatus, NeedsCarry, FailedAt, Sound, CarryAll;
    var b := CarryAll(f, ids).books;
    RunStaysLegacy(f, ids);
    InvoicesStay(f, ids);
    forall j: nat | j < |b.invoices|
      ensures !NeedsCarry(b, j)
      ensures j in ids ==> ShowsStatus(b, j)
      ensures j !in ids ==> ShowsStatus(b, j) == ShowsStatus(f.books, j)
    {
      RunConverges(f, ids, j);
      if j in ids {
        var k :| 0 <= k < |ids| && ids[k] == j;
        CarriedShowsStatus(f, ids, k);
      } else {
        StatusElsewhere(f, ids, j);
      }
    }
    if forall j: nat :: j < |b.invoices| ==> ShowsStatus(b, j) {
      ViewIsBooks(b);
    }
    if LedgerInv(b) {
      forall j: nat | j < |b.invoices| {
        InvShowsStatus(b, j);
      }
    }
  }

  /** A draft marked paid that asked nothing is nobody's to carry, and keeps the day it was marked rather than its own. */
  lemma PaidNothingKeepsItsDay(today: Day)
    ensures var b := NewFirm(today).(invoices := [Invoice(0, TRY, Paid, 0, Some(1), Some(today - 1), Some(today))]);
            && LegacyInv(b) && Sound(b) && (forall i :: !NeedsCarry(b, i))
            && !LedgerInv(CarryAll(Firm(b, map[]), []).books)
  {
    var b := NewFirm(today).(invoices := [Invoice(0, TRY, Paid, 0, Some(1), Some(today - 1), Some(today))]);
    BeforeTheLedger(b);
    assert !ShowsStatus(b, 0);
    if LedgerInv(b) {
      InvShowsStatus(b, 0);
    }
  }
}
