/**
 * Allocation: what collections pay of which invoices. Never more than the
 * collection brought in, never more than the invoice asks, and the status an
 * invoice shows is always the one its standing collections say.
 */
module Allocation {
  import opened Results
  import opened Sums
  import opened Books
  import opened Services

  ghost predicate ApplicationsKnown(b: Books) {
    forall k :: 0 <= k < |b.applications| ==>
      var app := b.applications[k];
      app.amount > 0 && app.invoice < |b.invoices| &&
      app.collection < |b.papers| && b.papers[app.collection].kind.Collection?
  }

  /** No collection pays the same invoice by two applications. */
  ghost predicate PairsDistinct(apps: seq<Application>) {
    forall j, k :: 0 <= j < k < |apps| ==>
      !(apps[j].collection == apps[k].collection && apps[j].invoice == apps[k].invoice)
  }

  /** A standing application pays a live invoice of the collection's own customer and currency. */
  predicate Fits(b: Books, app: Application) {
    && app.collection < |b.papers| && app.invoice < |b.invoices|
    && b.papers[app.collection].kind.Collection?
    && var inv := b.invoices[app.invoice];
       var a := b.papers[app.collection].kind.account;
       Payable(inv.status) && a < |b.accounts| && IsAccountOf(b.accounts[a], Customer, inv.customer, inv.currency)
  }

  ghost predicate StandingFits(b: Books) {
    forall k :: 0 <= k < |b.applications| && Counts(b.papers, b.applications[k]) ==> Fits(b, b.applications[k])
  }

  ghost predicate WithinCollections(b: Books) {
    forall c: nat :: c < |b.papers| && b.papers[c].kind.Collection? ==>
      && Allocated(b.applications, c) <= b.papers[c].amount
      && b.papers[c].kind.account < |b.accounts|
  }

  ghost predicate WithinInvoice(b: Books, i: nat)
    requires i < |b.invoices|
  {
    Payable(b.invoices[i].status) ==>
      && 0 <= Collected(b.papers, b.applications, i) <= b.invoices[i].total
      && b.invoices[i].date.Some? && b.invoices[i].number.Some?
  }

  ghost predicate NumbersDistinct(invoices: seq<Invoice>) {
    forall i, j :: 0 <= i < j < |invoices| && Payable(invoices[i].status) && Payable(invoices[j].status) ==>
      invoices[i].number != invoices[j].number
  }

  ghost predicate AllocationBounds(b: Books) {
    && ApplicationsKnown(b)
    && PairsDistinct(b.applications)
    && StandingFits(b)
    && WithinCollections(b)
    && (forall i: nat :: i < |b.invoices| ==> WithinInvoice(b, i))
    && NumbersDistinct(b.invoices)
  }

  predicate ShowsStatus(b: Books, i: nat)
    requires i < |b.invoices|
  {
    Synced(b.papers, b.applications, b.invoices[i], i) == b.invoices[i]
  }

  ghost predicate ShowsStatusExcept(b: Books, which: set<Id>) {
    forall i: nat :: i < |b.invoices| && i !in which ==> ShowsStatus(b, i)
  }

  ghost predicate AllocationInv(b: Books) {
    AllocationBounds(b) && ShowsStatusExcept(b, {})
  }

  // What the status means ----------------------------------------------------------

  ghost predicate PaysStanding(b: Books, k: nat, i: nat) {
    k < |b.applications| && b.applications[k].invoice == i && Counts(b.papers, b.applications[k])
  }

  lemma {:induction false} LatestIsMaximum(papers: seq<Paper>, apps: seq<Application>, i: Id)
    ensures var latest := LatestPayment(papers, apps, i);
            && (latest.Some? <==> exists k :: 0 <= k < |apps| && apps[k].invoice == i && Counts(papers, apps[k]))
            && (latest.Some? ==> exists k :: 0 <= k < |apps| && apps[k].invoice == i && Counts(papers, apps[k]) &&
                                   papers[apps[k].collection].date == latest.value)
            && (forall k :: 0 <= k < |apps| && apps[k].invoice == i && Counts(papers, apps[k]) ==>
                  latest.Some? && papers[apps[k].collection].date <= latest.value)
  {
    if apps != [] {
      var n := |apps| - 1;
      LatestIsMaximum(papers, apps[..n], i);
      assert apps == apps[..n] + [apps[n]];
      var earlier := LatestPayment(papers, apps[..n], i);
      if earlier.Some? {
        var k :| 0 <= k < n && apps[..n][k].invoice == i && Counts(papers, apps[..n][k]) &&
                 papers[apps[..n][k].collection].date == earlier.value;
        assert apps[k] == apps[..n][k];
      }
      forall k | 0 <= k < |apps| && apps[k].invoice == i && Counts(papers, apps[k])
        ensures LatestPayment(papers, apps, i).Some?
        ensures papers[apps[k].collection].date <= LatestPayment(papers, apps, i).value
      {
        if k < n {
          assert apps[k] == apps[..n][k];
        }
      }
    }
  }

  lemma {:induction false} PaymentsPositive(papers: seq<Paper>, apps: seq<Application>, i: Id, k: nat)
    requires forall j :: 0 <= j < |apps| ==> apps[j].amount > 0
    requires k < |apps| && apps[k].invoice == i && Counts(papers, apps[k])
    ensures Collected(papers, apps, i) > 0
  {
    var f := PaidBy(papers, apps, i);
    var g: nat -> int := (j: nat) => if j == k then f(k) else 0;
    SumMonotone(|apps|, g, f);
    SumOnly(|apps|, g, k);
  }

  lemma NothingCollected(papers: seq<Paper>, apps: seq<Application>, i: Id)
    requires forall k :: 0 <= k < |apps| && apps[k].invoice == i ==> !Counts(papers, apps[k])
    ensures Collected(papers, apps, i) == 0
  {
    SumZero(|apps|, PaidBy(papers, apps, i));
  }

  lemma CollectedNonNegative(papers: seq<Paper>, apps: seq<Application>, i: Id)
    requires forall j :: 0 <= j < |apps| ==> apps[j].amount > 0
    ensures Collected(papers, apps, i) >= 0
  {
    SumNonNegative(|apps|, PaidBy(papers, apps, i));
  }

  /**
   * An issued invoice reads `Paid` exactly when nothing remains, and then shows the
   * day of the latest standing collection, or its own date when it asked nothing.
   */
  lemma StatusMeans(b: Books, i: nat)
    requires AllocationInv(b) && i < |b.invoices| && Payable(b.invoices[i].status)
    ensures 0 <= Remaining(b, i) <= b.invoices[i].total
    ensures b.invoices[i].status == Paid <==> Remaining(b, i) == 0
    ensures b.invoices[i].status == Issued ==> b.invoices[i].paidOn == None
    ensures b.invoices[i].status == Paid && b.invoices[i].total == 0 ==> b.invoices[i].paidOn == b.invoices[i].date
    ensures b.invoices[i].status == Paid && b.invoices[i].total > 0 ==>
              && b.invoices[i].paidOn.Some?
              && (exists k: nat :: PaysStanding(b, k, i) &&
                    b.papers[b.applications[k].collection].date == b.invoices[i].paidOn.value)
              && (forall k: nat :: PaysStanding(b, k, i) ==>
                    b.papers[b.applications[k].collection].date <= b.invoices[i].paidOn.value)
  {
    assert WithinInvoice(b, i) && ShowsStatus(b, i);
    LatestIsMaximum(b.papers, b.applications, i);
    if b.invoices[i].status == Paid && b.invoices[i].total > 0 {
      assert Collected(b.papers, b.applications, i) > 0;
      if forall k :: 0 <= k < |b.applications| && b.applications[k].invoice == i ==> !Counts(b.papers, b.applications[k]) {
        NothingCollected(b.papers, b.applications, i);
      }
      var latest := LatestPayment(b.papers, b.applications, i);
      var k :| 0 <= k < |b.applications| && b.applications[k].invoice == i && Counts(b.papers, b.applications[k]) &&
               b.papers[b.applications[k].collection].date == latest.value;
      assert PaysStanding(b, k, i);
      assert b.invoices[i].paidOn == latest;
    }
  }

  // Papers that change ---------------------------------------------------------------

  /** Both lists of papers say the same of these applications. */
  ghost predicate PapersAgree(ps: seq<Paper>, qs: seq<Paper>, apps: seq<Application>, i: Id) {
    forall k :: 0 <= k < |apps| && apps[k].invoice == i ==>
      && Counts(ps, apps[k]) == Counts(qs, apps[k])
      && (Counts(ps, apps[k]) ==> ps[apps[k].collection].date == qs[apps[k].collection].date)
  }

  lemma {:induction false} LatestAgrees(ps: seq<Paper>, qs: seq<Paper>, apps: seq<Application>, i: Id)
    requires PapersAgree(ps, qs, apps, i)
    ensures LatestPayment(ps, apps, i) == LatestPayment(qs, apps, i)
  {
    if apps != [] {
      var n := |apps| - 1;
      assert forall k :: 0 <= k < n ==> apps[..n][k] == apps[k];
      LatestAgrees(ps, qs, apps[..n], i);
    }
  }

  lemma SyncedAgrees(ps: seq<Paper>, qs: seq<Paper>, apps: seq<Application>, inv: Invoice, i: Id)
    requires PapersAgree(ps, qs, apps, i)
    ensures Collected(ps, apps, i) == Collected(qs, apps, i)
    ensures Synced(ps, apps, inv, i) == Synced(qs, apps, inv, i)
  {
    SumCongruent(|apps|, PaidBy(ps, apps, i), PaidBy(qs, apps, i));
    LatestAgrees(ps, qs, apps, i);
  }

  /** Re-reading the status of the invoices left out makes every status right. */
  lemma SyncRestores(b: Books, which: set<Id>)
    requires AllocationBounds(b) && ShowsStatusExcept(b, which)
    ensures AllocationInv(SyncIn(b, which))
  {
    var c := SyncIn(b, which);
    forall i: nat | i < |c.invoices|
      ensures ShowsStatus(c, i) && WithinInvoice(c, i)
    {
      assert WithinInvoice(b, i);
      if i !in which {
        assert ShowsStatus(b, i);
      }
    }
    forall k | 0 <= k < |c.applications| && Counts(c.papers, c.applications[k])
      ensures Fits(c, c.applications[k])
    {
      assert Fits(b, b.applications[k]);
    }
    assert NumbersDistinct(c.invoices) by {
      assert forall i :: 0 <= i < |b.invoices| ==>
        c.invoices[i].number == b.invoices[i].number && Payable(c.invoices[i].status) == Payable(b.invoices[i].status);
    }
  }

  // Steps that leave applications alone ------------------------------------------------

  /** New accounts, tills, movements and papers, and closed or passing days. */
  lemma AllocationFrame(b: Books, c: Books)
    requires AllocationInv(b)
    requires c.applications == b.applications && c.invoices == b.invoices
    requires b.accounts <= c.accounts && b.papers <= c.papers
    requires forall p :: |b.papers| <= p < |c.papers| && c.papers[p].kind.Collection? ==>
               c.papers[p].amount >= 0 && c.papers[p].kind.account < |c.accounts|
    ensures AllocationInv(c)
  {
    forall i: nat | i < |c.invoices|
      ensures WithinInvoice(c, i) && ShowsStatus(c, i)
    {
      assert WithinInvoice(b, i) && ShowsStatus(b, i);
      assert PapersAgree(b.papers, c.papers, b.applications, i);
      SyncedAgrees(b.papers, c.papers, b.applications, b.invoices[i], i);
    }
    forall p: nat | p < |c.papers| && c.papers[p].kind.Collection?
      ensures Allocated(c.applications, p) <= c.papers[p].amount && c.papers[p].kind.account < |c.accounts|
    {
      if p >= |b.papers| {
        SumZero(|c.applications|, TakenFrom(c.applications, p));
      }
    }
    forall k | 0 <= k < |c.applications| && Counts(c.papers, c.applications[k])
      ensures Fits(c, c.applications[k])
    {
      assert Fits(b, b.applications[k]);
    }
  }

  /** Cancelling a paper gives its invoices back what it paid; only they need re-reading. */
  lemma CancelledAllocation(b: Books, c: Books, p: Id)
    requires AllocationInv(b) && p < |b.papers|
    requires c.applications == b.applications && c.invoices == b.invoices && c.accounts == b.accounts
    requires c.papers == b.papers[p := b.papers[p].(cancelled := true)]
    ensures AllocationBounds(c)
    ensures ShowsStatusExcept(c, AppliedInvoices(b.applications, p))
  {
    var apps := b.applications;
    forall k | 0 <= k < |apps| && Counts(c.papers, apps[k])
      ensures Fits(c, apps[k])
    {
      assert Counts(b.papers, apps[k]) && Fits(b, apps[k]);
    }
    forall i: nat | i < |c.invoices|
      ensures WithinInvoice(c, i)
    {
      assert WithinInvoice(b, i);
      SumMonotone(|apps|, PaidBy(c.papers, apps, i), PaidBy(b.papers, apps, i));
      CollectedNonNegative(c.papers, apps, i);
    }
    forall i: nat | i < |c.invoices| && i !in AppliedInvoices(apps, p)
      ensures ShowsStatus(c, i)
    {
      assert ShowsStatus(b, i);
      forall k | 0 <= k < |apps| && apps[k].invoice == i
        ensures apps[k].collection != p
      {
      }
      assert PapersAgree(b.papers, c.papers, apps, i);
      SyncedAgrees(b.papers, c.papers, apps, b.invoices[i], i);
    }
  }

  lemma CancelledOther(b: Books, c: Books, p: Id)
    requires AllocationInv(b) && p < |b.papers| && !b.papers[p].kind.Collection?
    requires c.applications == b.applications && c.invoices == b.invoices && c.accounts == b.accounts
    requires c.papers == b.papers[p := b.papers[p].(cancelled := true)]
    ensures AllocationInv(c)
  {
    CancelledAllocation(b, c, p);
    assert AppliedInvoices(b.applications, p) == {};
  }

  // Applying -----------------------------------------------------------------------

  lemma {:induction false} NoObstacle(b: Books, c: Id, account: Account, applies: seq<Applied>, n: nat, i: nat)
    requires n <= |b.invoices| && i < n && i in Named(applies)
    requires FirstObstacle(b, c, account, applies, n).None?
    ensures Obstacle(b, c, account, i, PerInvoice(applies, i)).None?
  {
    if i < n - 1 {
      NoObstacle(b, c, account, applies, n - 1, i);
    }
  }

  lemma {:induction false} NothingInTheWay(b: Books, c: Id, account: Account, applies: seq<Applied>, n: nat)
    requires n <= |b.invoices|
    requires forall j :: j in Named(applies) && j < n ==> Obstacle(b, c, account, j, PerInvoice(applies, j)).None?
    ensures FirstObstacle(b, c, account, applies, n).None?
  {
    hide Obstacle, PerInvoice, Named;
    if n > 0 {
      NothingInTheWay(b, c, account, applies, n - 1);
    }
  }

  lemma PerInvoicePositive(applies: seq<Applied>, i: nat)
    requires forall k :: 0 <= k < |applies| ==> IsMoney(applies[k].amount)
    requires i in Named(applies)
    ensures PerInvoice(applies, i) > 0
  {
    var k :| 0 <= k < |applies| && applies[k].invoice == i;
    var f := AmountFor(applies, i);
    var g: nat -> int := (j: nat) => if j == k then f(k) else 0;
    SumMonotone(|applies|, g, f);
    SumOnly(|applies|, g, k);
  }

  function PerInvoiceOf(applies: seq<Applied>): nat -> int {
    (i: nat) => PerInvoice(applies, i)
  }

  /** Adding the amounts up by invoice, or in the order given, is the same total. */
  lemma {:induction false} TotalByInvoice(applies: seq<Applied>, n: nat)
    requires forall k :: 0 <= k < |applies| ==> applies[k].invoice < n
    ensures SumTo(n, PerInvoiceOf(applies)) == TotalApplied(applies)
  {
    if applies == [] {
      SumZero(n, PerInvoiceOf(applies));
    } else {
      var m := |applies| - 1;
      var before, last := applies[..m], applies[m];
      var f, g := PerInvoiceOf(before), PerInvoiceOf(applies);
      TotalByInvoice(before, n);
      forall i: nat
        ensures g(i) == f(i) + (if last.invoice == i then AnyAmount(applies)(m) else 0)
      {
        SumCongruent(m, AmountFor(before, i), AmountFor(applies, i));
      }
      SumChange(n, f, g, last.invoice);
      SumCongruent(m, AnyAmount(before), AnyAmount(applies));
    }
  }

  lemma CollectedAppend(papers: seq<Paper>, apps: seq<Application>, app: Application, i: Id)
    ensures Collected(papers, apps + [app], i)
         == Collected(papers, apps, i) + (if app.invoice == i && Counts(papers, app) then app.amount else 0)
  {
    SumCongruent(|apps|, PaidBy(papers, apps, i), PaidBy(papers, apps + [app], i));
  }

  lemma AllocatedAppend(apps: seq<Application>, app: Application, c: Id)
    ensures Allocated(apps + [app], c) == Allocated(apps, c) + (if app.collection == c then app.amount else 0)
  {
    SumCongruent(|apps|, TakenFrom(apps, c), TakenFrom(apps + [app], c));
  }

  lemma LatestAppend(papers: seq<Paper>, apps: seq<Application>, app: Application, i: Id)
    requires app.invoice != i
    ensures LatestPayment(papers, apps + [app], i) == LatestPayment(papers, apps, i)
  {
    assert (apps + [app])[..|apps|] == apps;
  }

  function PaidNow(applies: seq<Applied>, n: nat, i: nat): int {
    if i < n && i in Named(applies) then PerInvoice(applies, i) else 0
  }

  /** The new applications pay each invoice named what was asked for it, and no other. */
  lemma {:induction false} NewlyCollected(papers: seq<Paper>, apps: seq<Application>, c: Id, applies: seq<Applied>,
      n: nat, i: nat)
    requires Counts(papers, Application(c, 0, 0))
    ensures Collected(papers, apps + NewApplications(c, applies, n), i) == Collected(papers, apps,
        i) + PaidNow(applies, n, i)
    ensures i !in Named(applies) ==>
              LatestPayment(papers, apps + NewApplications(c, applies, n), i) == LatestPayment(papers, apps, i)
  {
    if n == 0 {
      assert apps + [] == apps;
    } else {
      NewlyCollected(papers, apps, c, applies, n - 1, i);
      var before := apps + NewApplications(c, applies, n - 1);
      if n - 1 in Named(applies) {
        var app := Application(c, n - 1, PerInvoice(applies, n - 1));
        assert apps + NewApplications(c, applies, n) == before + [app];
        CollectedAppend(papers, before, app, i);
        if i !in Named(applies) {
          LatestAppend(papers, before, app, i);
        }
      } else {
        assert apps + NewApplications(c, applies, n) == before;
      }
    }
  }

  lemma UnnamedIsZero(applies: seq<Applied>, i: nat)
    requires i !in Named(applies)
    ensures PerInvoice(applies, i) == 0
  {
    forall k | 0 <= k < |applies|
      ensures applies[k].invoice != i
    {
      assert applies[k].invoice in Named(applies);
    }
    SumZero(|applies|, AmountFor(applies, i));
  }

  lemma {:induction false} NewlyAllocated(apps: seq<Application>, c: Id, applies: seq<Applied>, n: nat, d: Id)
    ensures Allocated(apps + NewApplications(c, applies, n), d)
         == Allocated(apps, d) + (if c == d then SumTo(n, PerInvoiceOf(applies)) else 0)
  {
    if n == 0 {
      assert apps + [] == apps;
    } else {
      NewlyAllocated(apps, c, applies, n - 1, d);
      var before := apps + NewApplications(c, applies, n - 1);
      if n - 1 in Named(applies) {
        var app := Application(c, n - 1, PerInvoice(applies, n - 1));
        assert apps + NewApplications(c, applies, n) == before + [app];
        AllocatedAppend(before, app, d);
      } else {
        assert apps + NewApplications(c, applies, n) == before;
        UnnamedIsZero(applies, n - 1);
      }
    }
  }

  predicate AsksOf(c: Id, applies: seq<Applied>, n: nat, app: Application) {
    app.collection == c && app.invoice < n && app.invoice in Named(applies) &&
    app.amount == PerInvoice(applies, app.invoice)
  }

  lemma {:induction false} NewApplicationsShape(c: Id, applies: seq<Applied>, n: nat)
    ensures forall k :: 0 <= k < |NewApplications(c, applies, n)| ==>
              AsksOf(c, applies, n, NewApplications(c, applies, n)[k])
    ensures forall j, k :: 0 <= j < k < |NewApplications(c, applies, n)| ==>
              NewApplications(c, applies, n)[j].invoice < NewApplications(c, applies, n)[k].invoice
  {
    if n > 0 {
      NewApplicationsShape(c, applies, n - 1);
      var before, made := NewApplications(c, applies, n - 1), NewApplications(c, applies, n);
      forall k | 0 <= k < |made|
        ensures AsksOf(c, applies, n, made[k])
      {
        assert k < |before| ==> made[k] == before[k] && AsksOf(c, applies, n - 1, before[k]);
      }
      forall j, k | 0 <= j < k < |made|
        ensures made[j].invoice < made[k].invoice
      {
        assert made[j] == before[j] && AsksOf(c, applies, n - 1, before[j]);
      }
    }
  }

  /** An application that was allowed: its collection stands, and nothing refused. */
  ghost predicate Applies(b: Books, c: Id, applies: seq<Applied>, after: Books) {
    && c < |b.papers| && b.papers[c].kind.Collection? && !b.papers[c].cancelled
    && b.papers[c].kind.account < |b.accounts|
    && Apply(b, c, b.accounts[b.papers[c].kind.account], applies,
             b.papers[c].amount - Allocated(b.applications, c)) == Ok(after)
  }

  /** Each application written pays a live invoice of the customer, which the collection had not paid. */
  lemma MadeFit(b: Books, c: Id, applies: seq<Applied>, after: Books)
    requires Applies(b, c, applies, after)
    ensures var made := NewApplications(c, applies, |b.invoices|);
            && after == b.(applications := b.applications + made)
            && forall k :: 0 <= k < |made| ==>
                 made[k].amount > 0 && Fits(after, made[k]) && !Pays(b.applications, c, made[k].invoice)
  {
    hide NewApplications, Allocated, Remaining, FirstObstacle;
    var n := |b.invoices|;
    var made := NewApplications(c, applies, n);
    NewApplicationsShape(c, applies, n);
    forall k | 0 <= k < |made|
      ensures made[k].amount > 0 && Fits(after, made[k]) && !Pays(b.applications, c, made[k].invoice)
    {
      assert AsksOf(c, applies, n, made[k]);
      PerInvoicePositive(applies, made[k].invoice);
      NoObstacle(b, c, b.accounts[b.papers[c].kind.account], applies, n, made[k].invoice);
    }
  }

  lemma AppliedKnown(b: Books, c: Id, applies: seq<Applied>, after: Books)
    requires Applies(b, c, applies, after)
    requires ApplicationsKnown(b) && PairsDistinct(b.applications) && StandingFits(b)
    ensures ApplicationsKnown(after) && PairsDistinct(after.applications) && StandingFits(after)
  {
    hide NewApplications, Applies;
    var apps, made := b.applications, NewApplications(c, applies, |b.invoices|);
    MadeFit(b, c, applies, after);
    NewApplicationsShape(c, applies, |b.invoices|);
    forall k | 0 <= k < |made|
      ensures made[k].collection == c
    {
      assert AsksOf(c, applies, |b.invoices|, made[k]);
    }
    PairsStayDistinct(apps, made, c);
    forall k | 0 <= k < |after.applications| && Counts(after.papers, after.applications[k])
      ensures Fits(after, after.applications[k])
    {
      if k < |apps| {
        assert Fits(b, apps[k]);
      } else {
        assert after.applications[k] == made[k - |apps|];
      }
    }
  }

  lemma AppliedWithinCollections(b: Books, c: Id, applies: seq<Applied>, after: Books)
    requires Applies(b, c, applies, after) && WithinCollections(b)
    ensures WithinCollections(after)
  {
    hide NewApplications, Allocated, FirstObstacle;
    var n := |b.invoices|;
    forall d: nat | d < |after.papers| && after.papers[d].kind.Collection?
      ensures Allocated(after.applications, d) <= after.papers[d].amount
    {
      NewlyAllocated(b.applications, c, applies, n, d);
      TotalByInvoice(applies, n);
    }
  }

  lemma AppliedWithinInvoice(b: Books, c: Id, applies: seq<Applied>, after: Books, i: nat)
    requires Applies(b, c, applies, after) && i < |b.invoices| && WithinInvoice(b, i)
    ensures i < |after.invoices| && WithinInvoice(after, i)
    ensures i !in Named(applies) && ShowsStatus(b, i) ==> ShowsStatus(after, i)
  {
    hide NewApplications, Allocated, Collected, FirstObstacle, LatestPayment, PerInvoice;
    var n := |b.invoices|;
    NewlyCollected(b.papers, b.applications, c, applies, n, i);
    if i in Named(applies) {
      NoObstacle(b, c, b.accounts[b.papers[c].kind.account], applies, n, i);
      PerInvoicePositive(applies, i);
    }
  }

  /** Applying keeps every bound; only the invoices named need their status re-read. */
  lemma AppliedAllocation(b: Books, c: Id, applies: seq<Applied>, limit: int, after: Books)
    requires AllocationBounds(b) && ShowsStatusExcept(b, {})
    requires c < |b.papers| && b.papers[c].kind.Collection? && !b.papers[c].cancelled
    requires limit == b.papers[c].amount - Allocated(b.applications, c)
    requires Apply(b, c, b.accounts[b.papers[c].kind.account], applies, limit) == Ok(after)
    ensures AllocationBounds(after)
    ensures ShowsStatusExcept(after, Named(applies))
  {
    AppliedKnown(b, c, applies, after);
    AppliedWithinCollections(b, c, applies, after);
    hide ApplicationsKnown, PairsDistinct, StandingFits, WithinCollections, WithinInvoice, ShowsStatus, NumbersDistinct,
         NewApplications, FirstObstacle;
    forall i: nat | i < |b.invoices|
      ensures WithinInvoice(after, i)
      ensures i !in Named(applies) ==> ShowsStatus(after, i)
    {
      AppliedWithinInvoice(b, c, applies, after, i);
    }
  }

  lemma PairsStayDistinct(apps: seq<Application>, made: seq<Application>, c: Id)
    requires PairsDistinct(apps)
    requires forall k :: 0 <= k < |made| ==> made[k].collection == c && !Pays(apps, c, made[k].invoice)
    requires forall j, k :: 0 <= j < k < |made| ==> made[j].invoice < made[k].invoice
    ensures PairsDistinct(apps + made)
  {
    var all := apps + made;
    forall j, k | 0 <= j < k < |all|
      ensures !(all[j].collection == all[k].collection && all[j].invoice == all[k].invoice)
    {
      if j < |apps| <= k {
        assert !Pays(apps, c, made[k - |apps|].invoice);
      }
    }
  }

  // Invoices -----------------------------------------------------------------------

  /** No standing application names an invoice that is not live. */
  lemma OnlyLiveCollected(b: Books, i: nat)
    requires ApplicationsKnown(b) && StandingFits(b) && i < |b.invoices| && !Payable(b.invoices[i].status)
    ensures forall k :: 0 <= k < |b.applications| && b.applications[k].invoice == i ==> !Counts(b.papers, b.applications[k])
    ensures Collected(b.papers, b.applications, i) == 0
  {
    forall k | 0 <= k < |b.applications| && b.applications[k].invoice == i
      ensures !Counts(b.papers, b.applications[k])
    {
      assert Counts(b.papers, b.applications[k]) ==> Fits(b, b.applications[k]);
    }
    NothingCollected(b.papers, b.applications, i);
  }

  /** Changing one invoice that no standing collection pays keeps every bound. */
  lemma OneInvoiceChanged(b: Books, i: nat, inv: Invoice)
    requires AllocationInv(b) && i < |b.invoices|
    requires Collected(b.papers, b.applications, i) == 0
    requires Payable(inv.status) ==>
               inv.total >= 0 && inv.date.Some? && inv.number.Some? && !NumberTaken(b.invoices, i, inv.number.value)
    ensures AllocationBounds(b.(invoices := b.invoices[i := inv]))
    ensures ShowsStatusExcept(b.(invoices := b.invoices[i := inv]), {i})
  {
    var c := b.(invoices := b.invoices[i := inv]);
    forall k | 0 <= k < |c.applications| && Counts(c.papers, c.applications[k])
      ensures Fits(c, c.applications[k])
    {
      assert Fits(b, b.applications[k]);
      if b.applications[k].invoice == i {
        PaymentsPositive(b.papers, b.applications, i, k);
      }
    }
    forall j: nat | j < |c.invoices|
      ensures WithinInvoice(c, j)
      ensures j != i ==> ShowsStatus(c, j)
    {
      assert WithinInvoice(b, j) && ShowsStatus(b, j);
    }
    assert NumbersDistinct(c.invoices) by {
      forall j, k | 0 <= j < k < |c.invoices| && Payable(c.invoices[j].status) && Payable(c.invoices[k].status)
        ensures c.invoices[j].number != c.invoices[k].number
      {
      }
    }
  }

  lemma InvoiceAppended(b: Books, inv: Invoice)
    requires AllocationInv(b) && inv.status == Draft
    ensures AllocationInv(b.(invoices := b.invoices + [inv]))
  {
    var c := b.(invoices := b.invoices + [inv]);
    forall k | 0 <= k < |c.applications| && Counts(c.papers, c.applications[k])
      ensures Fits(c, c.applications[k])
    {
      assert Fits(b, b.applications[k]);
    }
    forall j: nat | j < |c.invoices|
      ensures WithinInvoice(c, j) && ShowsStatus(c, j)
    {
      if j < |b.invoices| {
        assert WithinInvoice(b, j) && ShowsStatus(b, j);
      }
    }
  }
}
