/** Recording a collection, row by row: what it writes, and that it pays what it was asked to (apps/ledger/services.py). */
module Collecting {
  import Allocation
  import opened Books
  import CallShapes
  import Posting
  import opened Results
  import opened Services
  import opened Sums

  ghost predicate CollectionsKnown(b: Books) {
    forall k :: 0 <= k < |b.applications| ==> b.applications[k].collection < |b.papers|
  }

  lemma {:induction false} CollectedKept(ps: seq<Paper>, qs: seq<Paper>, apps: seq<Application>,
      more: seq<Application>, j: Id)
    requires ps <= qs && (forall k :: 0 <= k < |apps| ==> apps[k].collection < |ps|)
    requires forall k :: 0 <= k < |more| ==> more[k].invoice != j
    ensures Collected(qs, apps + more, j) == Collected(ps, apps, j)
  {
    if more == [] {
      assert apps + more == apps;
      SumCongruent(|apps|, PaidBy(ps, apps, j), PaidBy(qs, apps, j));
    } else {
      var n := |more| - 1;
      CollectedKept(ps, qs, apps, more[..n], j);
      Allocation.CollectedAppend(qs, apps + more[..n], more[n], j);
      assert apps + more == apps + more[..n] + [more[n]];
    }
  }

  lemma OneAsked(i: Id, owed: Decimal)
    requires IsMoney(owed)
    ensures PerInvoice([Applied(i, owed)], i) == Cents(owed)
    ensures Named([Applied(i, owed)]) == {i}
  {
    var applies := [Applied(i, owed)];
    assert SumTo(1, AmountFor(applies, i)) == SumTo(0, AmountFor(applies, i)) + AmountFor(applies, i)(0);
    assert applies[0].invoice in Named(applies);
  }

  /** A collection recorded: one paper, one movement, its applications, and the invoices named synced. */
  ghost predicate RecordsOne(b: Books, c: Books, p: Paper, applies: seq<Applied>) {
    && c.papers == b.papers + [p]
    && c.applications == b.applications + NewApplications(|b.papers|, applies, |b.invoices|)
    && c.movements == b.movements + [LegMovement(p, PaperRef(|b.papers|), Legs(p.kind)[0])]
    && p.kind.Collection?
    && |c.invoices| == |b.invoices|
    && (forall j :: 0 <= j < |b.invoices| ==>
          c.invoices[j] == if j in Named(applies) then Synced(c.papers, c.applications, b.invoices[j], j) else b.invoices[j])
    && c == b.(papers := c.papers, applications := c.applications, movements := c.movements, invoices := c.invoices,
               lastCollection := b.lastCollection + 1)
  }

  lemma CollectionRows(b: Books, account: Id, till: Id, owed: Decimal, date: Day, applies: seq<Applied>)
    requires RecordCollection(b, account, till, owed, date, applies).Ok?
    ensures IsMoney(owed) && account < |b.accounts|
    ensures var p := Paper(Collection(account, till), Cents(owed), b.accounts[account].currency, date,
        b.lastCollection + 1, false);
            RecordsOne(b, RecordCollection(b, account, till, owed, date, applies).value, p, applies)
  {
    hide FirstObstacle, NewApplications, Synced, Posting.BeforeAnOpening, Posting.CheckDate;
    var c := |b.papers|;
    var p := Paper(Collection(account, till), Cents(owed), b.accounts[account].currency, date, b.lastCollection + 1, false);
    var created := b.(papers := b.papers + [p], lastCollection := b.lastCollection + 1);
    var applied := Apply(created, c, b.accounts[account], applies, Cents(owed)).value;
    var movement := LegMovement(p, PaperRef(c), Legs(p.kind)[0]);
    var next := Posting.Post(applied, movement).value;
    assert applied == created.(applications := created.applications + NewApplications(c, applies, |created.invoices|));
    assert next == applied.(movements := applied.movements + [movement]);
    assert Legs(p.kind)[1..] == [];
    assert PostLegs(applied, p, PaperRef(c), Legs(p.kind)) == Ok(next);
  }

  lemma OwesNothing(b: Books, c: Books, p: Paper, owed: Decimal, i: Id)
    requires CollectionsKnown(b) && i < |b.invoices| && IsMoney(owed) && Cents(owed) == Remaining(b, i)
    requires !p.cancelled && RecordsOne(b, c, p, [Applied(i, owed)])
    ensures c.invoices[i].total == b.invoices[i].total && Remaining(c, i) == 0
  {
    hide Collected, NewApplications, LatestPayment;
    var applies := [Applied(i, owed)];
    OneAsked(i, owed);
    Allocation.NewlyCollected(b.papers + [p], b.applications, |b.papers|, applies, |b.invoices|, i);
    CollectedKept(b.papers, b.papers + [p], b.applications, [], i);
    assert b.applications + [] == b.applications;
  }

  /** A collection of all an invoice owes pays it, and touches no other. */
  lemma PaysInFull(b: Books, c: Books, p: Paper, owed: Decimal, i: Id)
    requires CollectionsKnown(b) && i < |b.invoices| && IsMoney(owed) && Cents(owed) == Remaining(b, i)
    requires Payable(b.invoices[i].status) && !p.cancelled && RecordsOne(b, c, p, [Applied(i, owed)])
    ensures |c.invoices| == |b.invoices| && Remaining(c, i) == 0 && c.invoices[i].status == Paid
    ensures forall j :: 0 <= j < |b.invoices| && j != i ==> c.invoices[j] == b.invoices[j]
  {
    hide NewApplications, Collected, LatestPayment;
    OneAsked(i, owed);
    OwesNothing(b, c, p, owed, i);
  }

  /** Marked paid, an invoice owes nothing and reads paid, and no other invoice changes. */
  lemma MarkPaidSettles(b: Books, i: Id, paidOn: Day, till: Option<Id>)
    requires CollectionsKnown(b) && MarkPaid(b, i, paidOn, till).Ok?
    ensures var c := MarkPaid(b, i, paidOn, till).value;
            && |c.invoices| == |b.invoices| && i < |b.invoices|
            && Remaining(c, i) == 0 && c.invoices[i].status == Paid
            && forall j :: 0 <= j < |b.invoices| && j != i ==> c.invoices[j] == b.invoices[j]
  {
    hide RecordCollection, Collected, NewApplications, Named, Synced, CollectInvoice;
    var start, account, into, owed := CallShapes.MarkPaidCollects(b, i, paidOn, till);
    CollectionRows(start, account, into, owed, paidOn, [Applied(i, owed)]);
    var c := MarkPaid(b, i, paidOn, till).value;
    var p := Paper(Collection(account, into), Cents(owed), start.accounts[account].currency, paidOn,
                   start.lastCollection + 1, false);
    PaysInFull(start, c, p, owed, i);
  }
}
