/** Generating twice, and what issuing freezes (apps/billing/services.py). */
module DraftingLaws {
  import opened Drafting
  import opened DraftingRuns
  import opened Periods
  import opened Results

  // Generating only adds ----------------------------------------------------------------

  /** Drafts and lines are added after those there were, which stay as they are. */
  ghost predicate Extends(rows: Rows, more: Rows) {
    && |rows.drafts| <= |more.drafts| && more.drafts[..|rows.drafts|] == rows.drafts
    && |rows.lines| <= |more.lines| && more.lines[..|rows.lines|] == rows.lines
    && forall l :: |rows.lines| <= l < |more.lines| ==> more.lines[l].draft >= |rows.drafts|
  }

  lemma ExtendsOnwards(a: Rows, b: Rows, c: Rows)
    requires Extends(a, b) && Extends(b, c)
    ensures Extends(a, c)
  {
    assert c.drafts[..|a.drafts|] == b.drafts[..|a.drafts|];
    assert c.lines[..|a.lines|] == b.lines[..|a.lines|];
    forall l | |a.lines| <= l < |c.lines|
      ensures c.lines[l].draft >= |a.drafts|
    {
      if l < |b.lines| {
        assert c.lines[..|b.lines|][l] == b.lines[l];
      }
    }
  }

  lemma ExtendsMore(rows: Rows, more: Rows)
    requires Extends(rows, more)
    ensures |rows.drafts| <= |more.drafts| && more.drafts[..|rows.drafts|] == rows.drafts
  {
  }

  lemma DraftForExtends(rows: Rows, c: Contract, p: Period, rate: nat, faults: seq<Fault>)
    requires NominalDays(p) > 0
    ensures Extends(rows, DraftFor(rows, c, p, rate, faults))
  {
    hide FeeLines, FaultLines, BillableFaults, EachFaultOnce, PeriodTaken, Money.TotalsOf;
    var fs := BillableFaults(rows.lines, c, p, faults);
    NewLinesPriced(|rows.drafts|, c, p, fs);
    DraftedLines(rows, c, p, rate, faults);
  }

  lemma {:induction false} DraftPeriodsExtends(rows: Rows, c: Contract, ps: seq<Period>, today: int, faults: seq<Fault>)
    requires forall k :: 0 <= k < |ps| ==> NominalDays(ps[k]) > 0
    ensures Extends(rows, DraftPeriods(rows, c, ps, today, faults))
  {
    hide DraftFor, Extends;
    if ps == [] {
      ExtendsItself(rows);
    } else {
      var before, p := DraftPeriods(rows, c, ps[..|ps| - 1], today, faults), ps[|ps| - 1];
      DraftPeriodsExtends(rows, c, ps[..|ps| - 1], today, faults);
      if Due(p, today) && c.rate.Some? {
        DraftForExtends(before, c, p, c.rate.value, faults);
        ExtendsOnwards(rows, before, DraftFor(before, c, p, c.rate.value, faults));
      }
    }
  }

  lemma ExtendsItself(rows: Rows)
    ensures Extends(rows, rows)
  {
  }

  lemma {:induction false} GenerateExtends(rows: Rows, cs: seq<Contract>, today: int, faults: seq<Fault>)
    ensures Extends(rows, Generate(rows, cs, today, faults))
  {
    hide DraftPeriods, Extends, PeriodsFor;
    if cs == [] {
      ExtendsItself(rows);
    } else {
      var before, c := Generate(rows, cs[..|cs| - 1], today, faults), cs[|cs| - 1];
      GenerateExtends(rows, cs[..|cs| - 1], today, faults);
      if Generated(c, today) {
        DraftPeriodsExtends(before, c, PeriodsFor(c), today, faults);
        ExtendsOnwards(rows, before, DraftPeriods(before, c, PeriodsFor(c), today, faults));
      }
    }
  }

  lemma TakenStays(rows: Rows, more: Rows, contract: nat, start: int)
    requires Extends(rows, more) && PeriodTaken(rows.drafts, contract, start)
    ensures PeriodTaken(more.drafts, contract, start)
  {
    var d :| 0 <= d < |rows.drafts| && rows.drafts[d].contract == contract && rows.drafts[d].start == start
        && Live(rows.drafts[d]);
    assert more.drafts[..|rows.drafts|][d] == more.drafts[d];
  }

  lemma BilledStays(rows: Rows, more: Rows, fault: nat)
    requires Extends(rows, more) && FaultBilled(rows.lines, fault)
    ensures FaultBilled(more.lines, fault)
  {
    var l :| 0 <= l < |rows.lines| && HoldsFault(rows.lines[l], fault);
    assert more.lines[..|rows.lines|][l] == more.lines[l];
  }

  // Each due period gets its draft ------------------------------------------------------------

  /** No two faults share a key. */
  ghost predicate DistinctFaults(faults: seq<Fault>) {
    forall i, j :: 0 <= i < j < |faults| ==> faults[i].id != faults[j].id
  }

  /** Billable, closed on a day of the period, and reported on a day the contract covered its lift. */
  predicate IsBillable(f: Fault, c: Contract, p: Period) {
    && f.billable && f.closed.Some? && p.start <= f.closed.value <= p.end
    && exists cover :: cover in c.covers && cover.elevator == f.elevator && cover.added <= f.reported
                       && (cover.removed.Some? ==> f.reported <= cover.removed.value)
  }

  lemma ToBillMeans(f: Fault, c: Contract, p: Period)
    ensures ToBill(f, c, p) == IsBillable(f, c, p)
  {
    if CoveredOn(c.covers, f.elevator, f.reported) {
      var k :| 0 <= k < |c.covers| && c.covers[k].elevator == f.elevator && c.covers[k].added <= f.reported
                && (c.covers[k].removed.Some? ==> f.reported <= c.covers[k].removed.value);
      assert c.covers[k] in c.covers;
    }
  }

  /** No live line bills the fault: one neither removed nor given back by a cancel. */
  predicate IsFree(lines: seq<Line>, fault: nat) {
    forall l :: 0 <= l < |lines| && lines[l].fault == Some(fault) ==> lines[l].released || lines[l].deleted
  }

  /** The chosen faults are exactly the billable ones that no live line bills, each once. */
  lemma BillableExactly(lines: seq<Line>, c: Contract, p: Period, faults: seq<Fault>)
    ensures forall f :: f in BillableFaults(lines, c, p, faults) <==>
              f in faults && IsBillable(f, c, p) && IsFree(lines, f.id)
    ensures DistinctFaults(faults) ==> DistinctFaults(BillableFaults(lines, c, p, faults))
  {
    hide ToBill, IsBillable, BillableFaults, DistinctFaults;
    BillableAre(lines, c, p, faults);
    forall f: Fault
      ensures ToBill(f, c, p) == IsBillable(f, c, p)
      ensures FaultBilled(lines, f.id) == !IsFree(lines, f.id)
    {
      ToBillMeans(f, c, p);
    }
  }

  lemma {:induction false} BillableAre(lines: seq<Line>, c: Contract, p: Period, faults: seq<Fault>)
    ensures forall f :: f in BillableFaults(lines, c, p, faults) <==>
              f in faults && ToBill(f, c, p) && !FaultBilled(lines, f.id)
    ensures DistinctFaults(faults) ==> DistinctFaults(BillableFaults(lines, c, p, faults))
  {
    hide ToBill, FaultBilled;
    if faults != [] {
      var init, last := faults[..|faults| - 1], faults[|faults| - 1];
      BillableAre(lines, c, p, init);
      assert forall f :: f in faults <==> f in init || f == last;
      if DistinctFaults(faults) {
        assert DistinctFaults(init);
        forall f | f in init
          ensures f.id != last.id
        {
          var i :| 0 <= i < |init| && init[i] == f;
          assert faults[i] == f;
        }
      }
    }
  }

  /** The unique key on faults never refuses the generator: it chooses only faults that are free. */
  lemma KeyNeverRefuses(lines: seq<Line>, fees: seq<Line>, d: nat, fs: seq<Fault>)
    requires EachFaultOnce(lines) && DistinctFaults(fs)
    requires forall l :: 0 <= l < |fees| ==> fees[l].fault == None
    requires forall k :: 0 <= k < |fs| ==> !FaultBilled(lines, fs[k].id)
    ensures EachFaultOnce(lines + (fees + FaultLines(d, fs)))
  {
    var all := lines + (fees + FaultLines(d, fs));
    var n, m := |lines|, |lines| + |fees|;
    forall k, l | 0 <= k < l < |all| && all[k].fault.Some? && HoldsFault(all[k], all[k].fault.value)
      ensures !HoldsFault(all[l], all[k].fault.value)
    {
      if l >= m {
        assert all[l] == FaultLine(d, fs[l - m]);
        if k < n {
          assert !FaultBilled(lines, fs[l - m].id);
        } else {
          assert k >= m && all[k] == FaultLine(d, fs[k - m]);
        }
      }
    }
  }

  /** A due period without a live draft gets one, with every fault there is to bill. */
  lemma DraftForMakesIt(rows: Rows, c: Contract, p: Period, rate: nat, faults: seq<Fault>)
    requires NominalDays(p) > 0 && EachFaultOnce(rows.lines) && DistinctFaults(faults)
    ensures PeriodTaken(DraftFor(rows, c, p, rate, faults).drafts, c.id, p.start)
    ensures !PeriodTaken(rows.drafts, c.id, p.start) ==>
              DraftFor(rows, c, p, rate, faults) == Drafted(rows, c, p, rate, faults)
  {
    if !PeriodTaken(rows.drafts, c.id, p.start) {
      var d := |rows.drafts|;
      var fs := BillableFaults(rows.lines, c, p, faults);
      BillableAre(rows.lines, c, p, faults);
      forall k | 0 <= k < |fs|
        ensures !FaultBilled(rows.lines, fs[k].id)
      {
        assert fs[k] in fs;
      }
      KeyNeverRefuses(rows.lines, FeeLines(d, c, p), d, fs);
      DraftedLines(rows, c, p, rate, faults);
      hide FeeLines, FaultLines, BillableFaults, EachFaultOnce, FaultBilled, Money.TotalsOf;
      var drafted := Drafted(rows, c, p, rate, faults);
      assert drafted.drafts[d].contract == c.id && drafted.drafts[d].start == p.start && Live(drafted.drafts[d]);
    }
  }

  lemma DraftedBillsFaults(rows: Rows, c: Contract, p: Period, rate: nat, faults: seq<Fault>, f: Fault)
    requires NominalDays(p) > 0 && f in faults && ToBill(f, c, p)
    ensures FaultBilled(Drafted(rows, c, p, rate, faults).lines, f.id)
  {
    hide FeeLines, BillableFaults, ToBill, Recomputed, DraftingRuns.BillingInv;
    var d := |rows.drafts|;
    var fs := BillableFaults(rows.lines, c, p, faults);
    BillableAre(rows.lines, c, p, faults);
    DraftedLines(rows, c, p, rate, faults);
    var lines := Drafted(rows, c, p, rate, faults).lines;
    if FaultBilled(rows.lines, f.id) {
      var l :| 0 <= l < |rows.lines| && HoldsFault(rows.lines[l], f.id);
      assert lines[l] == rows.lines[l];
    } else {
      var k :| 0 <= k < |fs| && fs[k] == f;
      assert lines[|rows.lines| + |FeeLines(d, c, p)| + k] == FaultLine(d, f);
    }
  }

  /** A contract still billed: active, or expired, renewed or terminated no more than 92 days ago. */
  predicate StillBilled(c: Contract, today: int) {
    match c.status
    case Active => true
    case Expired => today - 92 <= c.end
    case Renewed => today - 92 <= c.end
    case Terminated => c.terminatedAt.Some? && today - 92 <= c.terminatedAt.value
    case Draft => false
  }

  /** Over by yesterday, and no more than 92 days ago. */
  predicate JustEnded(p: Period, today: int) {
    today - 92 <= p.end < today
  }

  lemma DueMeans(c: Contract, p: Period, today: int)
    ensures Generated(c, today) == StillBilled(c, today)
    ensures Due(p, today) == JustEnded(p, today)
  {
  }

  /** The k-th period of the i-th contract has ended, and is to be billed with a rate. */
  ghost predicate IsDue(cs: seq<Contract>, today: int, i: nat, k: nat) {
    && i < |cs| && cs[i].rate.Some? && StillBilled(cs[i], today)
    && k < |PeriodsFor(cs[i])| && JustEnded(PeriodsFor(cs[i])[k], today)
  }

  lemma OnePeriodGetsItsDraft(rows: Rows, c: Contract, p: Period, today: int, faults: seq<Fault>)
    requires BillingInv(rows) && DistinctFaults(faults) && NominalDays(p) > 0
    ensures Extends(rows, DraftPeriod(rows, c, p, today, faults))
    ensures Due(p, today) && c.rate.Some? ==> PeriodTaken(DraftPeriod(rows, c, p, today, faults).drafts, c.id, p.start)
  {
    hide BillingInv, DraftFor, PeriodTaken, EachFaultOnce, Drafted, DistinctFaults, Extends;
    InvParts(rows);
    if Due(p, today) && c.rate.Some? {
      DraftForMakesIt(rows, c, p, c.rate.value, faults);
      DraftForExtends(rows, c, p, c.rate.value, faults);
    } else {
      ExtendsItself(rows);
    }
  }

  lemma {:induction false} PeriodsGetDrafts(
      rows: Rows, c: Contract, ps: seq<Period>, today: int, faults: seq<Fault>, k: nat)
    requires BillingInv(rows) && DistinctFaults(faults) && c.rate.Some?
    requires forall k :: 0 <= k < |ps| ==> NominalDays(ps[k]) > 0
    requires k < |ps| && Due(ps[k], today)
    ensures PeriodTaken(DraftPeriods(rows, c, ps, today, faults).drafts, c.id, ps[k].start)
  {
    hide BillingInv, DraftPeriod, PeriodTaken, DistinctFaults, Extends;
    var n := |ps| - 1;
    var before := DraftPeriods(rows, c, ps[..n], today, faults);
    DraftPeriodsKeep(rows, c, ps[..n], today, faults);
    OnePeriodGetsItsDraft(before, c, ps[n], today, faults);
    if k < n {
      PeriodsGetDrafts(rows, c, ps[..n], today, faults, k);
      TakenStays(before, DraftPeriods(rows, c, ps, today, faults), c.id, ps[k].start);
    }
  }

  /** After a run of the generator every due period has its live draft. */
  lemma {:induction false} DuePeriodsAreDrafted(rows: Rows, cs: seq<Contract>, today: int, faults: seq<Fault>,
      i: nat, k: nat)
    requires BillingInv(rows) && DistinctFaults(faults) && IsDue(cs, today, i, k)
    ensures PeriodTaken(Generate(rows, cs, today, faults).drafts, cs[i].id, PeriodsFor(cs[i])[k].start)
  {
    hide BillingInv, PeriodTaken, PeriodsFor, DraftPeriods;
    var n := |cs| - 1;
    var before, after := Generate(rows, cs[..n], today, faults), Generate(rows, cs, today, faults);
    GenerateKeeps(rows, cs[..n], today, faults);
    if i == n {
      PeriodsGetDrafts(before, cs[n], PeriodsFor(cs[n]), today, faults, k);
    } else {
      DuePeriodsAreDrafted(rows, cs[..n], today, faults, i, k);
      if Generated(cs[n], today) {
        DraftPeriodsExtends(before, cs[n], PeriodsFor(cs[n]), today, faults);
      } else {
        ExtendsItself(before);
      }
      TakenStays(before, after, cs[i].id, PeriodsFor(cs[i])[k].start);
    }
  }

  // And nothing else is drafted ------------------------------------------------------------------

  /** The draft of this period of this contract. */
  predicate IsDraftOf(draft: Invoice, c: Contract, p: Period) {
    draft.contract == c.id && draft.start == p.start && draft.end == p.end && Some(draft.rate) == c.rate
  }

  lemma DraftForAdds(rows: Rows, c: Contract, p: Period, rate: nat, faults: seq<Fault>)
    requires NominalDays(p) > 0 && c.rate == Some(rate)
    ensures forall d :: |rows.drafts| <= d < |DraftFor(rows, c, p, rate, faults).drafts| ==>
              IsDraftOf(DraftFor(rows, c, p, rate, faults).drafts[d], c, p)
  {
    hide FeeLines, FaultLines, BillableFaults, EachFaultOnce, PeriodTaken, Money.TotalsOf, AmountsOf;
  }

  ghost predicate FromEnded(draft: Invoice, c: Contract, ps: seq<Period>, today: int) {
    exists k :: 0 <= k < |ps| && JustEnded(ps[k], today) && IsDraftOf(draft, c, ps[k])
  }

  lemma {:induction false} DraftPeriodsAdd(
      rows: Rows, c: Contract, ps: seq<Period>, today: int, faults: seq<Fault>, d: nat)
    requires forall k :: 0 <= k < |ps| ==> NominalDays(ps[k]) > 0
    requires |rows.drafts| <= d < |DraftPeriods(rows, c, ps, today, faults).drafts|
    ensures c.rate.Some? && FromEnded(DraftPeriods(rows, c, ps, today, faults).drafts[d], c, ps, today)
  {
    hide DraftFor, IsDraftOf, Extends;
    if ps != [] {
      var n := |ps| - 1;
      var before := DraftPeriods(rows, c, ps[..n], today, faults);
      DueMeans(c, ps[n], today);
      if Due(ps[n], today) && c.rate.Some? {
        DraftForAdds(before, c, ps[n], c.rate.value, faults);
        DraftForExtends(before, c, ps[n], c.rate.value, faults);
        ExtendsMore(before, DraftFor(before, c, ps[n], c.rate.value, faults));
      }
      if d < |before.drafts| {
        DraftPeriodsAdd(rows, c, ps[..n], today, faults, d);
        var k :| 0 <= k < n && JustEnded(ps[..n][k], today) && IsDraftOf(before.drafts[d], c, ps[..n][k]);
        assert ps[k] == ps[..n][k];
        assert DraftPeriods(rows, c, ps, today, faults).drafts[..|before.drafts|][d] == before.drafts[d];
      }
    }
  }

  ghost predicate FromDue(draft: Invoice, cs: seq<Contract>, today: int) {
    exists i: nat, k: nat :: IsDue(cs, today, i, k) && IsDraftOf(draft, cs[i], PeriodsFor(cs[i])[k])
  }

  lemma LastIsDue(draft: Invoice, cs: seq<Contract>, today: int)
    requires cs != []
    requires var c := cs[|cs| - 1];
             Generated(c, today) && c.rate.Some? && FromEnded(draft, c, PeriodsFor(c), today)
    ensures FromDue(draft, cs, today)
  {
    hide PeriodsFor, JustEnded;
    var n := |cs| - 1;
    var ps := PeriodsFor(cs[n]);
    var k :| 0 <= k < |ps| && JustEnded(ps[k], today) && IsDraftOf(draft, cs[n], ps[k]);
    DueMeans(cs[n], ps[k], today);
    assert IsDue(cs, today, n, k);
  }

  lemma EarlierIsDue(draft: Invoice, cs: seq<Contract>, today: int)
    requires cs != [] && FromDue(draft, cs[..|cs| - 1], today)
    ensures FromDue(draft, cs, today)
  {
    hide PeriodsFor, JustEnded, StillBilled;
    var init := cs[..|cs| - 1];
    var i: nat, k: nat :| IsDue(init, today, i, k) && IsDraftOf(draft, init[i], PeriodsFor(init[i])[k]);
    assert IsDue(cs, today, i, k);
  }

  /** Every draft a run adds is that of a due period of a contract still billed, at the contract's rate. */
  lemma {:induction false} OnlyDueAreDrafted(rows: Rows, cs: seq<Contract>, today: int, faults: seq<Fault>, d: nat)
    requires |rows.drafts| <= d < |Generate(rows, cs, today, faults).drafts|
    ensures FromDue(Generate(rows, cs, today, faults).drafts[d], cs, today)
  {
    hide DraftPeriods, PeriodsFor, FromDue, FromEnded, Extends;
    if cs != [] {
      var n := |cs| - 1;
      var before := Generate(rows, cs[..n], today, faults);
      var after := Generate(rows, cs, today, faults);
      if Generated(cs[n], today) {
        DraftPeriodsExtends(before, cs[n], PeriodsFor(cs[n]), today, faults);
        ExtendsMore(before, after);
      }
      if d < |before.drafts| {
        OnlyDueAreDrafted(rows, cs[..n], today, faults, d);
        assert after.drafts[..|before.drafts|][d] == before.drafts[d];
        EarlierIsDue(before.drafts[d], cs, today);
      } else {
        DraftPeriodsAdd(before, cs[n], PeriodsFor(cs[n]), today, faults, d);
        LastIsDue(after.drafts[d], cs, today);
      }
    }
  }

  // Twice is once --------------------------------------------------------------------------------

  ghost predicate AllTaken(rows: Rows, c: Contract, ps: seq<Period>, today: int) {
    forall k :: 0 <= k < |ps| && Due(ps[k], today) && c.rate.Some? ==> PeriodTaken(rows.drafts, c.id, ps[k].start)
  }

  lemma {:induction false} NothingToDraft(rows: Rows, c: Contract, ps: seq<Period>, today: int, faults: seq<Fault>)
    requires forall k :: 0 <= k < |ps| ==> NominalDays(ps[k]) > 0
    requires AllTaken(rows, c, ps, today)
    ensures DraftPeriods(rows, c, ps, today, faults) == rows
  {
    hide PeriodTaken;
    if ps != [] {
      NothingToDraft(rows, c, ps[..|ps| - 1], today, faults);
    }
  }

  ghost predicate EveryDueTaken(rows: Rows, cs: seq<Contract>, today: int) {
    forall i: nat, k: nat :: IsDue(cs, today, i, k) ==> PeriodTaken(rows.drafts, cs[i].id, PeriodsFor(cs[i])[k].start)
  }

  lemma {:induction false} NothingToGenerate(rows: Rows, cs: seq<Contract>, today: int, faults: seq<Fault>)
    requires EveryDueTaken(rows, cs, today)
    ensures Generate(rows, cs, today, faults) == rows
  {
    hide PeriodTaken, DraftPeriods, PeriodsFor;
    if cs != [] {
      var n := |cs| - 1;
      forall i: nat, k: nat | IsDue(cs[..n], today, i, k)
        ensures PeriodTaken(rows.drafts, cs[..n][i].id, PeriodsFor(cs[..n][i])[k].start)
      {
        assert IsDue(cs, today, i, k);
      }
      NothingToGenerate(rows, cs[..n], today, faults);
      if Generated(cs[n], today) {
        LastAllTaken(rows, cs, today);
        NothingToDraft(rows, cs[n], PeriodsFor(cs[n]), today, faults);
      }
    }
  }

  lemma LastAllTaken(rows: Rows, cs: seq<Contract>, today: int)
    requires cs != [] && EveryDueTaken(rows, cs, today) && Generated(cs[|cs| - 1], today)
    ensures AllTaken(rows, cs[|cs| - 1], PeriodsFor(cs[|cs| - 1]), today)
  {
    hide PeriodTaken, PeriodsFor, Due, Generated;
    var n := |cs| - 1;
    forall k | 0 <= k < |PeriodsFor(cs[n])| && Due(PeriodsFor(cs[n])[k], today) && cs[n].rate.Some?
      ensures PeriodTaken(rows.drafts, cs[n].id, PeriodsFor(cs[n])[k].start)
    {
      DueMeans(cs[n], PeriodsFor(cs[n])[k], today);
      assert IsDue(cs, today, n, k);
    }
  }

  /** Running the generator again on the same day writes nothing. */
  lemma GenerateTwice(rows: Rows, cs: seq<Contract>, today: int, faults: seq<Fault>)
    requires BillingInv(rows) && DistinctFaults(faults)
    ensures Generate(Generate(rows, cs, today, faults), cs, today, faults) == Generate(rows, cs, today, faults)
  {
    hide Generate, PeriodTaken, PeriodsFor, BillingInv;
    var once := Generate(rows, cs, today, faults);
    forall i: nat, k: nat | IsDue(cs, today, i, k)
      ensures PeriodTaken(once.drafts, cs[i].id, PeriodsFor(cs[i])[k].start)
    {
      DuePeriodsAreDrafted(rows, cs, today, faults, i, k);
    }
    NothingToGenerate(once, cs, today, faults);
  }

  // Frozen from issue on -----------------------------------------------------------------------------

  /** The draft is as it was but for its status, and its lines but for being released. */
  ghost predicate Frozen(rows: Rows, after: Rows, d: nat)
    requires d < |rows.drafts|
  {
    && |rows.drafts| <= |after.drafts| && after.drafts[d] == rows.drafts[d].(status := after.drafts[d].status)
    && after.drafts[d].status != InDraft
    && |rows.lines| <= |after.lines|
    && (forall l :: 0 <= l < |rows.lines| ==> (after.lines[l].draft == d <==> rows.lines[l].draft == d))
    && (forall l :: 0 <= l < |rows.lines| && rows.lines[l].draft == d ==>
          after.lines[l] == rows.lines[l].(released := after.lines[l].released))
    && forall l :: |rows.lines| <= l < |after.lines| ==> after.lines[l].draft != d
  }

  lemma CallFreezes(rows: Rows, call: Call, d: nat)
    requires d < |rows.drafts| && rows.drafts[d].status != InDraft
    ensures Frozen(rows, After(rows, call), d)
  {
    hide Money.TotalsOf, AmountsOf, AmountOf;
    if call.CallGenerate? {
      var after := Generate(rows, call.contracts, call.today, call.faults);
      GenerateExtends(rows, call.contracts, call.today, call.faults);
      hide Generate;
      assert after.drafts[..|rows.drafts|][d] == after.drafts[d];
      forall l | 0 <= l < |rows.lines|
        ensures after.lines[l] == rows.lines[l]
      {
        assert after.lines[..|rows.lines|][l] == after.lines[l];
      }
    }
  }

  /** Once issued or cancelled, a draft's period, rate, totals, number and lines never change again, whatever is
      called; only its status does, and its faults may be released. */
  lemma {:induction false} RunFreezes(rows: Rows, calls: seq<Call>, d: nat)
    requires d < |rows.drafts| && rows.drafts[d].status != InDraft
    ensures Frozen(rows, Run(rows, calls), d)
  {
    hide After;
    if calls != [] {
      RunFreezes(rows, calls[..|calls| - 1], d);
      CallFreezes(Run(rows, calls[..|calls| - 1]), calls[|calls| - 1], d);
    }
  }
}
