/** Billing and the ledger together: one invoice, its lines on the one side and its movements on the other
    (apps/billing/services.py, apps/ledger/services.py). */
module BillingLedger {
  import Allocation
  import opened Books
  import Drafting
  import DraftingLaws
  import DraftingRuns
  import Effects
  import opened InvoiceFrames
  import opened LedgerRuns
  import Money
  import Periods
  import opened Posting
  import opened Results
  import opened Services
  import Sums

  /** The drafts with their lines, and the books, where the same invoices have the same keys. */
  datatype Firm = Firm(rows: Drafting.Rows, books: Books)

  function StatusOf(s: Drafting.Status): InvoiceStatus {
    match s
    case InDraft => Draft
    case Issued => Issued
    case Paid => Paid
    case Cancelled => Cancelled
  }

  /** Both say the same of an invoice. */
  predicate SameInvoice(x: Drafting.Invoice, y: Invoice) {
    y.status == StatusOf(x.status) && y.total == x.totals.total && y.number == x.number
  }

  predicate Coupled(drafts: seq<Drafting.Invoice>, invoices: seq<Invoice>) {
    |drafts| == |invoices| && forall d :: 0 <= d < |drafts| ==> SameInvoice(drafts[d], invoices[d])
  }

  ghost predicate FirmInv(f: Firm) {
    DraftingRuns.BillingInv(f.rows) && LedgerInv(f.books) && Coupled(f.rows.drafts, f.books.invoices)
  }

  // Generating --------------------------------------------------------------------------

  /** A contract's customer, and the currency it is billed in. */
  type Parties = nat -> (Id, Currency)

  /** The ledger's rows of the first n drafts: the new ones among them drafted there too. */
  function DraftAll(b: Books, drafts: seq<Drafting.Invoice>, parties: Parties, n: nat): Books
    requires n <= |drafts|
  {
    if n <= |b.invoices| then b
    else
      var party := parties(drafts[n - 1].contract);
      DraftInvoice(DraftAll(b, drafts, parties, n - 1), party.0, party.1, drafts[n - 1].totals.total)
  }

  function GenerateDrafts(f: Firm, cs: seq<Drafting.Contract>, faults: seq<Drafting.Fault>, parties: Parties): Firm {
    var rows := Drafting.Generate(f.rows, cs, f.books.today, faults);
    Firm(rows, DraftAll(f.books, rows.drafts, parties, |rows.drafts|))
  }

  predicate AreNew(drafts: seq<Drafting.Invoice>, n: nat) {
    forall d :: n <= d < |drafts| ==> drafts[d].status == Drafting.InDraft && drafts[d].number.None?
  }

  lemma {:induction false} DraftAllKeeps(b: Books, drafts: seq<Drafting.Invoice>, parties: Parties, n: nat)
    requires LedgerInv(b) && |b.invoices| <= n <= |drafts|
    requires AreNew(drafts, |b.invoices|)
    requires Coupled(drafts[..|b.invoices|], b.invoices)
    ensures var c := DraftAll(b, drafts, parties, n);
            LedgerInv(c) && Coupled(drafts[..n], c.invoices) && c == b.(invoices := c.invoices)
  {
    hide LedgerInv;
    if n > |b.invoices| {
      var before := DraftAll(b, drafts, parties, n - 1);
      var party := parties(drafts[n - 1].contract);
      DraftAllKeeps(b, drafts, parties, n - 1);
      CallKeeps(before, CallDraftInvoice(party.0, party.1, drafts[n - 1].totals.total));
      assert drafts[..n] == drafts[..n - 1] + [drafts[n - 1]];
    }
  }

  /** Each draft generated is the ledger's draft of its contract's customer, in the contract's currency, for its total. */
  lemma {:induction false} DraftedForTheirParties(b: Books, drafts: seq<Drafting.Invoice>, parties: Parties, n: nat, d: nat)
    requires |b.invoices| <= d < n <= |drafts|
    ensures var c := DraftAll(b, drafts, parties, n);
            && |c.invoices| == n && c == b.(invoices := c.invoices) && b.invoices <= c.invoices
            && c.invoices[d] == Invoice(parties(drafts[d].contract).0, parties(drafts[d].contract).1, Draft,
                                        drafts[d].totals.total, None, None, None)
  {
    if d < n - 1 {
      DraftedForTheirParties(b, drafts, parties, n - 1, d);
    } else {
      AllDrafted(b, drafts, parties, n - 1);
    }
  }

  lemma {:induction false} AllDrafted(b: Books, drafts: seq<Drafting.Invoice>, parties: Parties, n: nat)
    requires |b.invoices| <= n <= |drafts|
    ensures var c := DraftAll(b, drafts, parties, n);
            |c.invoices| == n && c == b.(invoices := c.invoices) && b.invoices <= c.invoices
  {
    if n > |b.invoices| {
      AllDrafted(b, drafts, parties, n - 1);
    }
  }

  lemma DraftForIsNew(rows: Drafting.Rows, c: Drafting.Contract, p: Periods.Period, rate: nat, faults: seq<Drafting.Fault>)
    requires Periods.NominalDays(p) > 0
    ensures AreNew(Drafting.DraftFor(rows, c, p, rate, faults).drafts, |rows.drafts|)
  {
    hide Drafting.FeeLines, Drafting.FaultLines, Drafting.BillableFaults, Drafting.EachFaultOnce, Money.TotalsOf,
         Drafting.PeriodTaken;
  }

  lemma StillNew(rows: Drafting.Rows, more: Drafting.Rows, n: nat)
    requires DraftingLaws.Extends(rows, more) && n <= |rows.drafts|
    requires AreNew(rows.drafts, n) && AreNew(more.drafts, |rows.drafts|)
    ensures AreNew(more.drafts, n)
  {
    forall d | n <= d < |rows.drafts|
      ensures more.drafts[d] == rows.drafts[d]
    {
      assert more.drafts[..|rows.drafts|][d] == more.drafts[d];
    }
  }

  lemma {:induction false} DraftPeriodsAreNew(rows: Drafting.Rows, c: Drafting.Contract, ps: seq<Periods.Period>, today: int,
                                              faults: seq<Drafting.Fault>)
    requires forall k :: 0 <= k < |ps| ==> Periods.NominalDays(ps[k]) > 0
    ensures AreNew(Drafting.DraftPeriods(rows, c, ps, today, faults).drafts, |rows.drafts|)
  {
    hide Drafting.DraftFor, DraftingLaws.Extends, AreNew;
    if ps == [] {
      NoneIsNew(rows);
    } else {
      var n := |ps| - 1;
      var before := Drafting.DraftPeriods(rows, c, ps[..n], today, faults);
      DraftPeriodsAreNew(rows, c, ps[..n], today, faults);
      if Drafting.Due(ps[n], today) && c.rate.Some? {
        DraftingLaws.DraftPeriodsExtends(rows, c, ps[..n], today, faults);
        DraftingLaws.ExtendsMore(rows, before);
        DraftForIsNew(before, c, ps[n], c.rate.value, faults);
        DraftingLaws.DraftForExtends(before, c, ps[n], c.rate.value, faults);
        StillNew(before, Drafting.DraftFor(before, c, ps[n], c.rate.value, faults), |rows.drafts|);
      }
    }
  }

  lemma NoneIsNew(rows: Drafting.Rows)
    ensures AreNew(rows.drafts, |rows.drafts|)
  {
  }

  lemma {:induction false} GeneratedAreNew(rows: Drafting.Rows, cs: seq<Drafting.Contract>, today: int,
                                           faults: seq<Drafting.Fault>)
    ensures AreNew(Drafting.Generate(rows, cs, today, faults).drafts, |rows.drafts|)
  {
    hide Drafting.DraftPeriods, Drafting.PeriodsFor, DraftingLaws.Extends, AreNew;
    if cs == [] {
      NoneIsNew(rows);
    } else {
      var n := |cs| - 1;
      var before := Drafting.Generate(rows, cs[..n], today, faults);
      GeneratedAreNew(rows, cs[..n], today, faults);
      if Drafting.Generated(cs[n], today) {
        var ps := Drafting.PeriodsFor(cs[n]);
        DraftingLaws.GenerateExtends(rows, cs[..n], today, faults);
        DraftingLaws.ExtendsMore(rows, before);
        DraftPeriodsAreNew(before, cs[n], ps, today, faults);
        DraftingLaws.DraftPeriodsExtends(before, cs[n], ps, today, faults);
        StillNew(before, Drafting.DraftPeriods(before, cs[n], ps, today, faults), |rows.drafts|);
      }
    }
  }

  lemma GenerateKeepsFirm(f: Firm, cs: seq<Drafting.Contract>, faults: seq<Drafting.Fault>, parties: Parties)
    requires FirmInv(f)
    ensures FirmInv(GenerateDrafts(f, cs, faults, parties))
  {
    hide DraftingRuns.BillingInv, LedgerInv, Drafting.Generate, DraftAll, Coupled;
    var rows := Drafting.Generate(f.rows, cs, f.books.today, faults);
    DraftingRuns.GenerateKeeps(f.rows, cs, f.books.today, faults);
    GeneratedAreNew(f.rows, cs, f.books.today, faults);
    DraftingLaws.GenerateExtends(f.rows, cs, f.books.today, faults);
    DraftingLaws.ExtendsMore(f.rows, rows);
    CoupledLengths(f.rows.drafts, f.books.invoices);
    DraftAllKeeps(f.books, rows.drafts, parties, |rows.drafts|);
    assert rows.drafts[..|rows.drafts|] == rows.drafts;
  }

  lemma CoupledLengths(drafts: seq<Drafting.Invoice>, invoices: seq<Invoice>)
    requires Coupled(drafts, invoices)
    ensures |drafts| == |invoices|
  {
  }

  // Editing -----------------------------------------------------------------------------------

  predicate Edits(call: Drafting.Call) {
    call.CallAddLine? || call.CallEditLine? || call.CallRemoveLine?
  }

  /** The draft an accepted edit works on. */
  function EditedDraft(rows: Drafting.Rows, call: Drafting.Call): nat
    requires Edits(call) && Drafting.Perform(rows, call).Ok?
  {
    match call
    case CallAddLine(d, _, _) => d
    case CallEditLine(l, _, _) => rows.lines[l].draft
    case CallRemoveLine(l) => rows.lines[l].draft
  }

  /** An edit of a draft's lines, and its total in the ledger's rows set again. */
  function Edit(f: Firm, call: Drafting.Call): Firm
    requires Edits(call)
  {
    var edited := Drafting.Perform(f.rows, call);
    if edited.Refused? then f
    else
      var d := EditedDraft(f.rows, call);
      Firm(edited.value,
           if d < |edited.value.drafts| then Services.After(f.books, CallRetotal(d, edited.value.drafts[d].totals.total))
           else f.books)
  }

  lemma EditTouches(rows: Drafting.Rows, call: Drafting.Call)
    requires Edits(call) && Drafting.Perform(rows, call).Ok?
    ensures var d, after := EditedDraft(rows, call), Drafting.Perform(rows, call).value;
            && d < |rows.drafts| && rows.drafts[d].status == Drafting.InDraft
            && |after.drafts| == |rows.drafts|
            && (forall e :: 0 <= e < |rows.drafts| && e != d ==> after.drafts[e] == rows.drafts[e])
            && after.drafts[d] == rows.drafts[d].(totals := after.drafts[d].totals)
  {
    hide Money.TotalsOf, Drafting.AmountsOf, Drafting.AmountOf;
  }

  lemma EditKeepsFirm(f: Firm, call: Drafting.Call)
    requires FirmInv(f) && Edits(call)
    ensures FirmInv(Edit(f, call))
  {
    hide DraftingRuns.BillingInv, LedgerInv, Drafting.Perform;
    DraftingRuns.CallKeepsBilling(f.rows, call);
    if Drafting.Perform(f.rows, call).Ok? {
      EditTouches(f.rows, call);
      var d, after := EditedDraft(f.rows, call), Drafting.Perform(f.rows, call).value;
      CallKeeps(f.books, CallRetotal(d, after.drafts[d].totals.total));
    }
  }

  // Issuing -------------------------------------------------------------------------------------

  /** `issue`: the checks and the new status, and the posting that must go with it. */
  function IssueBoth(f: Firm, d: nat, number: nat, date: Day): (Outcome, Result<Drafting.Rows, Drafting.Refusal>) {
    var ledger := Services.Issue(f.books, d, number, date, Drafting.WaitsForPrice(f.rows.lines, d));
    (ledger, Drafting.Issue(f.rows, d, number, ledger.Ok?))
  }

  /** The two halves number alike. */
  lemma SameNumbers(drafts: seq<Drafting.Invoice>, invoices: seq<Invoice>, d: nat, number: nat)
    requires Coupled(drafts, invoices)
    ensures Drafting.NumberTaken(drafts, number, d) == NumberTaken(invoices, d, number)
  {
    forall k | 0 <= k < |drafts|
      ensures Payable(invoices[k].status) == (drafts[k].status in {Drafting.Issued, Drafting.Paid})
      ensures drafts[k].number == invoices[k].number
    {
      assert SameInvoice(drafts[k], invoices[k]);
    }
  }

  /** What the ledger does with an issued invoice: the number and date it was given, and paid if it asks nothing. */
  lemma IssuedInvoice(b: Books, d: nat, number: nat, date: Day, unpriced: bool)
    requires LedgerInv(b) && Services.Issue(b, d, number, date, unpriced).Ok?
    ensures var c := Services.Issue(b, d, number, date, unpriced).value;
            && d < |b.invoices| == |c.invoices|
            && (forall e :: 0 <= e < |b.invoices| && e != d ==> c.invoices[e] == b.invoices[e])
            && c.invoices[d].total == b.invoices[d].total && c.invoices[d].number == Some(number)
            && c.invoices[d].status == (if b.invoices[d].total == 0 then Paid else Issued)
            && b.invoices[d].total >= 0
  {
    hide Collected, FindAccount, BeforeAnOpening, KeyTaken, CheckDate, LatestPayment, LedgerInv;
    NothingPaid(b, d);
    PostedAsDraft(b, d);
  }

  lemma NothingPaid(b: Books, d: nat)
    requires LedgerInv(b) && d < |b.invoices| && b.invoices[d].status == Draft
    ensures Collected(b.papers, b.applications, d) == 0
  {
    Allocation.OnlyLiveCollected(b, d);
  }

  lemma PostedAsDraft(b: Books, d: nat)
    requires LedgerInv(b) && d < |b.invoices| && b.invoices[d].status == Draft
    ensures !KeyTaken(b.movements, InvoiceSource, InvoiceRef(d))
  {
    assert Effects.PostedAsLive(b, d);
  }

  /** Neither half issues what the other refuses. */
  lemma BothIssue(f: Firm, d: nat, number: nat, date: Day)
    requires FirmInv(f)
    ensures var (ledger, billing) := IssueBoth(f, d, number, date);
            ledger.Ok? <==> billing.Ok?
  {
    hide LedgerInv, DraftingRuns.BillingInv, Drafting.WaitsForPrice, PostInvoice, NumberTaken, Drafting.NumberTaken,
         Drafting.Recomputed;
    SameNumbers(f.rows.drafts, f.books.invoices, d, number);
    if d < |f.rows.drafts| {
      RecomputesToItself(f.rows, d);
      assert SameInvoice(f.rows.drafts[d], f.books.invoices[d]);
      if f.books.invoices[d].status == Draft {
        IssueTotal(f.books, d, number, date);
      }
    }
    if Services.Issue(f.books, d, number, date, Drafting.WaitsForPrice(f.rows.lines, d)).Ok? {
      IssuedInvoice(f.books, d, number, date, Drafting.WaitsForPrice(f.rows.lines, d));
    }
  }

  lemma IssuedCoupled(f: Firm, d: nat, number: nat, date: Day)
    requires FirmInv(f) && IssueBoth(f, d, number, date).0.Ok? && IssueBoth(f, d, number, date).1.Ok?
    ensures Coupled(IssueBoth(f, d, number, date).1.value.drafts, IssueBoth(f, d, number, date).0.value.invoices)
  {
    hide LedgerInv, DraftingRuns.BillingInv, Drafting.WaitsForPrice, Services.Issue, Drafting.NumberTaken,
         Drafting.Recomputed;
    RecomputesToItself(f.rows, d);
    IssuedInvoice(f.books, d, number, date, Drafting.WaitsForPrice(f.rows.lines, d));
    assert SameInvoice(f.rows.drafts[d], f.books.invoices[d]);
  }

  /** The two halves agree: billing issues exactly when the ledger takes the posting, and they say the same after. */
  lemma IssueAgrees(f: Firm, d: nat, number: nat, date: Day)
    requires FirmInv(f)
    ensures var (ledger, billing) := IssueBoth(f, d, number, date);
            && (ledger.Ok? <==> billing.Ok?)
            && (ledger.Ok? ==> FirmInv(Firm(billing.value, ledger.value)))
  {
    hide LedgerInv, DraftingRuns.BillingInv, Services.Issue, Drafting.Issue, Coupled;
    BothIssue(f, d, number, date);
    if IssueBoth(f, d, number, date).0.Ok? {
      IssuedCoupled(f, d, number, date);
      IssueKeeps(f.books, d, number, date, Drafting.WaitsForPrice(f.rows.lines, d));
      DraftingRuns.IssueKeeps(f.rows, d, number, true);
    }
  }

  lemma RecomputesToItself(rows: Drafting.Rows, d: nat)
    requires DraftingRuns.BillingInv(rows) && d < |rows.drafts|
    ensures Drafting.Recomputed(rows, d) == rows
  {
    DraftingRuns.RecomputeAgain(rows, d);
  }

  /** A posting of nothing is never refused. */
  lemma IssueTotal(b: Books, d: nat, number: nat, date: Day)
    requires d < |b.invoices|
    ensures var issued := b.invoices[d].(status := Issued, number := Some(number), date := Some(date));
            b.invoices[d].total == 0 ==> PostInvoice(b.(invoices := b.invoices[d := issued]), d, None).Ok?
  {
  }

  // Cancelling ------------------------------------------------------------------------------------

  /** `cancel`: the movements mirrored on the one side, the faults released on the other. */
  function CancelBoth(f: Firm, d: nat): (Outcome, Result<Drafting.Rows, Drafting.Refusal>) {
    var ledger := CancelInvoice(f.books, d);
    (ledger, Drafting.Cancel(f.rows, d, ledger.Ok?))
  }

  lemma CancelAgrees(f: Firm, d: nat)
    requires FirmInv(f)
    ensures var (ledger, billing) := CancelBoth(f, d);
            && (ledger.Ok? <==> billing.Ok?)
            && (ledger.Ok? ==> FirmInv(Firm(billing.value, ledger.value)))
  {
    hide LedgerInv, DraftingRuns.BillingInv, ReverseInvoice, Drafting.Released;
    var (ledger, billing) := CancelBoth(f, d);
    if d < |f.rows.drafts| {
      assert SameInvoice(f.rows.drafts[d], f.books.invoices[d]);
    }
    if ledger.Ok? {
      CancelInvoiceKeeps(f.books, d);
      DraftingRuns.CancelKeeps(f.rows, d, true);
    }
  }

  // The ledger's own calls -----------------------------------------------------------------------

  /** The drafts read paid or issued as the ledger does. */
  function Mirrored(rows: Drafting.Rows, invoices: seq<Invoice>, n: nat): Drafting.Rows
    requires n <= |invoices|
  {
    if n == 0 then rows
    else Drafting.After(Mirrored(rows, invoices, n - 1), Drafting.CallSync(n - 1, invoices[n - 1].status == Paid))
  }

  /** The first n drafts say what the ledger says, the others what they said. */
  predicate MirroredUpTo(rows: Drafting.Rows, after: Drafting.Rows, invoices: seq<Invoice>, n: nat) {
    && |after.drafts| == |rows.drafts| == |invoices| && after.lines == rows.lines
    && (forall d :: 0 <= d < |invoices| && d < n ==> SameInvoice(after.drafts[d], invoices[d]))
    && forall d :: 0 <= d < |invoices| && n <= d ==> after.drafts[d] == rows.drafts[d]
  }

  lemma NextMirrored(rows: Drafting.Rows, after: Drafting.Rows, before: seq<Invoice>, invoices: seq<Invoice>, d: nat)
    requires Coupled(rows.drafts, before) && OnlyStatuses(before, invoices) && d < |invoices|
    requires MirroredUpTo(rows, after, invoices, d)
    ensures MirroredUpTo(rows, Drafting.After(after, Drafting.CallSync(d, invoices[d].status == Paid)), invoices, d + 1)
  {
    hide Drafting.Generate, Drafting.AddLine, Drafting.EditLine, Drafting.RemoveLine, Drafting.Issue, Drafting.Cancel;
    assert SameInvoice(rows.drafts[d], before[d]);
  }

  lemma {:induction false} MirroredAgrees(rows: Drafting.Rows, before: seq<Invoice>, invoices: seq<Invoice>, n: nat)
    requires DraftingRuns.BillingInv(rows) && Coupled(rows.drafts, before) && OnlyStatuses(before, invoices)
    requires n <= |invoices|
    ensures DraftingRuns.BillingInv(Mirrored(rows, invoices, n))
    ensures MirroredUpTo(rows, Mirrored(rows, invoices, n), invoices, n)
  {
    hide DraftingRuns.BillingInv, Drafting.After;
    if n > 0 {
      hide MirroredUpTo;
      MirroredAgrees(rows, before, invoices, n - 1);
      NextMirrored(rows, Mirrored(rows, invoices, n - 1), before, invoices, n - 1);
      DraftingRuns.CallKeepsBilling(Mirrored(rows, invoices, n - 1),
                                    Drafting.CallSync(n - 1, invoices[n - 1].status == Paid));
    }
  }

  function LedgerCall(f: Firm, call: Call): Firm {
    var books := Services.After(f.books, call);
    Firm(Mirrored(f.rows, books.invoices, |books.invoices|), books)
  }

  lemma LedgerCallKeepsFirm(f: Firm, call: Call)
    requires FirmInv(f) && OfTheLedger(call)
    ensures FirmInv(LedgerCall(f, call))
  {
    hide DraftingRuns.BillingInv, LedgerInv, Services.After, Mirrored, OnlyStatuses;
    var books := Services.After(f.books, call);
    CallKeeps(f.books, call);
    LedgerOnlyStatuses(f.books, call);
    MirroredAgrees(f.rows, f.books.invoices, books.invoices, |books.invoices|);
  }

  // Every run -------------------------------------------------------------------------------------

  datatype FirmCall =
    | Generate(contracts: seq<Drafting.Contract>, faults: seq<Drafting.Fault>, parties: Parties)
    | EditLines(edit: Drafting.Call)
    | IssueInvoice(d: nat, number: nat, date: Day)
    | Cancel(cancelled: nat)
    | Ledger(call: Call)

  predicate WellFormed(call: FirmCall) {
    (call.EditLines? ==> Edits(call.edit)) && (call.Ledger? ==> OfTheLedger(call.call))
  }

  /** A call of either half, with what it does to the other; a refusal of one is a refusal of both. */
  function Step(f: Firm, call: FirmCall): Firm
    requires WellFormed(call)
  {
    match call
    case Generate(cs, faults, parties) => GenerateDrafts(f, cs, faults, parties)
    case EditLines(edit) => Edit(f, edit)
    case IssueInvoice(d, number, date) =>
      var (ledger, billing) := IssueBoth(f, d, number, date);
      if ledger.Ok? && billing.Ok? then Firm(billing.value, ledger.value) else f
    case Cancel(d) =>
      var (ledger, billing) := CancelBoth(f, d);
      if ledger.Ok? && billing.Ok? then Firm(billing.value, ledger.value) else f
    case Ledger(c) => LedgerCall(f, c)
  }

  function RunFirm(f: Firm, calls: seq<FirmCall>): Firm
    requires forall k :: 0 <= k < |calls| ==> WellFormed(calls[k])
  {
    if calls == [] then f else Step(RunFirm(f, calls[..|calls| - 1]), calls[|calls| - 1])
  }

  

  /** Whatever is called of either half, both keep their invariants and go on saying the same of every invoice. */
  lemma {:induction false} RunKeepsFirm(today: Day, calls: seq<FirmCall>)
    requires forall k :: 0 <= k < |calls| ==> WellFormed(calls[k])
    ensures FirmInv(RunFirm(Firm(Drafting.NO_ROWS, NewFirm(today)), calls))
  {
    hide FirmInv, GenerateDrafts, Edit, IssueBoth, CancelBoth, LedgerCall, NewFirm, Step;
    if calls == [] {
      NewKeeps(today);
    } else {
      var n := |calls| - 1;
      RunKeepsFirm(today, calls[..n]);
      StepKeeps(RunFirm(Firm(Drafting.NO_ROWS, NewFirm(today)), calls[..n]), calls[n]);
    }
  }

  lemma NewKeeps(today: Day)
    ensures FirmInv(Firm(Drafting.NO_ROWS, NewFirm(today)))
  {
    hide LedgerInv;
    NewFirmInv(today);
    DraftingRuns.RunKeepsBilling([]);
  }

  lemma StepKeeps(f: Firm, call: FirmCall)
    requires FirmInv(f) && WellFormed(call)
    ensures FirmInv(Step(f, call))
  {
    hide FirmInv, GenerateDrafts, Edit, IssueBoth, CancelBoth, LedgerCall;
    match call
    case Generate(cs, faults, parties) => GenerateKeepsFirm(f, cs, faults, parties);
    case EditLines(edit) => EditKeepsFirm(f, edit);
    case IssueInvoice(d, number, date) => IssueAgrees(f, d, number, date);
    case Cancel(d) => CancelAgrees(f, d);
    case Ledger(c) => LedgerCallKeepsFirm(f, c);
  }

  /** What a customer's account was charged for an invoice is what its lines come to with their tax, no more and no less;
      and it reads paid exactly when collections cover that. */
  lemma ChargedWhatTheLinesSay(today: Day, calls: seq<FirmCall>, d: nat, a: Id)
    requires forall k :: 0 <= k < |calls| ==> WellFormed(calls[k])
    requires var f := RunFirm(Firm(Drafting.NO_ROWS, NewFirm(today)), calls);
             && d < |f.rows.drafts| && DraftingRuns.IsIssued(f.rows.drafts[d]) && d < |f.books.invoices|
             && a < |f.books.accounts|
             && IsAccountOf(f.books.accounts[a], Customer, f.books.invoices[d].customer, f.books.invoices[d].currency)
    ensures var f := RunFirm(Firm(Drafting.NO_ROWS, NewFirm(today)), calls);
            var subtotal := Sums.SumTo(|f.rows.lines|, DraftingRuns.AmountAt(f.rows.lines, d));
            var asked := subtotal + Money.VatOf(subtotal, f.rows.drafts[d].rate);
            && Net(f.books.movements, InvoiceRef(d), AccountSide(a)) == asked
            && (f.rows.drafts[d].status == Drafting.Paid <==>
                  Collected(f.books.papers, f.books.applications, d) == asked)
  {
    hide RunFirm, Money.VatOf, Collected;
    RunKeepsFirm(today, calls);
    var f := RunFirm(Firm(Drafting.NO_ROWS, NewFirm(today)), calls);
    assert SameInvoice(f.rows.drafts[d], f.books.invoices[d]);
    assert DraftingRuns.AsksItsLines(f.rows, d);
    Allocation.StatusMeans(f.books, d);
    assert Net(f.books.movements, InvoiceRef(d), AccountSide(a)) ==
           Effects.InvoiceEffect(f.books.accounts, f.books.invoices[d], AccountSide(a));
  }
}
