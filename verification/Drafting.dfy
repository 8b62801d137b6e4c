/** Invoice drafts and their lines: generating them, editing, issuing and cancelling them
    (apps/billing/services.py). */
module Drafting {
  import Calendar
  import opened Money
  import opened Periods
  import opened Results

  const RECENTLY_ENDED: int := 92
  const LOOKBACK: int := 92
  const ONE: int := 10000

  // What is billed --------------------------------------------------------------------

  datatype ContractStatus = Draft | Active | Expired | Renewed | Terminated

  /** A lift's membership of a contract; a lift not removed is covered for good. */
  datatype Cover = Cover(elevator: nat, added: int, removed: Option<int>, price: Option<int>)

  datatype Pricing = Flat(monthlyFee: Option<int>) | PerElevator

  datatype Contract = Contract(
    id: nat, status: ContractStatus, start: Calendar.Day, end: int, terminatedAt: Option<int>,
    billing: BillingPeriod, pricing: Pricing, rate: Option<nat>, covers: seq<Cover>)

  datatype Fault = Fault(id: nat, elevator: nat, closed: Option<int>, billable: bool, reported: int)

  // Rows -------------------------------------------------------------------------------

  datatype Status = InDraft | Issued | Paid | Cancelled

  datatype Invoice = Invoice(
    contract: nat, start: int, end: int, rate: nat, status: Status, totals: Totals, number: Option<nat>)

  /** The exact fraction a prorated line bills. */
  datatype Share = Share(months: nat, covered: nat, period: nat)

  datatype Line = Line(
    draft: nat, elevator: Option<nat>, fault: Option<nat>, released: bool, quantity: int,
    share: Option<Share>, price: Option<int>, amount: int, needsPrice: bool, deleted: bool)

  datatype Rows = Rows(drafts: seq<Invoice>, lines: seq<Line>)

  predicate Live(d: Invoice) {
    d.status != Cancelled
  }

  /** Some live draft bills this period of this contract. */
  predicate PeriodTaken(drafts: seq<Invoice>, contract: nat, start: int) {
    exists d :: 0 <= d < |drafts| && drafts[d].contract == contract && drafts[d].start == start && Live(drafts[d])
  }

  /** The line holds its fault: no other live draft may bill it. */
  predicate HoldsFault(l: Line, fault: nat) {
    l.fault == Some(fault) && !l.released && !l.deleted
  }

  predicate FaultBilled(lines: seq<Line>, fault: nat) {
    exists l :: 0 <= l < |lines| && HoldsFault(lines[l], fault)
  }

  // Totals -----------------------------------------------------------------------------

  function AmountsOf(lines: seq<Line>, d: nat): seq<int> {
    if lines == [] then []
    else
      var last := lines[|lines| - 1];
      AmountsOf(lines[..|lines| - 1], d) + (if last.draft == d && !last.deleted then [last.amount] else [])
  }

  function Recomputed(rows: Rows, d: nat): Rows
    requires d < |rows.drafts|
  {
    var draft := rows.drafts[d];
    if draft.status != InDraft then rows
    else rows.(drafts := rows.drafts[d := draft.(totals := TotalsOf(AmountsOf(rows.lines, d), draft.rate))])
  }

  /** What a line asks: a share of the fee where it bills one, otherwise quantity times price (`line_amount`). */
  function AmountOf(quantity: int, share: Option<Share>, price: Option<int>): int {
    if share.Some? && share.value.period > 0
    then ProratedAmount(price, share.value.months, share.value.covered, share.value.period)
    else LineAmount(quantity, price)
  }

  /** The amount is that of the line's exact value, and it waits for a price exactly when it has none. */
  predicate WellPriced(l: Line) {
    l.amount == AmountOf(l.quantity, l.share, l.price) && l.needsPrice == l.price.None?
  }

  // Generation --------------------------------------------------------------------------

  function LastBilledDay(c: Contract): int {
    if c.status == Terminated && c.terminatedAt.Some? then Calendar.Min(c.end, c.terminatedAt.value) else c.end
  }

  function Prorated(d: nat, elevator: Option<nat>, p: Period, covered: nat, price: Option<int>): (line: Line)
    requires NominalDays(p) > 0
    ensures line.draft == d && line.fault == None && !line.released && WellPriced(line)
  {
    Line(d, elevator, None, false, ProratedQuantity(p.months, covered, NominalDays(p)),
         Some(Share(p.months, covered, NominalDays(p))), price,
         ProratedAmount(price, p.months, covered, NominalDays(p)), price.None?, false)
  }

  /** The days of the period a cover has; the day a lift is removed is still covered. */
  function CoverDays(cover: Cover, p: Period): int {
    if cover.removed.Some? then OverlapDays(p.start, p.end, cover.added, cover.removed.value)
    else OverlapDays(p.start, p.end, cover.added, Calendar.Max(p.end, cover.added))
  }

  function CoverLines(d: nat, covers: seq<Cover>, p: Period): (lines: seq<Line>)
    requires NominalDays(p) > 0
    ensures forall k :: 0 <= k < |lines| ==>
              lines[k].draft == d && lines[k].fault == None && !lines[k].released && WellPriced(lines[k])
  {
    if covers == [] then []
    else
      var last := covers[|covers| - 1];
      CoverLines(d, covers[..|covers| - 1], p)
      + (if CoverDays(last, p) > 0 then [Prorated(d, Some(last.elevator), p, CoverDays(last, p), last.price)] else [])
  }

  function FeeLines(d: nat, c: Contract, p: Period): (lines: seq<Line>)
    requires NominalDays(p) > 0
    ensures forall k :: 0 <= k < |lines| ==>
              lines[k].draft == d && lines[k].fault == None && !lines[k].released && WellPriced(lines[k])
  {
    if c.pricing.Flat? then
      [Prorated(d, None, p, OverlapDays(p.start, p.end, Calendar.Ordinal(c.start), LastBilledDay(c)), c.pricing.monthlyFee)]
    else CoverLines(d, c.covers, p)
  }

  predicate CoveredOn(covers: seq<Cover>, elevator: nat, day: int) {
    exists k :: 0 <= k < |covers| && covers[k].elevator == elevator && covers[k].added <= day
                && (covers[k].removed.Some? ==> day <= covers[k].removed.value)
  }

  /** Closed in the period, billable, and reported while the contract covered the lift. */
  predicate ToBill(f: Fault, c: Contract, p: Period) {
    && f.closed.Some? && f.billable && p.start <= f.closed.value <= p.end
    && CoveredOn(c.covers, f.elevator, f.reported)
  }

  /** The faults to bill that no live draft bills already. */
  function BillableFaults(lines: seq<Line>, c: Contract, p: Period, faults: seq<Fault>): seq<Fault> {
    if faults == [] then []
    else
      var last := faults[|faults| - 1];
      BillableFaults(lines, c, p, faults[..|faults| - 1])
      + (if ToBill(last, c, p) && !FaultBilled(lines, last.id) then [last] else [])
  }

  function FaultLine(d: nat, f: Fault): Line {
    Line(d, Some(f.elevator), Some(f.id), false, ONE, None, None, 0, true, false)
  }

  function FaultLines(d: nat, fs: seq<Fault>): (r: seq<Line>)
    ensures |r| == |fs| && forall k :: 0 <= k < |r| ==> r[k] == FaultLine(d, fs[k])
  {
    seq(|fs|, k requires 0 <= k < |fs| => FaultLine(d, fs[k]))
  }

  /** The unique key on faults: no two lines hold the same one. */
  predicate EachFaultOnce(lines: seq<Line>) {
    forall k, l :: 0 <= k < l < |lines| && lines[k].fault.Some? && HoldsFault(lines[k], lines[k].fault.value) ==>
      !HoldsFault(lines[l], lines[k].fault.value)
  }

  /** The rows a new draft would add. */
  function Drafted(rows: Rows, c: Contract, p: Period, rate: nat, faults: seq<Fault>): Rows
    requires NominalDays(p) > 0
  {
    var d := |rows.drafts|;
    var lines := FeeLines(d, c, p) + FaultLines(d, BillableFaults(rows.lines, c, p, faults));
    Recomputed(Rows(rows.drafts + [Invoice(c.id, p.start, p.end, rate, InDraft, Totals(0, 0, 0), None)],
                    rows.lines + lines), d)
  }

  /** `draft_for`: the new draft, or nothing at all when a unique key refuses it. */
  function DraftFor(rows: Rows, c: Contract, p: Period, rate: nat, faults: seq<Fault>): Rows
    requires NominalDays(p) > 0
  {
    if PeriodTaken(rows.drafts, c.id, p.start) then rows
    else
      var drafted := Drafted(rows, c, p, rate, faults);
      if EachFaultOnce(drafted.lines) then drafted else rows
  }

  predicate Generated(c: Contract, today: int) {
    || c.status == Active
    || (c.status in {Expired, Renewed} && c.end >= today - RECENTLY_ENDED)
    || (c.status == Terminated && c.terminatedAt.Some? && c.terminatedAt.value >= today - RECENTLY_ENDED)
  }

  predicate Due(p: Period, today: int) {
    today - LOOKBACK <= p.end <= today - 1
  }

  function PeriodsFor(c: Contract): (ps: seq<Period>)
    ensures forall k :: 0 <= k < |ps| ==> NominalDays(ps[k]) > 0
  {
    PeriodsFrom(c.start, LastBilledDay(c), MonthsOf(c.billing), 0)
  }

  function DraftPeriod(rows: Rows, c: Contract, p: Period, today: int, faults: seq<Fault>): Rows
    requires NominalDays(p) > 0
  {
    if Due(p, today) && c.rate.Some? then DraftFor(rows, c, p, c.rate.value, faults) else rows
  }

  function DraftPeriods(rows: Rows, c: Contract, ps: seq<Period>, today: int, faults: seq<Fault>): Rows
    requires forall k :: 0 <= k < |ps| ==> NominalDays(ps[k]) > 0
  {
    if ps == [] then rows
    else DraftPeriod(DraftPeriods(rows, c, ps[..|ps| - 1], today, faults), c, ps[|ps| - 1], today, faults)
  }

  /** Every due period of every contract still billed, in order (`generate`). */
  function Generate(rows: Rows, cs: seq<Contract>, today: int, faults: seq<Fault>): Rows {
    if cs == [] then rows
    else
      var before, c := Generate(rows, cs[..|cs| - 1], today, faults), cs[|cs| - 1];
      if Generated(c, today) then DraftPeriods(before, c, PeriodsFor(c), today, faults) else before
  }

  // Editing and the lifecycle --------------------------------------------------------------

  datatype Refusal = NotFound | TransitionNotAllowed | LinesNeedPrice | DuplicateNumber | LedgerRefused

  function AddLine(rows: Rows, d: nat, quantity: int, price: int): Result<Rows, Refusal> {
    if d >= |rows.drafts| then Refused(NotFound)
    else if rows.drafts[d].status != InDraft then Refused(TransitionNotAllowed)
    else
      var line := Line(d, None, None, false, quantity, None, Some(price), LineAmount(quantity, Some(price)), false, false);
      Ok(Recomputed(rows.(lines := rows.lines + [line]), d))
  }

  /** What an edit changes: a price, a quantity that replaces the fraction, or both. */
  function Edited(l: Line, quantity: Option<int>, price: Option<Option<int>>): Line {
    var q := if quantity.Some? then quantity.value else l.quantity;
    var share := if quantity.Some? then None else l.share;
    var p := if price.Some? then price.value else l.price;
    l.(quantity := q, share := share, price := p, needsPrice := p.None?, amount := AmountOf(q, share, p))
  }

  function EditLine(rows: Rows, l: nat, quantity: Option<int>, price: Option<Option<int>>): Result<Rows, Refusal> {
    if l >= |rows.lines| || rows.lines[l].deleted || rows.lines[l].draft >= |rows.drafts| then Refused(NotFound)
    else if rows.drafts[rows.lines[l].draft].status != InDraft then Refused(TransitionNotAllowed)
    else
      Ok(Recomputed(rows.(lines := rows.lines[l := Edited(rows.lines[l], quantity, price)]), rows.lines[l].draft))
  }

  function RemoveLine(rows: Rows, l: nat): Result<Rows, Refusal> {
    if l >= |rows.lines| || rows.lines[l].deleted || rows.lines[l].draft >= |rows.drafts| then Refused(NotFound)
    else if rows.drafts[rows.lines[l].draft].status != InDraft then Refused(TransitionNotAllowed)
    else Ok(Recomputed(rows.(lines := rows.lines[l := rows.lines[l].(deleted := true)]), rows.lines[l].draft))
  }

  predicate WaitsForPrice(lines: seq<Line>, d: nat) {
    exists l :: 0 <= l < |lines| && lines[l].draft == d && !lines[l].deleted && lines[l].needsPrice
  }

  predicate NumberTaken(drafts: seq<Invoice>, number: nat, except: nat) {
    exists d :: 0 <= d < |drafts| && d != except && drafts[d].number == Some(number) && drafts[d].status in {Issued, Paid}
  }

  /** Issuing, with what the ledger answers: whether it takes the posting of a total that is not zero. */
  function Issue(rows: Rows, d: nat, number: nat, posted: bool): Result<Rows, Refusal> {
    if d >= |rows.drafts| then Refused(NotFound)
    else if rows.drafts[d].status != InDraft then Refused(TransitionNotAllowed)
    else if WaitsForPrice(rows.lines, d) then Refused(LinesNeedPrice)
    else if NumberTaken(rows.drafts, number, d) then Refused(DuplicateNumber)
    else
      var after := Recomputed(rows, d);
      var draft := after.drafts[d];
      if draft.totals.total != 0 && !(posted && draft.totals.total > 0) then Refused(LedgerRefused)
      else
        var status := if draft.totals.total == 0 then Paid else Issued;
        Ok(after.(drafts := after.drafts[d := draft.(status := status, number := Some(number))]))
  }

  /** The ledger marks an issued invoice paid when collections cover it, and issued again when they do not. */
  function Sync(rows: Rows, d: nat, covered: bool): Result<Rows, Refusal> {
    if d >= |rows.drafts| then Refused(NotFound)
    else if rows.drafts[d].status !in {Issued, Paid} then Refused(TransitionNotAllowed)
    else Ok(rows.(drafts := rows.drafts[d := rows.drafts[d].(status := if covered then Paid else Issued)]))
  }

  function Released(lines: seq<Line>, d: nat): (r: seq<Line>)
    ensures |r| == |lines|
    ensures forall k :: 0 <= k < |r| ==>
              r[k] == (if lines[k].draft == d && lines[k].fault.Some? && !lines[k].deleted
                       then lines[k].(released := true) else lines[k])
  {
    seq(|lines|, k requires 0 <= k < |lines| =>
      if lines[k].draft == d && lines[k].fault.Some? && !lines[k].deleted then lines[k].(released := true) else lines[k])
  }

  /** Cancelling gives the period and the faults back; the ledger refuses while a collection pays it. */
  function Cancel(rows: Rows, d: nat, reversed: bool): Result<Rows, Refusal> {
    if d >= |rows.drafts| then Refused(NotFound)
    else if rows.drafts[d].status == Cancelled then Refused(TransitionNotAllowed)
    else if rows.drafts[d].status != InDraft && !reversed then Refused(LedgerRefused)
    else Ok(Rows(rows.drafts[d := rows.drafts[d].(status := Cancelled)], Released(rows.lines, d)))
  }

  // Runs ---------------------------------------------------------------------------------------

  datatype Call =
    | CallGenerate(contracts: seq<Contract>, today: int, faults: seq<Fault>)
    | CallAddLine(d: nat, quantity: int, price: int)
    | CallEditLine(l: nat, newQuantity: Option<int>, newPrice: Option<Option<int>>)
    | CallRemoveLine(l: nat)
    | CallIssue(d: nat, number: nat, posted: bool)
    | CallSync(d: nat, covered: bool)
    | CallCancel(d: nat, reversed: bool)

  function Perform(rows: Rows, call: Call): Result<Rows, Refusal> {
    match call
    case CallGenerate(cs, today, faults) => Ok(Generate(rows, cs, today, faults))
    case CallAddLine(d, quantity, price) => AddLine(rows, d, quantity, price)
    case CallEditLine(l, quantity, price) => EditLine(rows, l, quantity, price)
    case CallRemoveLine(l) => RemoveLine(rows, l)
    case CallIssue(d, number, posted) => Issue(rows, d, number, posted)
    case CallSync(d, covered) => Sync(rows, d, covered)
    case CallCancel(d, reversed) => Cancel(rows, d, reversed)
  }

  /** A refused call changes nothing. */
  function After(rows: Rows, call: Call): Rows {
    var outcome := Perform(rows, call);
    if outcome.Ok? then outcome.value else rows
  }

  function Run(rows: Rows, calls: seq<Call>): Rows {
    if calls == [] then rows else After(Run(rows, calls[..|calls| - 1]), calls[|calls| - 1])
  }

  const NO_ROWS: Rows := Rows([], [])
}
