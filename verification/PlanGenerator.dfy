/** The daily plan job: one row for every covered lift, this month and next (apps/maintenance/services.py). */
module PlanGenerator {
  import Calendar
  import opened Plan
  import opened Results

  /** An unedited row of a covered lift follows the facts (`_follow_the_facts`). */
  function Followed(row: Row, due: Calendar.Day, technician: Option<nat>): Row {
    var reopened := if row.status == Cancelled then row.(status := Planned) else row;
    if reopened.status != Planned then reopened
    else
      reopened.(due := due, technician := if reopened.technician.None? then technician else reopened.technician)
  }

  /** A covered lift's row for the month: made, left to the person who edited it, or brought up to date. */
  function RowFor(visits: seq<Visit>, key: Key, row: Option<Row>, lift: Lift): Row {
    var due := DueDateIn(key.1, lift.next);
    if row.None? then Row(Planned, None, due, lift.technician, false)
    else if row.value.edited then row.value
    else
      var followed := Followed(row.value, due, lift.technician);
      if row.value.status == Cancelled
      then followed.(status := Fact(visits, key).0, visit := Fact(visits, key).1)
      else followed
  }

  function RowAt(rows: map<Key, Row>, key: Key): Option<Row> {
    if key in rows then Some(rows[key]) else None
  }

  function FollowLift(st: State, month: nat, lift: Lift): State {
    var key := (lift.id, month);
    st.(rows := st.rows[key := RowFor(st.visits, key, RowAt(st.rows, key), lift)])
  }

  function FollowLifts(st: State, month: nat, lifts: seq<Lift>): State {
    if lifts == [] then st else FollowLift(FollowLifts(st, month, lifts[..|lifts| - 1]), month, lifts[|lifts| - 1])
  }

  predicate IsCovered(lifts: seq<Lift>, id: nat) {
    exists k :: 0 <= k < |lifts| && lifts[k].id == id
  }

  /** Nobody edited it or visited for it, and its lift is covered no more. */
  predicate LostCover(lifts: seq<Lift>, month: nat, key: Key, row: Row) {
    key.1 == month && !IsCovered(lifts, key.0) && row.status == Planned && !row.edited
  }

  function CancelUncovered(st: State, month: nat, lifts: seq<Lift>): State {
    st.(rows := map key | key in st.rows ::
      if LostCover(lifts, month, key, st.rows[key]) then st.rows[key].(status := Cancelled) else st.rows[key])
  }

  function ForMonth(st: State, month: nat, lifts: seq<Lift>): State {
    CancelUncovered(FollowLifts(st, month, lifts), month, lifts)
  }

  /** This month and next. */
  function GeneratePlan(st: State, thisMonth: nat, lifts: seq<Lift>): State {
    ForMonth(ForMonth(st, thisMonth, lifts), thisMonth + 1, lifts)
  }

  ghost predicate DistinctLifts(lifts: seq<Lift>) {
    forall i, j :: 0 <= i < j < |lifts| ==> lifts[i].id != lifts[j].id
  }

  // Row by row ---------------------------------------------------------------------------

  lemma {:induction false} FollowLiftsElsewhere(st: State, month: nat, lifts: seq<Lift>, key: Key)
    requires key.1 != month || !IsCovered(lifts, key.0)
    ensures FollowLifts(st, month, lifts).visits == st.visits
    ensures RowAt(FollowLifts(st, month, lifts).rows, key) == RowAt(st.rows, key)
  {
    hide RowFor;
    if lifts != [] {
      var n := |lifts| - 1;
      assert forall k :: 0 <= k < n ==> lifts[..n][k] == lifts[k];
      FollowLiftsElsewhere(st, month, lifts[..n], key);
    }
  }

  lemma {:induction false} FollowLiftsAt(st: State, month: nat, lifts: seq<Lift>, k: nat)
    requires DistinctLifts(lifts) && k < |lifts|
    ensures var key := (lifts[k].id, month);
            && FollowLifts(st, month, lifts).visits == st.visits
            && RowAt(FollowLifts(st, month, lifts).rows, key) ==
               Some(RowFor(st.visits, key, RowAt(st.rows, key), lifts[k]))
  {
    hide RowFor;
    var n := |lifts| - 1;
    var key := (lifts[k].id, month);
    if k == n {
      FollowLiftsElsewhere(st, month, lifts[..n], key);
    } else {
      FollowLiftsAt(st, month, lifts[..n], k);
    }
  }

  lemma RowOfCovered(st: State, month: nat, lifts: seq<Lift>, k: nat)
    requires DistinctLifts(lifts) && k < |lifts|
    ensures var key := (lifts[k].id, month);
            RowAt(ForMonth(st, month, lifts).rows, key) == Some(RowFor(st.visits, key, RowAt(st.rows, key), lifts[k]))
  {
    FollowLiftsAt(st, month, lifts, k);
    assert IsCovered(lifts, lifts[k].id);
  }

  /** A row of an uncovered lift: cancelled if it was planned and nobody edited it. */
  function Uncovered(row: Option<Row>): Option<Row> {
    if row.Some? && row.value.status == Planned && !row.value.edited then Some(row.value.(status := Cancelled)) else row
  }

  lemma RowOfUncovered(st: State, month: nat, lifts: seq<Lift>, id: nat)
    requires !IsCovered(lifts, id)
    ensures RowAt(ForMonth(st, month, lifts).rows, (id, month)) == Uncovered(RowAt(st.rows, (id, month)))
  {
    FollowLiftsElsewhere(st, month, lifts, (id, month));
  }

  lemma RowOfOtherMonth(st: State, month: nat, lifts: seq<Lift>, key: Key)
    requires key.1 != month
    ensures RowAt(ForMonth(st, month, lifts).rows, key) == RowAt(st.rows, key)
    ensures ForMonth(st, month, lifts).visits == st.visits
  {
    FollowLiftsElsewhere(st, month, lifts, key);
  }

  /** The month a run is for. */
  predicate InRun(thisMonth: nat, month: nat) {
    thisMonth <= month <= thisMonth + 1
  }

  lemma GeneratedRowIs(st: State, thisMonth: nat, lifts: seq<Lift>, key: Key)
    requires DistinctLifts(lifts)
    ensures var after := RowAt(GeneratePlan(st, thisMonth, lifts).rows, key);
            && (!InRun(thisMonth, key.1) ==> after == RowAt(st.rows, key))
            && (InRun(thisMonth, key.1) && !IsCovered(lifts, key.0) ==> after == Uncovered(RowAt(st.rows, key)))
            && forall k :: 0 <= k < |lifts| && lifts[k].id == key.0 && InRun(thisMonth, key.1) ==>
                 after == Some(RowFor(st.visits, key, RowAt(st.rows, key), lifts[k]))
    ensures GeneratePlan(st, thisMonth, lifts).visits == st.visits
  {
    hide ForMonth, RowFor, RowAt, Uncovered;
    var middle := ForMonth(st, thisMonth, lifts);
    var away: Key := (0, thisMonth + 2);
    RowOfOtherMonth(st, thisMonth, lifts, away);
    RowOfOtherMonth(middle, thisMonth + 1, lifts, away);
    if key.1 == thisMonth {
      MonthRow(st, thisMonth, lifts, key);
      RowOfOtherMonth(middle, thisMonth + 1, lifts, key);
    } else {
      RowOfOtherMonth(st, thisMonth, lifts, key);
      if key.1 == thisMonth + 1 {
        MonthRow(middle, thisMonth + 1, lifts, key);
      } else {
        RowOfOtherMonth(middle, thisMonth + 1, lifts, key);
      }
    }
  }

  lemma MonthRow(st: State, month: nat, lifts: seq<Lift>, key: Key)
    requires DistinctLifts(lifts) && key.1 == month
    ensures var after := RowAt(ForMonth(st, month, lifts).rows, key);
            && (!IsCovered(lifts, key.0) ==> after == Uncovered(RowAt(st.rows, key)))
            && forall k :: 0 <= k < |lifts| && lifts[k].id == key.0 ==>
                 after == Some(RowFor(st.visits, key, RowAt(st.rows, key), lifts[k]))
  {
    hide ForMonth, RowFor;
    if !IsCovered(lifts, key.0) {
      RowOfUncovered(st, month, lifts, key.0);
    }
    forall k | 0 <= k < |lifts| && lifts[k].id == key.0
      ensures RowAt(ForMonth(st, month, lifts).rows, key) == Some(RowFor(st.visits, key, RowAt(st.rows, key), lifts[k]))
    {
      RowOfCovered(st, month, lifts, k);
    }
  }

  // Main results --------------------------------------------------------------------------------

  /** What a covered lift's row is after a run, by what it was. Made, it is planned, unedited and without a visit; edited or
      done, it is as it was; planned, it follows the lift's date and gets a technician only if it had none; cancelled, it
      opens again and says what the month's visits say. */
  ghost predicate CoveredRow(visits: seq<Visit>, key: Key, lift: Lift, before: Option<Row>, after: Row) {
    var due := if lift.next.None? then Calendar.Date(key.1, 15)
               else if Calendar.Ordinal(LastDay(key.1)) < Calendar.Ordinal(lift.next.value) then LastDay(key.1)
               else lift.next.value;
    if before.None? then after == Row(Planned, None, due, lift.technician, false)
    else if before.value.edited || before.value.status == Done then after == before.value
    else
      && after.due == due && !after.edited
      && after.technician == (if before.value.technician.Some? then before.value.technician else lift.technician)
      && (before.value.status == Planned ==> after.status == Planned && after.visit == before.value.visit)
      && (before.value.status == Cancelled ==>
            after.status != Cancelled && SaysVisits(visits, key, after.status, after.visit))
  }

  /** What an uncovered lift's row is: cancelled if it was planned and nobody had edited it, and otherwise as it was. */
  predicate UncoveredRow(before: Option<Row>, after: Option<Row>) {
    if before.Some? && before.value.status == Planned && !before.value.edited
    then after == Some(before.value.(status := Cancelled)) else after == before
  }

  /** What a run makes of each row: by its lift's cover, this month and next; nothing in any other month. */
  lemma GeneratedRow(st: State, thisMonth: nat, lifts: seq<Lift>, key: Key)
    requires DistinctLifts(lifts) && DistinctVisits(st.visits)
    ensures var before, after := RowAt(st.rows, key), RowAt(GeneratePlan(st, thisMonth, lifts).rows, key);
            if key.1 != thisMonth && key.1 != thisMonth + 1 then after == before
            else if forall k :: 0 <= k < |lifts| ==> lifts[k].id != key.0 then UncoveredRow(before, after)
            else
              after.Some? && forall k :: 0 <= k < |lifts| && lifts[k].id == key.0 ==>
                CoveredRow(st.visits, key, lifts[k], before, after.value)
    ensures GeneratePlan(st, thisMonth, lifts).visits == st.visits
  {
    hide GeneratePlan, RowAt, RowFor, CoveredRow;
    GeneratedRowIs(st, thisMonth, lifts, key);
    var before := RowAt(st.rows, key);
    forall k | 0 <= k < |lifts|
      ensures CoveredRow(st.visits, key, lifts[k], before, RowFor(st.visits, key, before, lifts[k]))
    {
      RowForCovered(st.visits, key, before, lifts[k]);
    }
  }

  lemma RowForCovered(visits: seq<Visit>, key: Key, row: Option<Row>, lift: Lift)
    requires DistinctVisits(visits)
    ensures CoveredRow(visits, key, lift, row, RowFor(visits, key, row, lift))
  {
    hide Fact, SaysVisits;
    FactNotCancelled(visits, key);
    FactSaysVisits(visits, key, Fact(visits, key).0, Fact(visits, key).1);
    if lift.next.Some? {
      EarlierIsEarlier(LastDay(key.1), lift.next.value);
    }
  }

  /** After a run each covered lift has its row in both months; one still planned that nobody edited is due when
      the lift's record says, and has a technician if its customer has exactly one. */
  lemma EveryCoveredLiftIsPlanned(st: State, thisMonth: nat, lifts: seq<Lift>, k: nat, month: nat)
    requires DistinctLifts(lifts) && k < |lifts| && InRun(thisMonth, month)
    ensures var after := GeneratePlan(st, thisMonth, lifts);
            var key := (lifts[k].id, month);
            && key in after.rows
            && (!after.rows[key].edited ==> after.rows[key].status != Cancelled)
            && (after.rows[key].status == Planned && !after.rows[key].edited ==>
                  && after.rows[key].due == DueDateIn(month, lifts[k].next)
                  && (after.rows[key].technician.None? ==> lifts[k].technician.None?))
  {
    hide GeneratePlan, Latest;
    GeneratedRowIs(st, thisMonth, lifts, (lifts[k].id, month));
    FactNotCancelled(st.visits, (lifts[k].id, month));
  }

  /** A row somebody edited, a row of another month, and a done row of an uncovered lift stay as they are. */
  lemma OthersAreLeftAlone(st: State, thisMonth: nat, lifts: seq<Lift>, key: Key)
    requires DistinctLifts(lifts) && key in st.rows
    requires st.rows[key].edited || !InRun(thisMonth, key.1) || (!IsCovered(lifts, key.0) && st.rows[key].status != Planned)
    ensures RowAt(GeneratePlan(st, thisMonth, lifts).rows, key) == Some(st.rows[key])
  {
    hide GeneratePlan;
    GeneratedRowIs(st, thisMonth, lifts, key);
    if IsCovered(lifts, key.0) {
      var k :| 0 <= k < |lifts| && lifts[k].id == key.0;
      assert st.rows[key].edited || !InRun(thisMonth, key.1);
    }
  }

  lemma FollowedTwice(visits: seq<Visit>, key: Key, row: Option<Row>, lift: Lift)
    ensures RowFor(visits, key, Some(RowFor(visits, key, row, lift)), lift) == RowFor(visits, key, row, lift)
  {
    FactNotCancelled(visits, key);
  }

  lemma SameRows(a: map<Key, Row>, b: map<Key, Row>)
    requires forall key :: RowAt(a, key) == RowAt(b, key)
    ensures a == b
  {
    forall key
      ensures key in a <==> key in b
      ensures key in a ==> a[key] == b[key]
    {
      assert RowAt(a, key) == RowAt(b, key);
    }
  }

  /** Running the job again the same day writes nothing. */
  lemma PlanTwice(st: State, thisMonth: nat, lifts: seq<Lift>)
    requires DistinctLifts(lifts)
    ensures GeneratePlan(GeneratePlan(st, thisMonth, lifts), thisMonth, lifts) == GeneratePlan(st, thisMonth, lifts)
  {
    hide GeneratePlan, RowAt;
    var once := GeneratePlan(st, thisMonth, lifts);
    var twice := GeneratePlan(once, thisMonth, lifts);
    GeneratedRowIs(st, thisMonth, lifts, (0, 0));
    GeneratedRowIs(once, thisMonth, lifts, (0, 0));
    forall key
      ensures RowAt(twice.rows, key) == RowAt(once.rows, key)
    {
      RowTwice(st, thisMonth, lifts, key);
    }
    SameRows(twice.rows, once.rows);
  }

  lemma RowTwice(st: State, thisMonth: nat, lifts: seq<Lift>, key: Key)
    requires DistinctLifts(lifts)
    ensures var once := GeneratePlan(st, thisMonth, lifts);
            RowAt(GeneratePlan(once, thisMonth, lifts).rows, key) == RowAt(once.rows, key)
  {
    hide GeneratePlan, RowFor, RowAt;
    var once := GeneratePlan(st, thisMonth, lifts);
    GeneratedRowIs(st, thisMonth, lifts, key);
    GeneratedRowIs(once, thisMonth, lifts, key);
    if InRun(thisMonth, key.1) && IsCovered(lifts, key.0) {
      var k :| 0 <= k < |lifts| && lifts[k].id == key.0;
      FollowedTwice(st.visits, key, RowAt(st.rows, key), lifts[k]);
    }
  }

  // Where the plan and the visits part ----------------------------------------------------------

  predicate HasVisits(visits: seq<Visit>, key: Key) {
    exists v :: v in visits && KeyOf(v) == key
  }

  /** A run makes a row for a lift that already has visits in that month: it says planned, and nothing re-syncs it. */
  ghost predicate MadeLate(st: State, thisMonth: nat, lifts: seq<Lift>, key: Key) {
    key !in st.rows && InRun(thisMonth, key.1) && IsCovered(lifts, key.0) && HasVisits(st.visits, key)
  }

  /** A fresh row says what the visits say exactly when the month has none. */
  lemma FreshRowAgrees(visits: seq<Visit>, key: Key)
    ensures SaysVisits(visits, key, Planned, None) <==> !HasVisits(visits, key)
  {
    hide LinksLatest;
  }

  ghost predicate Says(visits: seq<Visit>, key: Key, row: Option<Row>) {
    row.Some? && row.value.status != Cancelled ==> SaysVisits(visits, key, row.value.status, row.value.visit)
  }

  lemma GeneratedSays(st: State, thisMonth: nat, lifts: seq<Lift>, key: Key)
    requires DistinctLifts(lifts) && DistinctVisits(st.visits) && Says(st.visits, key, RowAt(st.rows, key))
    ensures Says(st.visits, key, RowAt(GeneratePlan(st, thisMonth, lifts).rows, key))
            <==> !MadeLate(st, thisMonth, lifts, key)
  {
    hide GeneratePlan, SaysVisits, HasVisits;
    GeneratedRow(st, thisMonth, lifts, key);
    FreshRowAgrees(st.visits, key);
    if InRun(thisMonth, key.1) && IsCovered(lifts, key.0) {
      var k :| 0 <= k < |lifts| && lifts[k].id == key.0;
    }
  }

  /** A run leaves every row saying what its visits say exactly when it made no row for a lift already visited in
      the month. */
  lemma UpToDateAfterRunIff(st: State, thisMonth: nat, lifts: seq<Lift>)
    requires DistinctLifts(lifts) && UpToDate(st)
    ensures UpToDate(GeneratePlan(st, thisMonth, lifts)) <==> forall key :: !MadeLate(st, thisMonth, lifts, key)
  {
    hide GeneratePlan, MadeLate, SaysVisits;
    var after := GeneratePlan(st, thisMonth, lifts);
    GeneratedRowIs(st, thisMonth, lifts, (0, 0));
    forall key
      ensures Says(st.visits, key, RowAt(after.rows, key)) <==> !MadeLate(st, thisMonth, lifts, key)
    {
      assert key in st.rows ==> RowUpToDate(st, key);
      GeneratedSays(st, thisMonth, lifts, key);
    }
    forall key
      ensures Says(st.visits, key, RowAt(after.rows, key)) <==> (key in after.rows ==> RowUpToDate(after, key))
    {
    }
  }

  /** Such a run: a visit recorded on the 10th before the lift's first row is made leaves that row planned. */
  lemma FirstRowMissesItsVisit()
    ensures var st := State([Visit(1, 7, Calendar.Date(100, 10), Completed)], map[]);
            var after := GeneratePlan(st, 100, [Lift(7, None, None)]);
            && UpToDate(st)
            && (7, 100) in after.rows && after.rows[(7, 100)].status == Planned
            && SaysVisits(after.visits, (7, 100), Done, Some(1)) && !UpToDate(after)
  {
    hide GeneratePlan;
    var st := State([Visit(1, 7, Calendar.Date(100, 10), Completed)], map[]);
    var after := GeneratePlan(st, 100, [Lift(7, None, None)]);
    GeneratedRow(st, 100, [Lift(7, None, None)], (7, 100));
    assert [Lift(7, None, None)][0].id == 7;
    assert IsLatest(st.visits, (7, 100), true, st.visits[0]);
    assert !RowUpToDate(after, (7, 100));
  }
}
