/** The monthly maintenance plan, kept in line with the visits (apps/maintenance/services.py). */
module Plan {
  import opened Calendar
  import opened Results

  datatype VisitStatus = Completed | Incomplete | AccessDenied

  datatype Visit = Visit(id: nat, elevator: nat, date: Day, status: VisitStatus)

  datatype PlanStatus = Planned | Done | Cancelled

  /** A lift's row for one month. */
  datatype Row = Row(status: PlanStatus, visit: Option<nat>, due: Day, technician: Option<nat>, edited: bool)

  /** A lift and a month: the unique key of a row. */
  type Key = (nat, nat)

  datatype State = State(visits: seq<Visit>, rows: map<Key, Row>)

  /** A covered lift: when it next falls due, and its customer's only technician. */
  datatype Lift = Lift(id: nat, next: Option<Day>, technician: Option<nat>)

  // Dates ---------------------------------------------------------------------------------

  predicate Earlier(a: Day, b: Day) {
    a.month < b.month || (a.month == b.month && a.day < b.day)
  }

  /** The order of days is the order of their numbers. */
  lemma EarlierIsEarlier(a: Day, b: Day)
    ensures Earlier(a, b) <==> Ordinal(a) < Ordinal(b)
  {
    if a.month < b.month {
      LaterMonthIsLater(a, b);
    } else if b.month < a.month {
      LaterMonthIsLater(b, a);
    }
  }

  function LastDay(month: nat): Day {
    Date(month, DaysIn(month))
  }

  /** When a lift falls due, for its row in a month. */
  function DueDateIn(month: nat, next: Option<Day>): Day {
    if next.None? then Date(month, 15)
    else if Earlier(LastDay(month), next.value) then LastDay(month)
    else next.value
  }

  /** Its own date, however early, but never after the month; the middle of the month when it has none. */
  lemma DueByMonthEnd(month: nat, next: Option<Day>)
    ensures DueDateIn(month, next).month <= month
    ensures next.None? ==> DueDateIn(month, next) == Date(month, 15)
    ensures next.Some? ==> Ordinal(DueDateIn(month, next)) == Min(Ordinal(next.value), Ordinal(LastDay(month)))
  {
    if next.Some? {
      EarlierIsEarlier(LastDay(month), next.value);
    }
  }

  // The row a lift's visits make -----------------------------------------------------------

  function KeyOf(v: Visit): Key {
    (v.elevator, v.date.month)
  }

  predicate Counts(v: Visit, key: Key, completedOnly: bool) {
    KeyOf(v) == key && (completedOnly ==> v.status == Completed)
  }

  /** Later by date, then by id. */
  predicate Outranks(v: Visit, w: Visit) {
    Earlier(w.date, v.date) || (w.date == v.date && w.id < v.id)
  }

  function Latest(visits: seq<Visit>, key: Key, completedOnly: bool): Option<Visit> {
    if visits == [] then None
    else
      var before, last := Latest(visits[..|visits| - 1], key, completedOnly), visits[|visits| - 1];
      if Counts(last, key, completedOnly) && (before.None? || Outranks(last, before.value)) then Some(last) else before
  }

  /** What a row should say: done by the latest completed visit, or planned with the latest attempt. */
  function Fact(visits: seq<Visit>, key: Key): (PlanStatus, Option<nat>) {
    var completed := Latest(visits, key, true);
    if completed.Some? then (Done, Some(completed.value.id))
    else
      var attempt := Latest(visits, key, false);
      (Planned, if attempt.Some? then Some(attempt.value.id) else None)
  }

  predicate DistinctVisits(visits: seq<Visit>) {
    forall i, j :: 0 <= i < j < |visits| ==> visits[i].id != visits[j].id
  }

  /** The visit found counts and outranks every other that does; none is found exactly when none counts. */
  lemma {:induction false} LatestOutranksAll(visits: seq<Visit>, key: Key, completedOnly: bool)
    requires DistinctVisits(visits)
    ensures var latest := Latest(visits, key, completedOnly);
            if latest.Some? then
              && latest.value in visits && Counts(latest.value, key, completedOnly)
              && forall v :: v in visits && Counts(v, key, completedOnly) && v != latest.value ==> Outranks(latest.value, v)
            else forall v :: v in visits ==> !Counts(v, key, completedOnly)
  {
    if visits != [] {
      var init, last := visits[..|visits| - 1], visits[|visits| - 1];
      LatestOutranksAll(init, key, completedOnly);
      assert forall v :: v in visits <==> v in init || v == last;
      forall v | v in init
        ensures v.id != last.id
      {
        var i :| 0 <= i < |init| && init[i] == v;
        assert visits[i] == v;
      }
    }
  }

  /** A visit of this lift in this month. */
  predicate IsOf(v: Visit, key: Key) {
    v.elevator == key.0 && v.date.month == key.1
  }

  /** On a later day, or on the same day with the greater id. */
  predicate Later(v: Visit, w: Visit) {
    Ordinal(w.date) < Ordinal(v.date) || (w.date == v.date && w.id < v.id)
  }

  /** This is the visit's id, and every other visit of the lift and month (completed, if asked) is earlier. */
  ghost predicate IsLatest(visits: seq<Visit>, key: Key, completedOnly: bool, v: Visit) {
    && v in visits && IsOf(v, key) && (completedOnly ==> v.status == Completed)
    && forall w :: w in visits && IsOf(w, key) && (completedOnly ==> w.status == Completed) && w != v ==> Later(v, w)
  }

  ghost predicate LinksLatest(visits: seq<Visit>, key: Key, completedOnly: bool, visit: Option<nat>) {
    visit.Some? && exists v :: IsLatest(visits, key, completedOnly, v) && v.id == visit.value
  }

  /** What a row says of its lift's visits in the month: done exactly when one is completed, by the latest completed
      one; planned, it links the latest attempt, and none exactly when there is none. */
  ghost predicate SaysVisits(visits: seq<Visit>, key: Key, status: PlanStatus, visit: Option<nat>) {
    && (status == Done <==> exists v :: v in visits && IsOf(v, key) && v.status == Completed)
    && (status == Done ==> LinksLatest(visits, key, true, visit))
    && (status == Planned && visit.Some? ==> LinksLatest(visits, key, false, visit))
    && (visit.None? <==> forall v :: v in visits ==> !IsOf(v, key))
  }

  lemma OutranksIsLater(v: Visit, w: Visit)
    ensures Outranks(v, w) == Later(v, w)
  {
    EarlierIsEarlier(w.date, v.date);
  }

  /** The visit the search finds is the latest. */
  lemma FoundIsLatest(visits: seq<Visit>, key: Key, completedOnly: bool)
    requires DistinctVisits(visits)
    ensures var latest := Latest(visits, key, completedOnly);
            if latest.Some? then IsLatest(visits, key, completedOnly, latest.value)
            else forall v :: v in visits && IsOf(v, key) ==> completedOnly && v.status != Completed
  {
    hide Latest, Outranks, Later;
    LatestOutranksAll(visits, key, completedOnly);
    forall v, w: Visit
      ensures Outranks(v, w) == Later(v, w)
    {
      OutranksIsLater(v, w);
    }
    assert forall v :: Counts(v, key, completedOnly) == (IsOf(v, key) && (completedOnly ==> v.status == Completed));
  }

  /** There is only one latest visit. */
  lemma OneLatest(visits: seq<Visit>, key: Key, completedOnly: bool, v: Visit, w: Visit)
    requires IsLatest(visits, key, completedOnly, v) && IsLatest(visits, key, completedOnly, w)
    ensures v == w
  {
  }

  /** A row set from its visits says what they say, and no other status and link would. */
  lemma FactSaysVisits(visits: seq<Visit>, key: Key, status: PlanStatus, visit: Option<nat>)
    requires DistinctVisits(visits) && status != Cancelled
    ensures SaysVisits(visits, key, status, visit) <==> (status, visit) == Fact(visits, key)
  {
    hide Latest, IsLatest;
    FoundIsLatest(visits, key, true);
    FoundIsLatest(visits, key, false);
    LatestIsOne(visits, key, true);
    LatestIsOne(visits, key, false);
    var completed, attempt := Latest(visits, key, true), Latest(visits, key, false);
    if completed.Some? {
      LatestIsThere(visits, key, true, completed.value);
    }
    if attempt.Some? {
      LatestIsThere(visits, key, false, attempt.value);
    }
  }

  lemma LatestIsOne(visits: seq<Visit>, key: Key, completedOnly: bool)
    ensures forall v, w :: IsLatest(visits, key, completedOnly, v) && IsLatest(visits, key, completedOnly, w) ==> v == w
  {
    forall v, w | IsLatest(visits, key, completedOnly, v) && IsLatest(visits, key, completedOnly, w)
      ensures v == w
    {
      OneLatest(visits, key, completedOnly, v, w);
    }
  }

  lemma LatestIsThere(visits: seq<Visit>, key: Key, completedOnly: bool, v: Visit)
    requires IsLatest(visits, key, completedOnly, v)
    ensures v in visits && IsOf(v, key) && (completedOnly ==> v.status == Completed)
  {
  }

  // Keeping the rows in line ------------------------------------------------------------------

  /** `sync_planned_visit`: the row set from every surviving visit of its month; a cancelled one is left alone. */
  function Synced(st: State, key: Key): State {
    if key !in st.rows || st.rows[key].status == Cancelled then st
    else
      var fact := Fact(st.visits, key);
      st.(rows := st.rows[key := st.rows[key].(status := fact.0, visit := fact.1)])
  }

  ghost predicate RowUpToDate(st: State, key: Key)
    requires key in st.rows
  {
    st.rows[key].status != Cancelled ==> SaysVisits(st.visits, key, st.rows[key].status, st.rows[key].visit)
  }

  /** No two visits share an id, and every row not cancelled says what its lift's visits in its month say. */
  ghost predicate UpToDate(st: State) {
    DistinctVisits(st.visits) && forall key :: key in st.rows ==> RowUpToDate(st, key)
  }

  lemma RowIsFact(st: State, key: Key)
    requires DistinctVisits(st.visits) && key in st.rows && st.rows[key].status != Cancelled
    ensures RowUpToDate(st, key) <==> (st.rows[key].status, st.rows[key].visit) == Fact(st.visits, key)
  {
    hide SaysVisits, Fact;
    FactSaysVisits(st.visits, key, st.rows[key].status, st.rows[key].visit);
  }

  lemma ChangeKeepsDistinct(visits: seq<Visit>, change: Change)
    requires DistinctVisits(visits) && Possible(visits, change)
    ensures DistinctVisits(Changed(visits, change))
  {
  }

  /** Every row set again from the surviving visits. */
  function SyncedAll(st: State): State {
    st.(rows := map key | key in st.rows ::
      if st.rows[key].status == Cancelled then st.rows[key]
      else st.rows[key].(status := Fact(st.visits, key).0, visit := Fact(st.visits, key).1))
  }

  datatype Change =
    | Create(visit: Visit)
    | Edit(at: nat, elevator: nat, date: Day, status: VisitStatus)
    | Delete(at: nat)

  predicate Possible(visits: seq<Visit>, change: Change) {
    match change
    case Create(v) => forall k :: 0 <= k < |visits| ==> visits[k].id != v.id
    case Edit(at, _, _, _) => at < |visits|
    case Delete(at) => at < |visits|
  }

  function Changed(visits: seq<Visit>, change: Change): seq<Visit>
    requires Possible(visits, change)
  {
    match change
    case Create(v) => visits + [v]
    case Edit(at, elevator, date, status) =>
      visits[at := Visit(visits[at].id, elevator, date, status)]
    case Delete(at) => visits[..at] + visits[at + 1..]
  }

  /** The pairs of lift and month a change can have touched. */
  function Touched(visits: seq<Visit>, change: Change): seq<Key>
    requires Possible(visits, change)
  {
    match change
    case Create(v) => [KeyOf(v)]
    case Edit(at, elevator, date, _) =>
      if KeyOf(visits[at]) == (elevator, date.month) then [(elevator, date.month)]
      else [(elevator, date.month), KeyOf(visits[at])]
    case Delete(at) => [KeyOf(visits[at])]
  }

  function SyncedEach(st: State, keys: seq<Key>): State {
    if keys == [] then st else Synced(SyncedEach(st, keys[..|keys| - 1]), keys[|keys| - 1])
  }

  /** A visit made, edited, moved or deleted, and the rows it touched re-synced (`sync_plan_for_visit`). */
  function WithChange(st: State, change: Change): State
    requires Possible(st.visits, change)
  {
    SyncedEach(st.(visits := Changed(st.visits, change)), Touched(st.visits, change))
  }

  lemma {:induction false} LatestAppend(xs: seq<Visit>, ys: seq<Visit>, zs: seq<Visit>, key: Key, completedOnly: bool)
    requires forall v :: v in ys ==> KeyOf(v) != key
    ensures Latest(xs + ys + zs, key, completedOnly) == Latest(xs + zs, key, completedOnly)
    decreases |zs|, |ys|
  {
    if zs != [] {
      var init := zs[..|zs| - 1];
      assert (xs + ys + zs)[..|xs + ys + zs| - 1] == xs + ys + init;
      assert (xs + zs)[..|xs + zs| - 1] == xs + init;
      LatestAppend(xs, ys, init, key, completedOnly);
    } else if ys != [] {
      var init := ys[..|ys| - 1];
      assert (xs + ys + zs)[..|xs + ys + zs| - 1] == xs + init + zs;
      assert ys[|ys| - 1] in ys;
      LatestAppend(xs, init, zs, key, completedOnly);
    } else {
      assert xs + ys + zs == xs + zs;
    }
  }

  /** A visit of another lift or month makes no difference to this row. */
  lemma OtherVisitsDontMatter(xs: seq<Visit>, ys: seq<Visit>, zs: seq<Visit>, key: Key)
    requires forall v :: v in ys ==> KeyOf(v) != key
    ensures Fact(xs + ys + zs, key) == Fact(xs + zs, key)
  {
    LatestAppend(xs, ys, zs, key, true);
    LatestAppend(xs, ys, zs, key, false);
  }

  lemma UntouchedFact(visits: seq<Visit>, change: Change, key: Key)
    requires Possible(visits, change) && key !in Touched(visits, change)
    ensures Fact(Changed(visits, change), key) == Fact(visits, key)
  {
    hide Fact;
    match change
    case Create(v) =>
      OtherVisitsDontMatter(visits, [v], [], key);
      assert visits + [v] + [] == visits + [v] && visits + [] == visits;
    case Edit(at, elevator, date, status) =>
      var edited := Visit(visits[at].id, elevator, date, status);
      var keys := Touched(visits, change);
      assert keys[0] == KeyOf(edited) && (KeyOf(visits[at]) == keys[0] || KeyOf(visits[at]) == keys[1]);
      OtherVisitsDontMatter(visits[..at], [visits[at]], visits[at + 1..], key);
      OtherVisitsDontMatter(visits[..at], [edited], visits[at + 1..], key);
      assert visits == visits[..at] + [visits[at]] + visits[at + 1..];
      assert visits[at := edited] == visits[..at] + [edited] + visits[at + 1..];
    case Delete(at) =>
      OtherVisitsDontMatter(visits[..at], [visits[at]], visits[at + 1..], key);
      assert visits == visits[..at] + [visits[at]] + visits[at + 1..];
  }

  lemma {:induction false} SyncedEachAt(st: State, keys: seq<Key>, key: Key)
    requires key in st.rows
    ensures SyncedEach(st, keys).visits == st.visits && SyncedEach(st, keys).rows.Keys == st.rows.Keys
    ensures SyncedEach(st, keys).rows[key] ==
            if key in keys && st.rows[key].status != Cancelled
            then st.rows[key].(status := Fact(st.visits, key).0, visit := Fact(st.visits, key).1) else st.rows[key]
  {
    hide Fact, Latest;
    if keys != [] {
      FactNotCancelled(st.visits, key);
      SyncedEachAt(st, keys[..|keys| - 1], key);
      var last := keys[|keys| - 1];
      assert key in keys <==> key in keys[..|keys| - 1] || key == last;
    }
  }

  lemma FactNotCancelled(visits: seq<Visit>, key: Key)
    ensures Fact(visits, key).0 != Cancelled
  {
  }

  /** Re-syncing only the pairs a change touched is recomputing every row from the surviving visits. */
  lemma TouchedIsEnough(st: State, change: Change)
    requires UpToDate(st) && Possible(st.visits, change)
    ensures WithChange(st, change) == SyncedAll(st.(visits := Changed(st.visits, change)))
    ensures UpToDate(WithChange(st, change))
  {
    hide Fact, Touched, Changed;
    var next := st.(visits := Changed(st.visits, change));
    var touched := Touched(st.visits, change);
    forall key | key in st.rows
      ensures SyncedEach(next, touched).rows.Keys == next.rows.Keys && SyncedEach(next, touched).visits == next.visits
      ensures key in SyncedEach(next, touched).rows
      ensures SyncedEach(next, touched).rows[key] == SyncedAll(next).rows[key]
    {
      RowIsEnough(st, change, key);
    }
    NoRowsAdded(next, touched);
    assert SyncedEach(next, touched).rows == SyncedAll(next).rows;
    ChangeKeepsDistinct(st.visits, change);
    SyncedAllUpToDate(next);
  }

  lemma RowIsEnough(st: State, change: Change, key: Key)
    requires UpToDate(st) && Possible(st.visits, change) && key in st.rows
    ensures var next := st.(visits := Changed(st.visits, change));
            var after := SyncedEach(next, Touched(st.visits, change));
            && after.rows.Keys == next.rows.Keys && after.visits == next.visits
            && after.rows[key] == SyncedAll(next).rows[key]
  {
    hide Fact, RowUpToDate;
    var next := st.(visits := Changed(st.visits, change));
    assert RowUpToDate(st, key);
    if st.rows[key].status != Cancelled {
      RowIsFact(st, key);
    }
    SyncedEachAt(next, Touched(st.visits, change), key);
    if key !in Touched(st.visits, change) {
      UntouchedFact(st.visits, change, key);
    }
  }

  lemma {:induction false} NoRowsAdded(st: State, keys: seq<Key>)
    ensures SyncedEach(st, keys).visits == st.visits && SyncedEach(st, keys).rows.Keys == st.rows.Keys
  {
    hide Fact;
    if keys != [] {
      NoRowsAdded(st, keys[..|keys| - 1]);
    }
  }

  lemma SyncedAllUpToDate(st: State)
    requires DistinctVisits(st.visits)
    ensures UpToDate(SyncedAll(st))
  {
    hide Fact, SaysVisits;
    forall key | key in st.rows
      ensures RowUpToDate(SyncedAll(st), key)
    {
      FactNotCancelled(st.visits, key);
      if st.rows[key].status != Cancelled {
        RowIsFact(SyncedAll(st), key);
      }
    }
  }

  function AfterChanges(st: State, changes: seq<Change>): State
    requires PossibleRun(st, changes)
    decreases |changes|
  {
    if changes == [] then st else AfterChanges(WithChange(st, changes[0]), changes[1..])
  }

  predicate PossibleRun(st: State, changes: seq<Change>)
    decreases |changes|
  {
    changes == [] || (Possible(st.visits, changes[0]) && PossibleRun(WithChange(st, changes[0]), changes[1..]))
  }

  /** Over any run of visit changes every row that is not cancelled is done exactly when a visit of its lift and month is
      completed, by the latest of those, and otherwise planned with the latest attempt. */
  lemma {:induction false} RunStaysUpToDate(st: State, changes: seq<Change>)
    requires UpToDate(st) && PossibleRun(st, changes)
    ensures UpToDate(AfterChanges(st, changes))
    decreases |changes|
  {
    hide WithChange, UpToDate;
    if changes != [] {
      TouchedIsEnough(st, changes[0]);
      RunStaysUpToDate(WithChange(st, changes[0]), changes[1..]);
    }
  }
}
