/** The plan's rows, changed in place (apps/maintenance/services.py). */
module PlanStore {
  import Calendar
  import opened Plan
  import opened PlanGenerator
  import opened Results

  class Store {
    var visits: seq<Visit>
    var rows: map<Key, Row>

    function Contents(): State
      reads this
    {
      State(visits, rows)
    }

    constructor ()
      ensures Contents() == State([], map[])
    {
      visits, rows := [], map[];
    }

    /** Looks through the lift's visits of the month, and saves the row if it changed. */
    method SyncPlannedVisit(elevator: nat, day: Calendar.Day)
      modifies `rows
      ensures Contents() == Synced(old(Contents()), (elevator, day.month))
    {
      var key: Key := (elevator, day.month);
      if key !in rows || rows[key].status == Cancelled {
        return;
      }
      var completed: Option<Visit>, attempt: Option<Visit> := None, None;
      for k := 0 to |visits|
        invariant rows == old(rows)
        invariant completed == Latest(visits[..k], key, true) && attempt == Latest(visits[..k], key, false)
      {
        assert visits[..k + 1][..k] == visits[..k];
        var v := visits[k];
        if v.elevator == elevator && v.date.month == day.month {
          if attempt.None? || Outranks(v, attempt.value) {
            attempt := Some(v);
          }
          if v.status == Completed && (completed.None? || Outranks(v, completed.value)) {
            completed := Some(v);
          }
        }
      }
      assert visits[..|visits|] == visits;
      var status, visit := Planned, None;
      if completed.Some? {
        status, visit := Done, Some(completed.value.id);
      } else if attempt.Some? {
        visit := Some(attempt.value.id);
      }
      var row := rows[key];
      if row.status != status || row.visit != visit {
        rows := rows[key := row.(status := status, visit := visit)];
      }
    }

    method RecordVisit(v: Visit)
      requires Possible(visits, Create(v))
      modifies this
      ensures Contents() == WithChange(old(Contents()), Create(v))
    {
      visits := visits + [v];
      hide Synced;
      OneKey(Contents(), KeyOf(v));
      SyncPlannedVisit(v.elevator, v.date);
    }

    /** An edit that moves the visit to another lift or month re-syncs the row it used to close too. */
    method EditVisit(at: nat, elevator: nat, date: Calendar.Day, status: VisitStatus)
      requires at < |visits|
      modifies this
      ensures Contents() == WithChange(old(Contents()), Edit(at, elevator, date, status))
    {
      var before := visits[at];
      visits := visits[at := Visit(before.id, elevator, date, status)];
      hide Synced;
      OneKey(Contents(), (elevator, date.month));
      TwoKeys(Contents(), (elevator, date.month), KeyOf(before));
      SyncPlannedVisit(elevator, date);
      if KeyOf(before) != (elevator, date.month) {
        SyncPlannedVisit(before.elevator, before.date);
      }
    }

    method DeleteVisit(at: nat)
      requires at < |visits|
      modifies this
      ensures Contents() == WithChange(old(Contents()), Delete(at))
    {
      var gone := visits[at];
      visits := visits[..at] + visits[at + 1..];
      hide Synced;
      OneKey(Contents(), KeyOf(gone));
      SyncPlannedVisit(gone.elevator, gone.date);
    }

    /** One covered lift's row of the month. */
    method Follow(month: nat, lift: Lift)
      modifies `rows
      ensures Contents() == FollowLift(old(Contents()), month, lift)
    {
      var key: Key := (lift.id, month);
      var due := DueDateIn(month, lift.next);
      if key !in rows {
        rows := rows[key := Row(Planned, None, due, lift.technician, false)];
        return;
      }
      var row := rows[key];
      if row.edited {
        assert rows[key := row] == rows;
        return;
      }
      var reopened := row.status == Cancelled;
      if reopened {
        row := row.(status := Planned);
      }
      if row.status == Planned && row.due != due {
        row := row.(due := due);
      }
      if row.status == Planned && row.technician.None? && lift.technician.Some? {
        row := row.(technician := lift.technician);
      }
      rows := rows[key := row];
      if reopened {
        SyncPlannedVisit(lift.id, Calendar.Date(month, 1));
      }
    }

    method PlanMonth(month: nat, lifts: seq<Lift>)
      modifies `rows
      ensures Contents() == ForMonth(old(Contents()), month, lifts)
    {
      hide FollowLift;
      for k := 0 to |lifts|
        invariant Contents() == FollowLifts(old(Contents()), month, lifts[..k])
      {
        assert lifts[..k + 1][..k] == lifts[..k];
        Follow(month, lifts[k]);
      }
      assert lifts[..|lifts|] == lifts;
      ghost var followed := Contents();
      CancelLost(month, lifts);
    }

    method CancelLost(month: nat, lifts: seq<Lift>)
      modifies `rows
      ensures Contents() == CancelUncovered(old(Contents()), month, lifts)
    {
      hide LostCover;
      var left := rows.Keys;
      while left != {}
        invariant left <= rows.Keys == old(rows).Keys
        invariant forall key :: key in rows ==>
                    rows[key] == if key !in left && LostCover(lifts, month, key, old(rows)[key])
                                 then old(rows)[key].(status := Cancelled) else old(rows)[key]
        decreases |left|
      {
        var key :| key in left;
        if LostCover(lifts, month, key, rows[key]) {
          rows := rows[key := rows[key].(status := Cancelled)];
        }
        left := left - {key};
      }
      assert rows == CancelUncovered(old(Contents()), month, lifts).rows;
    }

    /** The daily job. */
    method Generate(thisMonth: nat, lifts: seq<Lift>)
      modifies `rows
      ensures Contents() == GeneratePlan(old(Contents()), thisMonth, lifts)
    {
      hide ForMonth;
      PlanMonth(thisMonth, lifts);
      PlanMonth(thisMonth + 1, lifts);
    }
  }

  lemma OneKey(st: State, key: Key)
    ensures SyncedEach(st, [key]) == Synced(st, key)
  {
    assert [key][..0] == [];
    assert SyncedEach(st, [key][..0]) == st;
  }

  lemma TwoKeys(st: State, a: Key, b: Key)
    ensures SyncedEach(st, [a, b]) == Synced(Synced(st, a), b)
  {
    OneKey(st, a);
    assert [a, b][..1] == [a];
  }
}
