/** What the runs do to a single reservation: its path through the statuses and the shape of its row. */
module Lifecycle {
  import opened Clock
  import opened Reservation
  import opened Protocol

  /** The documented transitions. */
  predicate Edge(a: Status, b: Status) {
    || (a == Pending && b in {Confirmed, Cancelled, Expired})
    || (a == Confirmed && b in {Active, Cancelled, Expired})
    || (a == Active && b == Completed)
  }

  predicate Terminal(a: Status) {
    a in {Completed, Cancelled, Expired}
  }

  function Rank(a: Status): nat {
    match a
    case Pending => 0
    case Confirmed => 1
    case Active => 2
    case _ => 3
  }

  predicate SameIdentity(a: Row, b: Row) {
    a.driver == b.driver && a.spot == b.spot && a.key == b.key && a.mode == b.mode
  }

  /** One operation leaves a row alone or moves it along one documented edge; it never drops a row. */
  lemma StepFollowsEdges(d: Desk, clock: Time, s: Step, id: string)
    requires CanStep(d, clock, s) && id in d.rows
    ensures id in Apply(d, s).rows
    ensures var row, next := d.rows[id], Apply(d, s).rows[id];
            SameIdentity(row, next) && (next == row || Edge(row.status, next.status))
  {
  }

  /** Statuses reachable along the documented edges. */
  predicate Leads(a: Status, b: Status) {
    a == b || Edge(a, b) || (exists m :: Edge(a, m) && Edge(m, b)) || (a == Pending && b == Completed)
  }

  lemma LeadsAfterEdge(a: Status, b: Status, c: Status)
    requires Edge(a, b) && Leads(b, c)
    ensures Leads(a, c)
  {
  }

  /** How many operations of the run change the row. */
  ghost function Changes(d: Desk, steps: seq<Step>, id: string): nat
    decreases |steps|
  {
    if steps == [] then 0
    else
      var next := Apply(d, steps[0]);
      (if id in d.rows && id in next.rows && next.rows[id] != d.rows[id] then 1 else 0) + Changes(next, steps[1..], id)
  }

  /** Over any run a reservation stays, keeps its driver, spot and key, moves only forward along documented edges,
      is frozen once terminal, and changes at most as often as its rank rises. */
  lemma {:induction false} RunFollowsEdges(d: Desk, clock: Time, steps: seq<Step>, id: string)
    requires Legal(d, clock, steps) && id in d.rows
    ensures id in Exec(d, steps).rows
    ensures var row, last := d.rows[id], Exec(d, steps).rows[id];
            && SameIdentity(row, last) && Leads(row.status, last.status)
            && (Terminal(row.status) ==> last == row)
            && Changes(d, steps, id) + Rank(row.status) <= Rank(last.status)
    decreases |steps|
  {
    if steps != [] {
      var next := Apply(d, steps[0]);
      StepFollowsEdges(d, clock, steps[0], id);
      RunFollowsEdges(next, End(steps[0]), steps[1..], id);
      if next.rows[id] != d.rows[id] {
        LeadsAfterEdge(d.rows[id].status, next.rows[id].status, Exec(d, steps).rows[id].status);
      }
    }
  }

  /** A row created during the run changes at most three times after. */
  lemma {:induction false} AtMostThreeChanges(d: Desk, clock: Time, steps: seq<Step>, id: string)
    requires Legal(d, clock, steps)
    ensures Changes(d, steps, id) <= 3
    decreases |steps|
  {
    if id in d.rows {
      RunFollowsEdges(d, clock, steps, id);
    } else if steps != [] {
      AtMostThreeChanges(Apply(d, steps[0]), End(steps[0]), steps[1..], id);
    }
  }

  ghost function TotalChanges(d: Desk, steps: seq<Step>, ids: set<string>): nat {
    if ids == {} then 0 else var id :| id in ids; Changes(d, steps, id) + TotalChanges(d, steps, ids - {id})
  }

  /** n reservations undergo at most 3n effective transitions, however long the run. */
  lemma {:induction false} TransitionBudget(d: Desk, clock: Time, steps: seq<Step>, ids: set<string>)
    requires Legal(d, clock, steps)
    ensures TotalChanges(d, steps, ids) <= 3 * |ids|
    decreases ids
  {
    if ids != {} {
      var id :| id in ids && TotalChanges(d, steps, ids) ==
                             Changes(d, steps, id) + TotalChanges(d, steps, ids - {id});
      AtMostThreeChanges(d, clock, steps, id);
      TransitionBudget(d, clock, steps, ids - {id});
    }
  }

  // ---- Row shape ----

  /** The dates a row carries in each status; a check-in may overshoot the hold by what its second clock reading
      trails the first. */
  predicate Shape(row: Row, now: Time, slack: int) {
    && row.confirmedAt <= now
    && (row.status == Pending ==> row.expiresAt == row.confirmedAt + PAYMENT_TIMEOUT)
    && (row.status in {Confirmed, Active, Completed} ==> row.expiresAt == row.confirmedAt + HOLD_DURATION)
    && (row.status in {Cancelled, Expired} ==> row.expiresAt - row.confirmedAt in {PAYMENT_TIMEOUT, HOLD_DURATION})
    && (row.checkInAt.Some? <==> row.status in {Active, Completed})
    && (row.session.Some? <==> row.status in {Active, Completed})
    && (row.checkInAt.Some? ==>
          row.confirmedAt <= row.checkInAt.value <= row.expiresAt + slack && row.checkInAt.value <= now)
    && (row.checkOutAt.Some? <==> row.status == Completed)
    && (row.checkOutAt.Some? ==> row.checkInAt.value <= row.checkOutAt.value <= now)
    && (row.cancelledAt.Some? <==> row.status == Cancelled)
    && (row.cancelledAt.Some? ==> row.confirmedAt <= row.cancelledAt.value <= now)
  }

  ghost predicate Shaped(d: Desk, now: Time, slack: int) {
    forall id | id in d.rows :: Shape(d.rows[id], now, slack)
  }

  predicate PromptCheckIn(s: Step, slack: int) {
    s.DoCheckIn? ==> s.checkIn.stampAt - s.checkIn.guardAt <= slack
  }

  lemma StepKeepsShape(d: Desk, clock: Time, s: Step, slack: int)
    requires slack >= 0 && Shaped(d, clock, slack) && CanStep(d, clock, s) && PromptCheckIn(s, slack)
    ensures Shaped(Apply(d, s), End(s), slack)
  {
    var after := Apply(d, s);
    forall id | id in after.rows ensures Shape(after.rows[id], End(s), slack) {
      if id in d.rows {
        assert Shape(d.rows[id], clock, slack);
        ShapeStep(d, clock, s, id, slack);
      }
    }
  }

  lemma ShapeStep(d: Desk, clock: Time, s: Step, id: string, slack: int)
    requires slack >= 0 && CanStep(d, clock, s) && PromptCheckIn(s, slack)
    requires id in d.rows && Shape(d.rows[id], clock, slack)
    ensures id in Apply(d, s).rows && Shape(Apply(d, s).rows[id], End(s), slack)
  {
    if s.DoCheckIn? || s.DoCheckOut? || s.DoCancel? {
      VisitShapeStep(d, clock, s, id, slack);
    }
  }

  lemma VisitShapeStep(d: Desk, clock: Time, s: Step, id: string, slack: int)
    requires slack >= 0 && CanStep(d, clock, s) && PromptCheckIn(s, slack)
    requires s.DoCheckIn? || s.DoCheckOut? || s.DoCancel?
    requires id in d.rows && Shape(d.rows[id], clock, slack)
    ensures id in Apply(d, s).rows && Shape(Apply(d, s).rows[id], End(s), slack)
  {
  }

  lemma {:induction false} RunKeepsShape(d: Desk, clock: Time, steps: seq<Step>, slack: int)
    requires slack >= 0 && Shaped(d, clock, slack) && Legal(d, clock, steps)
    requires forall s | s in steps :: PromptCheckIn(s, slack)
    ensures Shaped(Exec(d, steps), ClockAfter(clock, steps), slack)
    decreases |steps|
  {
    if steps != [] {
      StepKeepsShape(d, clock, steps[0], slack);
      RunKeepsShape(Apply(d, steps[0]), End(steps[0]), steps[1..], slack);
    }
  }

  /** The UNIQUE key survives every run. */
  lemma {:induction false} RunKeepsKeysUnique(d: Desk, clock: Time, steps: seq<Step>)
    requires KeysUnique(d.rows) && Legal(d, clock, steps)
    ensures KeysUnique(Exec(d, steps).rows)
    decreases |steps|
  {
    if steps != [] {
      var next := Apply(d, steps[0]);
      forall i, j | i in next.rows && j in next.rows && next.rows[i].key == next.rows[j].key ensures i == j {
        if i in d.rows { StepFollowsEdges(d, clock, steps[0], i); }
        if j in d.rows { StepFollowsEdges(d, clock, steps[0], j); }
      }
      RunKeepsKeysUnique(next, End(steps[0]), steps[1..]);
    }
  }
}
