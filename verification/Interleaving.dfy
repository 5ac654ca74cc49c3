/** The reservation service statement by statement: checks, lock, INSERT, reads, UPDATEs, releases and saves of any
    number of calls with anything in between. What interleaving breaks, and exactly when it breaks nothing. */
module Interleaving {
  import opened Clock
  import opened Wrappers
  import opened Lock
  import opened Reservation
  import opened Protocol
  import Exclusivity
  import Idempotency
  import Lifecycle
  import Redis

  datatype Op = Cancelling | CheckingIn(session: string) | CheckingOut(key: string) | Expiring

  /** Where a handler stands between two statements. The expiry job is one handler for each row it lists. */
  datatype Handler =
    | AtLookup(q: CreateRequest)
    | AtAcquire(q: CreateRequest, spot: string)
    | AtInsert(q: CreateRequest, spot: string, since: Time)
    | AtRead(op: Op, id: string, driver: string)
    | AtUpdate(op: Op, id: string, spot: string)
    | AtRelease(id: string, spot: string, save: Option<string>)
    | AtSave(key: string, id: string)
    | Done

  datatype State = State(desk: Desk, handlers: map<nat, Handler>)

  /** A new call, the next statement of a call, or a whole operation that nothing interrupts. */
  datatype Action =
    | Ask(h: nat, q: CreateRequest)
    | Arrive(h: nat, op: Op, id: string, driver: string)
    | Advance(h: nat, now: Time, up: bool)
    | Serial(step: Step)

  /** The statuses an operation checks for when it reads the row. */
  predicate Allows(op: Op, status: Status) {
    match op
    case Cancelling => status in {Confirmed, Pending}
    case CheckingIn(_) => status == Confirmed
    case CheckingOut(_) => status == Active
    case Expiring => status in {Confirmed, Pending}
  }

  predicate Passes(op: Op, row: Row, driver: string, now: Time) {
    && Allows(op, row.status)
    && (op.Expiring? || row.driver == driver)
    && (op.CheckingIn? ==> now <= row.expiresAt)
    && (op.Expiring? ==> row.expiresAt < now)
  }

  /** A check-out first looks its key up in the cache. */
  predicate Cached(d: Desk, op: Op, now: Time) {
    op.CheckingOut? && Redis.Live(d.redis, Idempotency.CacheKey(op.key), now)
  }

  /** The UPDATE, which checks nothing. */
  function Updated(op: Op, rows: Table, id: string, now: Time): Table {
    match op
    case Cancelling => SetCancelled(rows, id, now)
    case CheckingIn(session) => SetCheckedIn(rows, id, session, now)
    case CheckingOut(_) => SetCheckedOut(rows, id, now)
    case Expiring => SetStatus(rows, id, Expired)
  }

  function AfterUpdate(op: Op, id: string, spot: string): Handler {
    match op
    case CheckingIn(_) => Done
    case CheckingOut(key) => AtRelease(id, spot, Some(key))
    case _ => AtRelease(id, spot, None)
  }

  /** The next statement of a handler. A lookup, lock, read or UPDATE that fails ends the call. */
  function Next(d: Desk, handler: Handler, now: Time, up: bool): (Desk, Handler) {
    match handler
    case AtLookup(q) =>
      (d, if up && !Redis.Live(d.redis, Idempotency.CacheKey(q.key), now) && q.spot.Some?
          then AtAcquire(q, q.spot.value) else Done)
    case AtAcquire(q, spot) =>
      if up && !Redis.Live(d.redis, LockKey(spot), now)
      then (d.(redis := Redis.Put(d.redis, LockKey(spot), q.id, PAYMENT_TIMEOUT, now)), AtInsert(q, spot, now))
      else (d, Done)
    case AtInsert(q, spot, _) =>
      if up && CanInsert(d.rows, q.id, NewRow(q, spot, now))
      then (d.(rows := d.rows[q.id := NewRow(q, spot, now)]), AtSave(q.key, q.id))
      else (d, AtRelease(q.id, spot, None))
    case AtRead(op, id, driver) =>
      (d, if up && !Cached(d, op, now) && id in d.rows && Passes(op, d.rows[id], driver, now)
          then AtUpdate(op, id, d.rows[id].spot) else Done)
    case AtUpdate(op, id, spot) =>
      if up then (d.(rows := Updated(op, d.rows, id, now)), AfterUpdate(op, id, spot)) else (d, Done)
    case AtRelease(id, spot, save) =>
      (d.(redis := Released(d.redis, LockKey(spot), id, up)), if save.Some? then AtSave(save.value, id) else Done)
    case AtSave(key, id) =>
      (if up then d.(redis := Redis.Put(d.redis, Idempotency.CacheKey(key), id, DEFAULT_TTL, now)) else d, Done)
    case Done => (d, Done)
  }

  ghost function Do(s: State, a: Action): State {
    match a
    case Ask(h, q) => if h in s.handlers then s else s.(handlers := s.handlers[h := AtLookup(q)])
    case Arrive(h, op, id, driver) =>
      if h in s.handlers then s else s.(handlers := s.handlers[h := AtRead(op, id, driver)])
    case Advance(h, now, up) =>
      if h !in s.handlers then s
      else var (desk, handler) := Next(s.desk, s.handlers[h], now, up); State(desk, s.handlers[h := handler])
    case Serial(step) => s.(desk := Protocol.Apply(s.desk, step))
  }

  function End(clock: Time, a: Action): Time {
    match a
    case Ask(_, _) => clock
    case Arrive(_, _, _, _) => clock
    case Advance(_, now, _) => now
    case Serial(step) => Protocol.End(step)
  }

  /** The handler is making the reservation. */
  predicate Making(handler: Handler, id: string) {
    match handler
    case AtLookup(q) => q.id == id
    case AtAcquire(q, _) => q.id == id
    case AtInsert(q, _, _) => q.id == id
    case _ => false
  }

  /** The handler is making the reservation, or about to give its lock back. */
  predicate Claims(handler: Handler, id: string) {
    Making(handler, id) || (handler.AtRelease? && handler.id == id)
  }

  ghost predicate Unclaimed(s: State, id: string) {
    forall h | h in s.handlers :: !Claims(s.handlers[h], id)
  }

  /** Clock readings never go back, and a drawn uuid is new to the table, the locks and the calls under way. */
  ghost predicate CanDo(s: State, clock: Time, a: Action) {
    match a
    case Ask(_, q) => Fresh(s.desk, q.id) && q.spot != Some("") && Unclaimed(s, q.id)
    case Arrive(_, _, _, _) => true
    case Advance(_, now, _) => clock <= now
    case Serial(step) => CanStep(s.desk, clock, step) && (step.DoCreate? ==> Unclaimed(s, step.q.id))
  }

  ghost function Run(s: State, actions: seq<Action>): State
    decreases |actions|
  {
    if actions == [] then s else Run(Do(s, actions[0]), actions[1..])
  }

  function ClockAfter(clock: Time, actions: seq<Action>): Time
    decreases |actions|
  {
    if actions == [] then clock else ClockAfter(End(clock, actions[0]), actions[1..])
  }

  ghost predicate Legal(s: State, clock: Time, actions: seq<Action>)
    decreases |actions|
  {
    actions != [] ==> CanDo(s, clock, actions[0]) && Legal(Do(s, actions[0]), End(clock, actions[0]), actions[1..])
  }

  const START: State := State(EMPTY, map[])

  // ---- Run alone, the statements are the operation ----

  lemma CreateIsASchedule(s: State, h: nat, q: CreateRequest, io: CreateIo)
    requires h !in s.handlers
    ensures var asked := Do(Do(s, Ask(h, q)), Advance(h, io.checkAt, io.checkUp && io.lookupUp));
            var locked := Do(asked, Advance(h, io.acquireAt, io.acquireUp));
            var inserted := Do(locked, Advance(h, io.stampAt, io.insertUp));
            var up := if inserted.handlers[h].AtSave? then io.saveUp else io.releaseUp;
            Do(inserted, Advance(h, io.stampAt, up)).desk == Create(s.desk, q, io).desk
  {
  }

  lemma CancelIsASchedule(s: State, h: nat, id: string, driver: string, io: CancelIo)
    requires h !in s.handlers
    ensures var read := Do(Do(s, Arrive(h, Cancelling, id, driver)), Advance(h, io.now, io.getUp));
            Do(Do(read, Advance(h, io.now, io.updateUp)), Advance(h, io.now, io.releaseUp)).desk ==
            Cancel(s.desk, id, driver, io).desk
  {
  }

  lemma CheckInIsASchedule(s: State, h: nat, id: string, driver: string, session: string, io: CheckInIo)
    requires h !in s.handlers
    ensures var read := Do(Do(s, Arrive(h, CheckingIn(session), id, driver)), Advance(h, io.guardAt, io.getUp));
            Do(read, Advance(h, io.stampAt, io.updateUp)).desk == CheckIn(s.desk, id, driver, session, io).desk
  {
  }

  lemma CheckOutIsASchedule(s: State, h: nat, id: string, driver: string, key: string, io: CheckOutIo)
    requires h !in s.handlers
    ensures var arrived := Do(s, Arrive(h, CheckingOut(key), id, driver));
            var read := Do(arrived, Advance(h, io.checkAt, io.checkUp && io.getUp));
            var updated := Do(read, Advance(h, io.stampAt, io.updateUp));
            Do(Do(updated, Advance(h, io.stampAt, io.releaseUp)), Advance(h, io.stampAt, io.saveUp)).desk ==
            CheckOut(s.desk, id, driver, key, io).desk
  {
  }

  /** The three statements of the expiry job for one row. */
  ghost function ExpireOne(s: State, h: nat, id: string, now: Time, updateUp: bool, releaseUp: bool): State {
    var read := Do(Do(s, Arrive(h, Expiring, id, "")), Advance(h, now, true));
    Do(Do(read, Advance(h, now, updateUp)), Advance(h, now, releaseUp))
  }

  /** For a row the job lists they do what the sweep of that row alone does. */
  lemma ExpiryIsASchedule(s: State, h: nat, id: string, now: Time, updateFails: set<string>, releaseFails: set<string>)
    requires h !in s.handlers && id in s.desk.rows && Lapsed(s.desk.rows[id], now)
    ensures ExpireOne(s, h, id, now, id !in updateFails, id !in releaseFails).desk ==
            SweepIds(s.desk, {id}, updateFails, releaseFails)
  {
    SweepOne(s.desk, id, updateFails, releaseFails);
  }

  lemma SweepOne(d: Desk, id: string, updateFails: set<string>, releaseFails: set<string>)
    requires id in d.rows
    ensures SweepIds(d, {id}, updateFails, releaseFails) ==
            if id in updateFails then d
            else Desk(SetStatus(d.rows, id, Expired),
                      Released(d.redis, LockKey(d.rows[id].spot), id, id !in releaseFails))
  {
    var key := LockKey(d.rows[id].spot);
    var freed := FreedLocks(d, {id}, updateFails, releaseFails);
    assert freed == if id !in updateFails + releaseFails && key in d.redis && d.redis[key].value == id
                    then {key} else {};
    assert ExpireRows(d.rows, {id}, updateFails) ==
           if id in updateFails then d.rows else SetStatus(d.rows, id, Expired);
  }

  // ---- Which UPDATEs follow the documented edges ----

  /** The action executes an UPDATE of the row. */
  ghost predicate Updates(s: State, a: Action, id: string) {
    a.Advance? && a.up && a.h in s.handlers && s.handlers[a.h].AtUpdate? && s.handlers[a.h].id == id
  }

  /** Its row still has a status the operation checked for. */
  ghost predicate StillAllowed(s: State, a: Action) {
    forall id | id in s.desk.rows && Updates(s, a, id) :: Allows(s.handlers[a.h].op, s.desk.rows[id].status)
  }

  ghost predicate AllStillAllowed(s: State, actions: seq<Action>)
    decreases |actions|
  {
    actions != [] ==> StillAllowed(s, actions[0]) && AllStillAllowed(Do(s, actions[0]), actions[1..])
  }

  /** No row is dropped, every UPDATE moves its row along a documented edge, and any other row that changes does too. */
  ghost predicate FollowsEdges(s: State, a: Action) {
    forall id | id in s.desk.rows ::
      && id in Do(s, a).desk.rows
      && (var row, next := s.desk.rows[id], Do(s, a).desk.rows[id];
          && Lifecycle.SameIdentity(row, next)
          && (Lifecycle.Edge(row.status, next.status) || (next == row && !Updates(s, a, id))))
  }

  ghost predicate AllFollowEdges(s: State, actions: seq<Action>)
    decreases |actions|
  {
    actions != [] ==> FollowsEdges(s, actions[0]) && AllFollowEdges(Do(s, actions[0]), actions[1..])
  }

  lemma SerialFollowsEdges(s: State, clock: Time, step: Step)
    requires CanStep(s.desk, clock, step)
    ensures FollowsEdges(s, Serial(step))
  {
    forall id | id in s.desk.rows
      ensures id in Do(s, Serial(step)).desk.rows
      ensures var row, next := s.desk.rows[id], Do(s, Serial(step)).desk.rows[id];
              Lifecycle.SameIdentity(row, next) && (Lifecycle.Edge(row.status, next.status) || next == row)
    {
      Lifecycle.StepFollowsEdges(s.desk, clock, step, id);
    }
  }

  /** An UPDATE moves its row along an edge exactly if the row has a status its operation checks for. */
  lemma UpdateFollowsEdgeIff(op: Op, rows: Table, id: string, now: Time)
    requires id in rows
    ensures var after := Updated(op, rows, id, now);
            && id in after && after == rows[id := after[id]] && Lifecycle.SameIdentity(rows[id], after[id])
            && (Lifecycle.Edge(rows[id].status, after[id].status) <==> Allows(op, rows[id].status))
  {
  }

  /** An action follows the edges exactly if, when it updates a row, that row's status is still one to update. */
  lemma ActionFollowsEdgesIff(s: State, clock: Time, a: Action)
    requires CanDo(s, clock, a)
    ensures FollowsEdges(s, a) <==> StillAllowed(s, a)
  {
    if a.Serial? {
      SerialFollowsEdges(s, clock, a.step);
    } else if a.Advance? && a.h in s.handlers && s.handlers[a.h].AtUpdate? && s.handlers[a.h].id in s.desk.rows {
      UpdateFollowsEdgeIff(s.handlers[a.h].op, s.desk.rows, s.handlers[a.h].id, a.now);
    }
  }

  /** Over any interleaving, all changes follow the documented edges if and only if every UPDATE comes while its row
      still has a status that its operation allows. */
  lemma {:induction false} EdgesIffStillAllowed(s: State, clock: Time, actions: seq<Action>)
    requires Legal(s, clock, actions)
    ensures AllFollowEdges(s, actions) <==> AllStillAllowed(s, actions)
    decreases |actions|
  {
    if actions != [] {
      ActionFollowsEdgesIff(s, clock, actions[0]);
      EdgesIffStillAllowed(Do(s, actions[0]), End(clock, actions[0]), actions[1..]);
    }
  }

  // ---- And then the spots stay exclusive ----

  /** The lock taken at `since` is still the new reservation's, or the payment timeout has passed. */
  predicate Leased(d: Desk, id: string, spot: string, since: Time, now: Time) {
    var key := LockKey(spot);
    && since <= now
    && ((key in d.redis && d.redis[key].value == id && d.redis[key].deadline >= since + PAYMENT_TIMEOUT)
        || since + PAYMENT_TIMEOUT <= now)
  }

  /** A handler making a reservation is the first to use its id and keeps its lock; any other knows its row's spot, and
      by the time it releases the lock the row is out of hold. */
  predicate Sure(d: Desk, handler: Handler, now: Time) {
    match handler
    case AtLookup(q) => q.id !in d.rows && q.spot != Some("")
    case AtAcquire(q, spot) => q.id !in d.rows && spot != ""
    case AtInsert(q, spot, since) => q.id !in d.rows && spot != "" && Leased(d, q.id, spot, since, now)
    case AtUpdate(_, id, spot) => id in d.rows && d.rows[id].spot == spot
    case AtRelease(id, spot, _) => id in d.rows ==> d.rows[id].spot == spot && !InHold(d.rows[id])
    case _ => true
  }

  /** No other handler claims a reservation that one is making. */
  ghost predicate OwnIds(s: State) {
    forall g, h, id | g in s.handlers && h in s.handlers && g != h ::
      Making(s.handlers[g], id) ==> !Claims(s.handlers[h], id)
  }

  ghost predicate Inv(s: State, now: Time, slack: int) {
    && HoldInv(s.desk, now, slack) && OwnIds(s)
    && (forall h | h in s.handlers :: Sure(s.desk, s.handlers[h], now))
  }

  /** The serial steps are prompt, and a creation dates its row at most slack after taking the lock. */
  predicate PromptAction(s: State, a: Action, slack: int) {
    match a
    case Serial(step) => Prompt(s.desk, step, slack)
    case Advance(h, now, _) => h in s.handlers && s.handlers[h].AtInsert? ==> now - s.handlers[h].since <= slack
    case _ => true
  }

  ghost predicate AllPrompt(s: State, actions: seq<Action>, slack: int)
    decreases |actions|
  {
    actions != [] ==> PromptAction(s, actions[0], slack) && AllPrompt(Do(s, actions[0]), actions[1..], slack)
  }

  // Holds.

  lemma AcquireKeepsHolds(d: Desk, clock: Time, now: Time, spot: string, id: string, slack: int)
    requires HoldInv(d, clock, slack) && clock <= now && !Redis.Live(d.redis, LockKey(spot), now)
    ensures HoldInv(d.(redis := Redis.Put(d.redis, LockKey(spot), id, PAYMENT_TIMEOUT, now)), now, slack)
  {
    var after := d.(redis := Redis.Put(d.redis, LockKey(spot), id, PAYMENT_TIMEOUT, now));
    forall other | other in after.rows && InHold(after.rows[other]) && now < after.rows[other].expiresAt - slack
      ensures Covered(after, other, slack)
    {
      assert Covered(d, other, slack);
      assert LockKey(d.rows[other].spot) != LockKey(spot);
    }
  }

  lemma InsertKeepsHolds(d: Desk, clock: Time, now: Time, q: CreateRequest, spot: string, since: Time, slack: int)
    requires HoldInv(d, clock, slack) && clock <= now && q.id !in d.rows && spot != ""
    requires Leased(d, q.id, spot, since, clock) && now - since <= slack
    ensures HoldInv(d.(rows := d.rows[q.id := NewRow(q, spot, now)]), now, slack)
  {
    var after := d.(rows := d.rows[q.id := NewRow(q, spot, now)]);
    forall other | other in after.rows && InHold(after.rows[other]) && now < after.rows[other].expiresAt - slack
      ensures Covered(after, other, slack)
    {
      if other != q.id {
        assert Covered(d, other, slack);
      }
    }
  }

  /** Reads, UPDATEs, releases and saves start no hold. */
  lemma OtherStatementKeepsHolds(s: State, clock: Time, a: Action, slack: int)
    requires a.Advance? && Inv(s, clock, slack) && CanDo(s, clock, a) && StillAllowed(s, a)
    requires a.h in s.handlers && !s.handlers[a.h].AtAcquire? && !s.handlers[a.h].AtInsert?
    ensures HoldInv(Do(s, a).desk, a.now, slack)
  {
    assert Sure(s.desk, s.handlers[a.h], clock);
    HoldsSurvive(s.desk, clock, Do(s, a).desk, a.now, slack);
  }

  lemma StatementKeepsHolds(s: State, clock: Time, a: Action, slack: int)
    requires a.Advance? && Inv(s, clock, slack) && CanDo(s, clock, a) && StillAllowed(s, a) && PromptAction(s, a, slack)
    ensures HoldInv(Do(s, a).desk, a.now, slack)
  {
    if a.h !in s.handlers {
      HoldsSurvive(s.desk, clock, s.desk, a.now, slack);
    } else if s.handlers[a.h].AtAcquire? {
      HoldsSurvive(s.desk, clock, s.desk, a.now, slack);
      if !Redis.Live(s.desk.redis, LockKey(s.handlers[a.h].spot), a.now) {
        AcquireKeepsHolds(s.desk, clock, a.now, s.handlers[a.h].spot, s.handlers[a.h].q.id, slack);
      }
    } else if s.handlers[a.h].AtInsert? {
      var AtInsert(q, spot, since) := s.handlers[a.h];
      assert Sure(s.desk, s.handlers[a.h], clock);
      HoldsSurvive(s.desk, clock, s.desk, a.now, slack);
      InsertKeepsHolds(s.desk, clock, a.now, q, spot, since, slack);
    } else {
      OtherStatementKeepsHolds(s, clock, a, slack);
    }
  }

  lemma ActionKeepsHolds(s: State, clock: Time, a: Action, slack: int)
    requires slack >= 0 && Inv(s, clock, slack)
    requires CanDo(s, clock, a) && StillAllowed(s, a) && PromptAction(s, a, slack)
    ensures HoldInv(Do(s, a).desk, End(clock, a), slack)
  {
    match a
    case Ask(_, _) =>
    case Arrive(_, _, _, _) =>
    case Advance(_, _, _) => StatementKeepsHolds(s, clock, a, slack);
    case Serial(step) => StepKeepsHolds(s.desk, clock, step, slack);
  }

  // Leases.

  /** No whole operation takes a lease away from a reservation that is not in the table yet. */
  lemma SerialKeepsLease(d: Desk, clock: Time, step: Step, id: string, spot: string, since: Time)
    requires CanStep(d, clock, step) && id !in d.rows && Leased(d, id, spot, since, clock)
    ensures Leased(Protocol.Apply(d, step), id, spot, since, Protocol.End(step))
  {
    match step
    case DoCreate(_, _) => CreateKeepsLease(d, clock, step, id, spot, since);
    case DoSweep(_, _, _) => SweepKeepsLease(d, clock, step, id, spot, since);
    case DoConfirmPaid(_, _) =>
    case DoConfirmDirect(_, _) =>
    case _ => LeavingKeepsLease(d, clock, step, id, spot, since);
  }

  lemma CreateKeepsLease(d: Desk, clock: Time, step: Step, id: string, spot: string, since: Time)
    requires step.DoCreate? && CanStep(d, clock, step) && id !in d.rows && Leased(d, id, spot, since, clock)
    ensures Leased(Protocol.Apply(d, step), id, spot, since, Protocol.End(step))
  {
    if step.q.spot.Some? && LockKey(step.q.spot.value) == LockKey(spot) {
      assert !Redis.Live(d.redis, LockKey(spot), step.create.acquireAt) || Protocol.Apply(d, step) == d;
    }
  }

  lemma SweepKeepsLease(d: Desk, clock: Time, step: Step, id: string, spot: string, since: Time)
    requires step.DoSweep? && CanStep(d, clock, step) && id !in d.rows && Leased(d, id, spot, since, clock)
    ensures Leased(Protocol.Apply(d, step), id, spot, since, Protocol.End(step))
  {
  }

  lemma LeavingKeepsLease(d: Desk, clock: Time, step: Step, id: string, spot: string, since: Time)
    requires step.DoCancel? || step.DoCheckIn? || step.DoCheckOut? || step.DoHistory? || step.DoForeign?
    requires CanStep(d, clock, step) && id !in d.rows && Leased(d, id, spot, since, clock)
    ensures Leased(Protocol.Apply(d, step), id, spot, since, Protocol.End(step))
  {
  }

  /** Nor does a statement of another call. */
  lemma StatementKeepsLease(d: Desk, clock: Time, handler: Handler, now: Time, up: bool,
                            id: string, spot: string, since: Time)
    requires clock <= now && !Claims(handler, id) && Leased(d, id, spot, since, clock)
    ensures Leased(Next(d, handler, now, up).0, id, spot, since, now)
  {
  }

  // Handlers.

  lemma OwnIdsStay(s: State, clock: Time, a: Action)
    requires CanDo(s, clock, a) && OwnIds(s) && forall h | h in s.handlers :: Sure(s.desk, s.handlers[h], clock)
    ensures OwnIds(Do(s, a))
  {
    var t := Do(s, a);
    forall g, h, id | g in t.handlers && h in t.handlers && g != h && Making(t.handlers[g], id)
      ensures !Claims(t.handlers[h], id)
    {
      ClaimsStay(s, a, g, id);
      ClaimsStay(s, a, h, id);
      assert g in s.handlers ==> Sure(s.desk, s.handlers[g], clock);
      assert h in s.handlers ==> Sure(s.desk, s.handlers[h], clock);
    }
  }

  /** A handler claims only what it claimed before, what a new request asks for, or a row that it read. */
  lemma ClaimsStay(s: State, a: Action, h: nat, id: string)
    requires h in Do(s, a).handlers
    ensures Making(Do(s, a).handlers[h], id) ==>
              (h in s.handlers && Making(s.handlers[h], id)) || (h !in s.handlers && a.Ask? && a.h == h && a.q.id == id)
    ensures Claims(Do(s, a).handlers[h], id) ==>
              || (h in s.handlers && Claims(s.handlers[h], id))
              || (h !in s.handlers && a.Ask? && a.h == h && a.q.id == id)
              || (h in s.handlers && s.handlers[h].AtUpdate? && s.handlers[h].id == id)
  {
  }

  /** Only a creation adds a row: a whole one, or another handler's INSERT of the reservation it is making. */
  lemma NewRows(s: State, clock: Time, a: Action, id: string)
    requires CanDo(s, clock, a) && id in Do(s, a).desk.rows && id !in s.desk.rows
    ensures (a.Serial? && a.step.DoCreate? && a.step.q.id == id)
            || (a.Advance? && a.h in s.handlers && Making(s.handlers[a.h], id))
  {
  }

  /** A handler that does not move stays sure of what it knows. */
  lemma BystanderSure(s: State, clock: Time, a: Action, h: nat)
    requires h in s.handlers && !(a.Advance? && a.h == h) && OwnIds(s) && Sure(s.desk, s.handlers[h], clock)
    requires CanDo(s, clock, a) && FollowsEdges(s, a)
    ensures Sure(Do(s, a).desk, s.handlers[h], End(clock, a))
  {
    var d := Do(s, a).desk;
    forall id | Claims(s.handlers[h], id) && id in d.rows ensures id in s.desk.rows {
      if id !in s.desk.rows {
        NewRows(s, clock, a, id);
      }
    }
    if s.handlers[h].AtInsert? {
      var AtInsert(q, spot, since) := s.handlers[h];
      assert Making(s.handlers[h], q.id);
      if a.Serial? {
        SerialKeepsLease(s.desk, clock, a.step, q.id, spot, since);
      } else if a.Advance? && a.h in s.handlers {
        StatementKeepsLease(s.desk, clock, s.handlers[a.h], a.now, a.up, q.id, spot, since);
      }
    }
  }

  /** The handler that moves is sure of what it goes on with. */
  lemma MoverSure(s: State, clock: Time, a: Action)
    requires a.Advance? && a.h in s.handlers && Sure(s.desk, s.handlers[a.h], clock)
    requires CanDo(s, clock, a) && FollowsEdges(s, a)
    ensures Sure(Do(s, a).desk, Do(s, a).handlers[a.h], a.now)
  {
    if s.handlers[a.h].AtUpdate? && a.up {
      assert Updates(s, a, s.handlers[a.h].id);
    }
  }

  lemma HandlersSure(s: State, clock: Time, a: Action, h: nat)
    requires CanDo(s, clock, a) && FollowsEdges(s, a) && h in Do(s, a).handlers && OwnIds(s)
    requires forall g | g in s.handlers :: Sure(s.desk, s.handlers[g], clock)
    ensures Sure(Do(s, a).desk, Do(s, a).handlers[h], End(clock, a))
  {
    if a.Advance? && a.h == h {
      MoverSure(s, clock, a);
    } else if h in s.handlers {
      assert Sure(s.desk, s.handlers[h], clock);
      BystanderSure(s, clock, a, h);
      assert Do(s, a).handlers[h] == s.handlers[h];
    }
  }

  lemma ActionKeepsInv(s: State, clock: Time, a: Action, slack: int)
    requires slack >= 0 && Inv(s, clock, slack)
    requires CanDo(s, clock, a) && StillAllowed(s, a) && PromptAction(s, a, slack)
    ensures Inv(Do(s, a), End(clock, a), slack)
  {
    ActionKeepsHolds(s, clock, a, slack);
    ActionFollowsEdgesIff(s, clock, a);
    OwnIdsStay(s, clock, a);
    forall h | h in Do(s, a).handlers ensures Sure(Do(s, a).desk, Do(s, a).handlers[h], End(clock, a)) {
      HandlersSure(s, clock, a, h);
    }
  }

  lemma {:induction false} RunKeepsInv(s: State, clock: Time, actions: seq<Action>, slack: int)
    requires slack >= 0 && Inv(s, clock, slack)
    requires Legal(s, clock, actions) && AllStillAllowed(s, actions) && AllPrompt(s, actions, slack)
    ensures Inv(Run(s, actions), ClockAfter(clock, actions), slack)
    decreases |actions|
  {
    if actions != [] {
      ActionKeepsInv(s, clock, actions[0], slack);
      RunKeepsInv(Do(s, actions[0]), End(clock, actions[0]), actions[1..], slack);
    }
  }

  /** No double booking under any interleaving in which every UPDATE still finds a status its operation allows, racing
      creations included. */
  lemma StillAllowedNeverDoubleBooks(clock: Time, actions: seq<Action>, slack: int)
    requires slack >= 0 && Legal(START, clock, actions)
    requires AllStillAllowed(START, actions) && AllPrompt(START, actions, slack)
    ensures Exclusive(Run(START, actions).desk, ClockAfter(clock, actions), slack)
  {
    RunKeepsInv(START, clock, actions, slack);
    HoldsExclude(Run(START, actions).desk, ClockAfter(clock, actions), slack);
  }

  // ---- The race ----

  lemma {:induction false} RunsAppend(s: State, clock: Time, first: seq<Action>, a: Action)
    ensures Run(s, first + [a]) == Do(Run(s, first), a)
    ensures ClockAfter(clock, first + [a]) == End(ClockAfter(clock, first), a)
    ensures Legal(s, clock, first + [a]) <==>
            Legal(s, clock, first) && CanDo(Run(s, first), ClockAfter(clock, first), a)
    ensures AllPrompt(s, first + [a], 0) <==> AllPrompt(s, first, 0) && PromptAction(Run(s, first), a, 0)
    decreases |first|
  {
    if first == [] {
      assert [a][1..] == [] && first + [a] == [a];
      assert Legal(Do(s, a), End(clock, a), []) && AllPrompt(Do(s, a), [], 0);
    } else {
      assert (first + [a])[1..] == first[1..] + [a];
      RunsAppend(Do(s, first[0]), End(clock, first[0]), first[1..], a);
    }
  }

  /** A prompt, legal run from an empty system to the state. */
  ghost predicate Reached(actions: seq<Action>, s: State, now: Time) {
    && Legal(START, 0, actions) && AllPrompt(START, actions, 0)
    && Run(START, actions) == s && ClockAfter(0, actions) == now
  }

  lemma Then(actions: seq<Action>, s: State, now: Time, a: Action)
    requires Reached(actions, s, now) && CanDo(s, now, a) && PromptAction(s, a, 0)
    ensures Reached(actions + [a], Do(s, a), End(now, a))
  {
    RunsAppend(START, 0, actions, a);
  }

  const ARRIVING: Op := CheckingIn("session")

  const PAID: seq<Action> := [Serial(Exclusivity.Booked("a", 0, 0))] + [Serial(Exclusivity.PaidAt("a", 1, true))]

  /** A booked and paid reservation, and a check-in that has read it. */
  const READ: seq<Action> := PAID + [Arrive(0, ARRIVING, "a", "a")] + [Advance(0, 2, true)]

  /** Before that check-in goes on, the reservation is cancelled. */
  const CANCELLED: seq<Action> :=
    READ + [Arrive(1, Cancelling, "a", "a")] + [Advance(1, 3, true)] + [Advance(1, 3, true)] + [Advance(1, 3, true)]

  const RACE: seq<Action> := CANCELLED + [Serial(Exclusivity.Booked("b", 4, 0))] + [Advance(0, 5, true)]

  const ROW: Row :=
    Row("a", Exclusivity.SPOT, Confirmed, UserSelected, "a", 1, 1 + HOLD_DURATION, None, None, None, None)

  lemma BookedDesk()
    ensures Protocol.Apply(EMPTY, Exclusivity.Booked("a", 0, 0)) ==
            Desk(map["a" := ROW.(status := Pending, confirmedAt := 0, expiresAt := PAYMENT_TIMEOUT)],
                 map[LockKey(Exclusivity.SPOT) := Redis.Entry("a", PAYMENT_TIMEOUT)])
  {
  }

  lemma PaidDesk(d: Desk)
    requires d == Desk(map["a" := ROW.(status := Pending, confirmedAt := 0, expiresAt := PAYMENT_TIMEOUT)],
                       map[LockKey(Exclusivity.SPOT) := Redis.Entry("a", PAYMENT_TIMEOUT)])
    ensures Protocol.Apply(d, Exclusivity.PaidAt("a", 1, true)) ==
            Desk(map["a" := ROW], map[LockKey(Exclusivity.SPOT) := Redis.Entry("a", 1 + HOLD_DURATION)])
    ensures Prompt(d, Exclusivity.PaidAt("a", 1, true), 0)
  {
  }

  lemma PaidRun() returns (s: State)
    ensures Reached(PAID, s, 1)
    ensures s.desk.rows == map["a" := ROW]
    ensures s.desk.redis == map[LockKey(Exclusivity.SPOT) := Redis.Entry("a", 1 + HOLD_DURATION)]
    ensures s.handlers == map[]
  {
    var a, b := Serial(Exclusivity.Booked("a", 0, 0)), Serial(Exclusivity.PaidAt("a", 1, true));
    BookedDesk();
    Then([], START, 0, a);
    s := Do(START, a);
    assert [] + [a] == [a];
    PaidDesk(s.desk);
    Then([a], s, 0, b);
    s := Do(s, b);
  }

  lemma ReadRun() returns (s: State)
    ensures Reached(READ, s, 2)
    ensures s.desk.rows == map["a" := ROW]
    ensures s.desk.redis == map[LockKey(Exclusivity.SPOT) := Redis.Entry("a", 1 + HOLD_DURATION)]
    ensures s.handlers == map[0 := AtUpdate(ARRIVING, "a", Exclusivity.SPOT)]
  {
    s := PaidRun();
    Then(PAID, s, 1, Arrive(0, ARRIVING, "a", "a"));
    s := Do(s, Arrive(0, ARRIVING, "a", "a"));
    Then(PAID + [Arrive(0, ARRIVING, "a", "a")], s, 1, Advance(0, 2, true));
    s := Do(s, Advance(0, 2, true));
  }

  lemma CancelledRun() returns (s: State)
    ensures Reached(CANCELLED, s, 3)
    ensures s.desk == Desk(map["a" := ROW.(status := Cancelled, cancelledAt := Some(3))], map[])
    ensures s.handlers == map[0 := AtUpdate(ARRIVING, "a", Exclusivity.SPOT), 1 := Done]
  {
    var arrive, on := Arrive(1, Cancelling, "a", "a"), Advance(1, 3, true);
    s := ReadRun();
    Then(READ, s, 2, arrive);
    s := Do(s, arrive);
    Then(READ + [arrive], s, 2, on);
    s := Do(s, on);
    assert s.handlers[1] == AtUpdate(Cancelling, "a", Exclusivity.SPOT);
    Then(READ + [arrive] + [on], s, 3, on);
    s := Do(s, on);
    assert s.handlers[1] == AtRelease("a", Exclusivity.SPOT, None);
    Then(READ + [arrive] + [on] + [on], s, 3, on);
    s := Do(s, on);
    assert s.desk.redis == map[];
  }

  const CANCELLED_ROW: Row := ROW.(status := Cancelled, cancelledAt := Some(3))

  lemma BookedAgain()
    ensures var d := Desk(map["a" := CANCELLED_ROW], map[]);
            && CanStep(d, 3, Exclusivity.Booked("b", 4, 0)) && Prompt(d, Exclusivity.Booked("b", 4, 0), 0)
            && Protocol.Apply(d, Exclusivity.Booked("b", 4, 0)).rows ==
               map["a" := CANCELLED_ROW, "b" := NewRow(Exclusivity.Booked("b", 4, 0).q, Exclusivity.SPOT, 4)]
  {
  }

  /** A check-in reads its row, a cancellation of the reservation runs to its end and frees the spot, another driver
      books it, and then the check-in's UPDATE makes the cancelled row active: two holds on one spot. */
  lemma LateCheckInDoubleBooks()
    ensures Legal(START, 0, RACE) && AllPrompt(START, RACE, 0)
    ensures Run(START, RACE).desk.rows.Keys == {"a", "b"}
    ensures var rows := Run(START, RACE).desk.rows;
            rows["a"].status == Active && rows["a"].cancelledAt.Some? && rows["b"].status == Pending
    ensures !Exclusive(Run(START, RACE).desk, ClockAfter(0, RACE), 0)
  {
    var s := CancelledRun();
    var book := Serial(Exclusivity.Booked("b", 4, 0));
    BookedAgain();
    Then(CANCELLED, s, 3, book);
    s := Do(s, book);
    Then(CANCELLED + [book], s, 4, Advance(0, 5, true));
    s := Do(s, Advance(0, 5, true));
    assert InHold(s.desk.rows["a"]) && InHold(s.desk.rows["b"]);
  }
}
