/** Runs of the reservation operations in any order: what every reachable table and lock keyspace satisfies. */
module Protocol {
  import opened Clock
  import opened Wrappers
  import opened Lock
  import opened Reservation
  import Redis

  /** One serialised operation. DoForeign stands for any other service's write or loss of a key that is not a lock. */
  datatype Step =
    | DoCreate(q: CreateRequest, create: CreateIo)
    | DoConfirmPaid(id: string, confirm: ConfirmIo)
    | DoConfirmDirect(id: string, direct: DirectConfirmIo)
    | DoCancel(id: string, driver: string, cancel: CancelIo)
    | DoCheckIn(id: string, driver: string, session: string, checkIn: CheckInIo)
    | DoCheckOut(id: string, driver: string, key: string, checkOut: CheckOutIo)
    | DoSweep(now: Time, updateFails: set<string>, releaseFails: set<string>)
    | DoHistory(ids: set<string>, now: Time, updateFails: set<string>)
    | DoForeign(now: Time, redisKey: string, entry: Option<Redis.Entry>)

  ghost function Apply(d: Desk, s: Step): Desk {
    match s
    case DoCreate(q, io) => Create(d, q, io).desk
    case DoConfirmPaid(id, io) => ConfirmPaid(d, id, io).desk
    case DoConfirmDirect(id, io) => ConfirmDirect(d, id, io).desk
    case DoCancel(id, driver, io) => Cancel(d, id, driver, io).desk
    case DoCheckIn(id, driver, session, io) => CheckIn(d, id, driver, session, io).desk
    case DoCheckOut(id, driver, key, io) => CheckOut(d, id, driver, key, io).desk
    case DoSweep(now, updateFails, releaseFails) => Sweep(d, now, updateFails, releaseFails)
    case DoHistory(ids, now, updateFails) => HistoryExpire(d, ids, now, updateFails)
    case DoForeign(_, key, entry) =>
      d.(redis := if entry.Some? then d.redis[key := entry.value] else d.redis - {key})
  }

  /** The last clock reading of a step. */
  function End(s: Step): Time {
    match s
    case DoCreate(_, io) => io.stampAt
    case DoConfirmPaid(_, io) => io.expireAt
    case DoConfirmDirect(_, io) => io.lockAt
    case DoCancel(_, _, io) => io.now
    case DoCheckIn(_, _, _, io) => io.stampAt
    case DoCheckOut(_, _, _, io) => io.stampAt
    case DoSweep(now, _, _) => now
    case DoHistory(_, now, _) => now
    case DoForeign(now, _, _) => now
  }

  /** The readings of a step never go back, starting from the clock. */
  predicate Timed(clock: Time, s: Step) {
    match s
    case DoCreate(_, io) => clock <= io.checkAt <= io.acquireAt <= io.stampAt
    case DoConfirmPaid(_, io) => clock <= io.now <= io.expireAt
    case DoConfirmDirect(_, io) => clock <= io.now <= io.lockAt
    case DoCancel(_, _, io) => clock <= io.now
    case DoCheckIn(_, _, _, io) => clock <= io.guardAt <= io.stampAt
    case DoCheckOut(_, _, _, io) => clock <= io.checkAt <= io.stampAt
    case DoSweep(now, _, _) => clock <= now
    case DoHistory(_, now, _) => clock <= now
    case DoForeign(now, _, _) => clock <= now
  }

  /** A drawn uuid is new to the table and to every lock. */
  ghost predicate Fresh(d: Desk, id: string) {
    id !in d.rows && forall key | key in d.redis :: d.redis[key].value != id
  }

  ghost predicate CanStep(d: Desk, clock: Time, s: Step) {
    && Timed(clock, s)
    && (s.DoCreate? ==> Fresh(d, s.q.id) && s.q.spot != Some(""))
    && (s.DoForeign? ==> s.redisKey != "" && s.redisKey[0] != 's')
  }

  ghost function Exec(d: Desk, steps: seq<Step>): Desk
    decreases |steps|
  {
    if steps == [] then d else Exec(Apply(d, steps[0]), steps[1..])
  }

  function ClockAfter(clock: Time, steps: seq<Step>): Time
    decreases |steps|
  {
    if steps == [] then clock else ClockAfter(End(steps[0]), steps[1..])
  }

  ghost predicate Legal(d: Desk, clock: Time, steps: seq<Step>)
    decreases |steps|
  {
    steps != [] ==> CanStep(d, clock, steps[0]) && Legal(Apply(d, steps[0]), End(steps[0]), steps[1..])
  }

  const EMPTY: Desk := Desk(map[], map[])

  // ---- The spot is exclusively held ----

  predicate InHold(row: Row) {
    row.status in {Pending, Confirmed, Active}
  }

  /** The reservation's spot lock is in its name and lasts to its deadline, less the slack. */
  predicate Covered(d: Desk, id: string, slack: int)
    requires id in d.rows
  {
    var key := LockKey(d.rows[id].spot);
    key in d.redis && d.redis[key].value == id && d.redis[key].deadline >= d.rows[id].expiresAt - slack
  }

  ghost predicate LeasesCapped(d: Desk, now: Time) {
    forall spot :: LockKey(spot) in d.redis ==> d.redis[LockKey(spot)].deadline <= now + HOLD_DURATION
  }

  ghost predicate HoldInv(d: Desk, now: Time, slack: int) {
    && (forall id | id in d.rows :: d.rows[id].spot != "")
    && (forall id | id in d.rows && InHold(d.rows[id]) && now < d.rows[id].expiresAt - slack :: Covered(d, id, slack))
    && LeasesCapped(d, now)
  }

  /** The conditions under which a step keeps the holds: creation reads its second clock at most slack after its
      first, a paid confirmation that takes effect reaches its EXPIRE while the old hold (less the slack) still runs,
      and one by the reservation service itself finds the spot's lock free. */
  predicate Prompt(d: Desk, s: Step, slack: int) {
    match s
    case DoCreate(_, io) => io.stampAt - io.acquireAt <= slack
    case DoConfirmPaid(id, io) =>
      io.updateUp && id in d.rows && d.rows[id].status == Pending ==>
        io.selectUp && io.expireUp && io.expireAt < d.rows[id].expiresAt - slack
    case DoConfirmDirect(id, io) =>
      ConfirmDirect(d, id, io).result.Ok? ==>
        io.lockUp && !Redis.Live(d.redis, LockKey(d.rows[id].spot), io.lockAt)
    case _ => true
  }

  ghost predicate AllPrompt(d: Desk, steps: seq<Step>, slack: int)
    decreases |steps|
  {
    steps != [] ==> Prompt(d, steps[0], slack) && AllPrompt(Apply(d, steps[0]), steps[1..], slack)
  }

  lemma CreateKeepsHolds(d: Desk, clock: Time, q: CreateRequest, io: CreateIo, slack: int)
    requires HoldInv(d, clock, slack) && CanStep(d, clock, DoCreate(q, io)) && Prompt(d, DoCreate(q, io), slack)
    ensures HoldInv(Create(d, q, io).desk, io.stampAt, slack)
  {
    var after := Create(d, q, io).desk;
    if after != d {
      var key := LockKey(q.spot.value);
      assert !Redis.Live(d.redis, key, io.acquireAt);
      forall id | id in after.rows && InHold(after.rows[id]) && io.stampAt < after.rows[id].expiresAt - slack
        ensures Covered(after, id, slack)
      {
        if id in d.rows {
          assert Covered(d, id, slack);
          assert LockKey(d.rows[id].spot) != key;
        }
      }
    }
  }

  lemma ConfirmPaidKeepsHolds(d: Desk, clock: Time, id: string, io: ConfirmIo, slack: int)
    requires slack >= 0 && HoldInv(d, clock, slack)
    requires CanStep(d, clock, DoConfirmPaid(id, io)) && Prompt(d, DoConfirmPaid(id, io), slack)
    ensures HoldInv(ConfirmPaid(d, id, io).desk, io.expireAt, slack)
  {
    var after := ConfirmPaid(d, id, io).desk;
    if io.updateUp && id in d.rows {
      var key := LockKey(d.rows[id].spot);
      assert key in d.redis ==> d.redis[key].deadline <= io.expireAt + HOLD_DURATION;
      forall other | other in after.rows && InHold(after.rows[other])
                     && io.expireAt < after.rows[other].expiresAt - slack
        ensures Covered(after, other, slack)
      {
        if other != id || d.rows[id].status != Pending {
          assert after.rows[other] == d.rows[other];
          assert Covered(d, other, slack);
        } else {
          assert Covered(d, id, slack);
        }
      }
    }
  }

  lemma ConfirmDirectKeepsHolds(d: Desk, clock: Time, id: string, io: DirectConfirmIo, slack: int)
    requires slack >= 0 && HoldInv(d, clock, slack)
    requires CanStep(d, clock, DoConfirmDirect(id, io)) && Prompt(d, DoConfirmDirect(id, io), slack)
    ensures HoldInv(ConfirmDirect(d, id, io).desk, io.lockAt, slack)
  {
    var after := ConfirmDirect(d, id, io).desk;
    if ConfirmDirect(d, id, io).result.Ok? {
      var key := LockKey(d.rows[id].spot);
      forall other | other in after.rows && InHold(after.rows[other]) && io.lockAt < after.rows[other].expiresAt - slack
        ensures Covered(after, other, slack)
      {
        if other != id {
          assert Covered(d, other, slack);
          assert LockKey(d.rows[other].spot) != key;
        }
      }
    }
  }

  /** Enough for any step that starts no hold: surviving holds keep their row data and any lock in their name. */
  lemma HoldsSurvive(d: Desk, now: Time, after: Desk, later: Time, slack: int)
    requires HoldInv(d, now, slack) && now <= later
    requires forall id | id in after.rows ::
               id in d.rows && after.rows[id].spot == d.rows[id].spot
               && after.rows[id].expiresAt == d.rows[id].expiresAt
    requires forall id | id in after.rows && InHold(after.rows[id]) :: InHold(d.rows[id])
    requires forall id | id in after.rows && InHold(after.rows[id]) ::
               var key := LockKey(d.rows[id].spot);
               key in d.redis && d.redis[key].value == id ==> key in after.redis && after.redis[key] == d.redis[key]
    requires forall spot :: LockKey(spot) in after.redis ==>
               LockKey(spot) in d.redis && after.redis[LockKey(spot)] == d.redis[LockKey(spot)]
    ensures HoldInv(after, later, slack)
  {
    forall id | id in after.rows && InHold(after.rows[id]) && later < after.rows[id].expiresAt - slack
      ensures Covered(after, id, slack)
    {
      assert Covered(d, id, slack);
    }
  }

  lemma CancelKeepsHolds(d: Desk, clock: Time, s: Step, slack: int)
    requires s.DoCancel? && HoldInv(d, clock, slack) && CanStep(d, clock, s)
    ensures HoldInv(Apply(d, s), End(s), slack)
  {
    HoldsSurvive(d, clock, Apply(d, s), End(s), slack);
  }

  lemma CheckInKeepsHolds(d: Desk, clock: Time, s: Step, slack: int)
    requires s.DoCheckIn? && HoldInv(d, clock, slack) && CanStep(d, clock, s)
    ensures HoldInv(Apply(d, s), End(s), slack)
  {
    HoldsSurvive(d, clock, Apply(d, s), End(s), slack);
  }

  lemma CheckOutKeepsHolds(d: Desk, clock: Time, s: Step, slack: int)
    requires s.DoCheckOut? && HoldInv(d, clock, slack) && CanStep(d, clock, s)
    ensures HoldInv(Apply(d, s), End(s), slack)
  {
    HoldsSurvive(d, clock, Apply(d, s), End(s), slack);
  }

  lemma ExpiryKeepsHolds(d: Desk, clock: Time, s: Step, slack: int)
    requires (s.DoSweep? || s.DoHistory? || s.DoForeign?) && HoldInv(d, clock, slack) && CanStep(d, clock, s)
    ensures HoldInv(Apply(d, s), End(s), slack)
  {
    HoldsSurvive(d, clock, Apply(d, s), End(s), slack);
  }

  /** Every operation, prompt in this sense, keeps each running hold backed by its own live lock. */
  lemma StepKeepsHolds(d: Desk, clock: Time, s: Step, slack: int)
    requires slack >= 0 && HoldInv(d, clock, slack) && CanStep(d, clock, s) && Prompt(d, s, slack)
    ensures HoldInv(Apply(d, s), End(s), slack)
  {
    match s
    case DoCreate(q, io) => CreateKeepsHolds(d, clock, q, io, slack);
    case DoConfirmPaid(id, io) => ConfirmPaidKeepsHolds(d, clock, id, io, slack);
    case DoConfirmDirect(id, io) => ConfirmDirectKeepsHolds(d, clock, id, io, slack);
    case DoCancel(_, _, _) => CancelKeepsHolds(d, clock, s, slack);
    case DoCheckIn(_, _, _, _) => CheckInKeepsHolds(d, clock, s, slack);
    case DoCheckOut(_, _, _, _) => CheckOutKeepsHolds(d, clock, s, slack);
    case _ => ExpiryKeepsHolds(d, clock, s, slack);
  }

  lemma {:induction false} RunKeepsHolds(d: Desk, clock: Time, steps: seq<Step>, slack: int)
    requires slack >= 0 && HoldInv(d, clock, slack) && Legal(d, clock, steps) && AllPrompt(d, steps, slack)
    ensures HoldInv(Exec(d, steps), ClockAfter(clock, steps), slack)
    decreases |steps|
  {
    if steps != [] {
      StepKeepsHolds(d, clock, steps[0], slack);
      RunKeepsHolds(Apply(d, steps[0]), End(steps[0]), steps[1..], slack);
    }
  }

  /** No two reservations that still run (with this much margin) share a spot. */
  ghost predicate Exclusive(d: Desk, now: Time, margin: int) {
    forall i, j | i in d.rows && j in d.rows && InHold(d.rows[i]) && InHold(d.rows[j])
                  && now < d.rows[i].expiresAt - margin && now < d.rows[j].expiresAt - margin
                  && d.rows[i].spot == d.rows[j].spot :: i == j
  }

  lemma HoldsExclude(d: Desk, now: Time, slack: int)
    requires HoldInv(d, now, slack)
    ensures Exclusive(d, now, slack)
  {
    forall i, j | i in d.rows && j in d.rows && InHold(d.rows[i]) && InHold(d.rows[j])
                  && now < d.rows[i].expiresAt - slack && now < d.rows[j].expiresAt - slack
                  && d.rows[i].spot == d.rows[j].spot
      ensures i == j
    {
      assert Covered(d, i, slack) && Covered(d, j, slack);
    }
  }

  /** No double booking: in every run from an empty system, two pending, confirmed or active reservations with
      more than the slack left never share a spot. */
  lemma NoDoubleBooking(clock: Time, steps: seq<Step>, slack: int)
    requires slack >= 0 && Legal(EMPTY, clock, steps) && AllPrompt(EMPTY, steps, slack)
    ensures Exclusive(Exec(EMPTY, steps), ClockAfter(clock, steps), slack)
  {
    RunKeepsHolds(EMPTY, clock, steps, slack);
    HoldsExclude(Exec(EMPTY, steps), ClockAfter(clock, steps), slack);
  }
}
