/** Reservation rows, the SQL statements on them, and what each operation does to the table and the locks. */
module Reservation {
  import opened Clock
  import opened Wrappers
  import opened Lock
  import Idempotency
  import Redis

  datatype Status = Pending | Confirmed | Active | Completed | Cancelled | Expired

  datatype Mode = SystemAssigned | UserSelected

  datatype Row = Row(driver: string, spot: string, status: Status, mode: Mode, key: string,
                     confirmedAt: Time, expiresAt: Time,
                     checkInAt: Option<Time>, checkOutAt: Option<Time>, cancelledAt: Option<Time>,
                     session: Option<string>)

  type Table = map<string, Row>

  /** A row together with its primary key. */
  datatype Booking = Booking(id: string, row: Row)

  /** Everything the reservation operations read and write. */
  datatype Desk = Desk(rows: Table, redis: Redis.Keyspace)

  datatype Outcome<+T> = Outcome(desk: Desk, result: Result<T>)

  // ---- SQL statements ----

  /** The UNIQUE constraint on idempotency_key. */
  ghost predicate KeysUnique(rows: Table) {
    forall i, j | i in rows && j in rows && rows[i].key == rows[j].key :: i == j
  }

  predicate KeyUsed(rows: Table, key: string) {
    exists id :: id in rows && rows[id].key == key
  }

  predicate CanInsert(rows: Table, id: string, row: Row) {
    id !in rows && !KeyUsed(rows, row.key)
  }

  ghost function ByKey(rows: Table, key: string): Result<Booking> {
    if id :| id in rows && rows[id].key == key then Ok(Booking(id, rows[id])) else Err(NotFound)
  }

  function ById(rows: Table, id: string): Result<Booking> {
    if id in rows then Ok(Booking(id, rows[id])) else Err(NotFound)
  }

  function SetStatus(rows: Table, id: string, status: Status): Table {
    if id in rows then rows[id := rows[id].(status := status)] else rows
  }

  function SetConfirmed(rows: Table, id: string, confirmedAt: Time, expiresAt: Time): Table {
    if id in rows
    then rows[id := rows[id].(status := Confirmed, confirmedAt := confirmedAt, expiresAt := expiresAt)]
    else rows
  }

  function SetCheckedIn(rows: Table, id: string, session: string, at: Time): Table {
    if id in rows
    then rows[id := rows[id].(status := Active, session := Some(session), checkInAt := Some(at))]
    else rows
  }

  function SetCheckedOut(rows: Table, id: string, at: Time): Table {
    if id in rows then rows[id := rows[id].(status := Completed, checkOutAt := Some(at))] else rows
  }

  function SetCancelled(rows: Table, id: string, at: Time): Table {
    if id in rows then rows[id := rows[id].(status := Cancelled, cancelledAt := Some(at))] else rows
  }

  predicate Lapsed(row: Row, before: Time) {
    row.status in {Confirmed, Pending} && row.expiresAt < before
  }

  // ---- Creating ----

  /** What the client asks for, the spot its lookup found and the fresh id it drew. */
  datatype CreateRequest = CreateRequest(driver: string, key: string, mode: Mode, spot: Option<string>, id: string)

  /** The clock readings of one call and which of its remote calls succeeded. */
  datatype CreateIo = CreateIo(checkAt: Time, acquireAt: Time, stampAt: Time,
                               checkUp: bool, readUp: bool, lookupUp: bool, acquireUp: bool,
                               insertUp: bool, releaseUp: bool, saveUp: bool)

  function NewRow(q: CreateRequest, spot: string, at: Time): Row {
    Row(q.driver, spot, Pending, q.mode, q.key, at, at + PAYMENT_TIMEOUT, None, None, None, None)
  }

  ghost function Create(d: Desk, q: CreateRequest, io: CreateIo): Outcome<Booking> {
    if !io.checkUp then Outcome(d, Err(StoreDown))
    else if Redis.Live(d.redis, Idempotency.CacheKey(q.key), io.checkAt) then
      Outcome(d, if io.readUp then ByKey(d.rows, q.key) else Err(StoreDown))
    else if !io.lookupUp then Outcome(d, Err(StoreDown))
    else if q.spot.None? then Outcome(d, Err(NoAvailableSpot))
    else if !io.acquireUp then Outcome(d, Err(StoreDown))
    else if Redis.Live(d.redis, LockKey(q.spot.value), io.acquireAt) then Outcome(d, Err(SpotUnavailable))
    else CreateLocked(d, q, io, LockKey(q.spot.value), NewRow(q, q.spot.value, io.stampAt))
  }

  /** The rest of Create once the lock on lockKey is free. */
  function CreateLocked(d: Desk, q: CreateRequest, io: CreateIo, lockKey: string, row: Row): Outcome<Booking> {
    var locked := Redis.Put(d.redis, lockKey, q.id, PAYMENT_TIMEOUT, io.acquireAt);
    if !io.insertUp || !CanInsert(d.rows, q.id, row) then
      Outcome(d.(redis := if io.releaseUp then Redis.DeleteIfEqual(locked, lockKey, q.id) else locked),
              Err(InsertFailed))
    else
      var saved := if io.saveUp
                   then Redis.Put(locked, Idempotency.CacheKey(q.key), q.id, DEFAULT_TTL, io.stampAt)
                   else locked;
      Outcome(Desk(d.rows[q.id := row], saved), Ok(Booking(q.id, row)))
  }

  // ---- Confirming ----

  datatype ConfirmIo = ConfirmIo(now: Time, expireAt: Time, updateUp: bool, selectUp: bool, expireUp: bool)

  /** The gateway's confirmation after payment: a guarded UPDATE, then EXPIRE on the spot's lock, whoever holds it. */
  function ConfirmPaid(d: Desk, id: string, io: ConfirmIo): Outcome<()> {
    if !io.updateUp then Outcome(d, Err(StoreDown))
    else
      var rows := if id in d.rows && d.rows[id].status == Pending
                  then SetConfirmed(d.rows, id, io.now, io.now + HOLD_DURATION) else d.rows;
      var redis := if io.selectUp && io.expireUp && id in rows && rows[id].spot != ""
                   then Redis.Extended(d.redis, LockKey(rows[id].spot), HOLD_DURATION, io.expireAt) else d.redis;
      Outcome(Desk(rows, redis), Ok(()))
  }

  datatype DirectConfirmIo = DirectConfirmIo(now: Time, lockAt: Time, getUp: bool, updateUp: bool, lockUp: bool)

  /** The reservation service's own confirmation, which tries to extend the lock with SET NX. */
  function ConfirmDirect(d: Desk, id: string, io: DirectConfirmIo): Outcome<Booking> {
    if !io.getUp then Outcome(d, Err(StoreDown))
    else if id !in d.rows then Outcome(d, Err(NotFound))
    else if d.rows[id].status != Pending then Outcome(d, Err(WrongStatus))
    else if !io.updateUp then Outcome(d, Err(StoreDown))
    else
      var rows := SetConfirmed(d.rows, id, io.now, io.now + HOLD_DURATION);
      var redis := if io.lockUp
                   then Redis.PutIfAbsent(d.redis, LockKey(d.rows[id].spot), id, HOLD_DURATION, io.lockAt) else d.redis;
      Outcome(Desk(rows, redis), Ok(Booking(id, rows[id])))
  }

  // ---- Cancelling, checking in, checking out ----

  datatype CancelIo = CancelIo(now: Time, getUp: bool, updateUp: bool, releaseUp: bool)

  datatype Cancellation = Cancellation(booking: Booking, fee: int)

  function Cancel(d: Desk, id: string, driver: string, io: CancelIo): Outcome<Cancellation> {
    if !io.getUp then Outcome(d, Err(StoreDown))
    else if id !in d.rows then Outcome(d, Err(NotFound))
    else if d.rows[id].driver != driver then Outcome(d, Err(NotOwner))
    else if d.rows[id].status !in {Confirmed, Pending} then Outcome(d, Err(WrongStatus))
    else if !io.updateUp then Outcome(d, Err(StoreDown))
    else
      var fee := if io.now - d.rows[id].confirmedAt <= 2 * MINUTE then 0 else 5_000;
      var rows := SetCancelled(d.rows, id, io.now);
      Outcome(Desk(rows, Released(d.redis, LockKey(d.rows[id].spot), id, io.releaseUp)),
              Ok(Cancellation(Booking(id, rows[id]), fee)))
  }

  function Released(redis: Redis.Keyspace, key: string, owner: string, up: bool): Redis.Keyspace {
    if up then Redis.DeleteIfEqual(redis, key, owner) else redis
  }

  datatype CheckInIo = CheckInIo(guardAt: Time, stampAt: Time, getUp: bool, updateUp: bool)

  function CheckIn(d: Desk, id: string, driver: string, session: string, io: CheckInIo): Outcome<Booking> {
    if !io.getUp then Outcome(d, Err(StoreDown))
    else if id !in d.rows then Outcome(d, Err(NotFound))
    else if d.rows[id].driver != driver then Outcome(d, Err(NotOwner))
    else if d.rows[id].status != Confirmed then Outcome(d, Err(WrongStatus))
    else if io.guardAt > d.rows[id].expiresAt then Outcome(d, Err(ReservationExpired))
    else if !io.updateUp then Outcome(d, Err(StoreDown))
    else
      var rows := SetCheckedIn(d.rows, id, session, io.stampAt);
      Outcome(d.(rows := rows), Ok(Booking(id, rows[id])))
  }

  datatype CheckOutIo = CheckOutIo(checkAt: Time, stampAt: Time,
                                   checkUp: bool, getUp: bool, updateUp: bool, releaseUp: bool, saveUp: bool)

  function CheckOut(d: Desk, id: string, driver: string, key: string, io: CheckOutIo): Outcome<Booking> {
    if !io.checkUp || !io.getUp then Outcome(d, Err(StoreDown))
    else if Redis.Live(d.redis, Idempotency.CacheKey(key), io.checkAt) then Outcome(d, ById(d.rows, id))
    else if id !in d.rows then Outcome(d, Err(NotFound))
    else if d.rows[id].driver != driver then Outcome(d, Err(NotOwner))
    else if d.rows[id].status != Active then Outcome(d, Err(WrongStatus))
    else if !io.updateUp then Outcome(d, Err(StoreDown))
    else
      var rows := SetCheckedOut(d.rows, id, io.stampAt);
      var released := Released(d.redis, LockKey(d.rows[id].spot), id, io.releaseUp);
      var saved := if io.saveUp
                   then Redis.Put(released, Idempotency.CacheKey(key), id, DEFAULT_TTL, io.stampAt) else released;
      Outcome(Desk(rows, saved), Ok(Booking(id, rows[id])))
  }

  // ---- Expiring ----

  /** The rows after the rows of ids, but for those whose UPDATE failed, were set to expired. */
  function ExpireRows(rows: Table, ids: set<string>, updateFails: set<string>): Table {
    map id | id in rows :: if id in ids - updateFails then rows[id].(status := Expired) else rows[id]
  }

  /** The lock keys held by some reservation of ids whose expiry and release both went through. */
  function FreedLocks(d: Desk, ids: set<string>, updateFails: set<string>, releaseFails: set<string>): set<string> {
    set id | id in ids - updateFails - releaseFails && id in d.rows
             && LockKey(d.rows[id].spot) in d.redis && d.redis[LockKey(d.rows[id].spot)].value == id
           :: LockKey(d.rows[id].spot)
  }

  /** The expiry job's specification: lapsed unstarted reservations expire and give up the locks they hold. */
  function Sweep(d: Desk, now: Time, updateFails: set<string>, releaseFails: set<string>): Desk {
    var listed := set id | id in d.rows && Lapsed(d.rows[id], now);
    SweepIds(d, listed, updateFails, releaseFails)
  }

  function SweepIds(d: Desk, ids: set<string>, updateFails: set<string>, releaseFails: set<string>): Desk {
    Desk(ExpireRows(d.rows, ids, updateFails), d.redis - FreedLocks(d, ids, updateFails, releaseFails))
  }

  /** The history page expires the listed pending rows that have timed out; their locks lapse by themselves. */
  function HistoryExpire(d: Desk, ids: set<string>, now: Time, updateFails: set<string>): Desk {
    var late := set id | id in ids && id in d.rows && d.rows[id].status == Pending && now > d.rows[id].expiresAt;
    d.(rows := ExpireRows(d.rows, late, updateFails))
  }
}
