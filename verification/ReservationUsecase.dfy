/** The reservation service, step by step, each operation proved against its specification in module Reservation. */
module ReservationUsecase {
  import opened Clock
  import opened Wrappers
  import opened Lock
  import opened Reservation
  import Idempotency
  import Pricing
  import ReservationRepository

  class Usecase {
    const repo: ReservationRepository.Repository
    const locker: Locker
    const idempotency: Idempotency.Store

    constructor (repo: ReservationRepository.Repository, locker: Locker, idempotency: Idempotency.Store)
      ensures this.repo == repo && this.locker == locker && this.idempotency == idempotency
    {
      this.repo := repo;
      this.locker := locker;
      this.idempotency := idempotency;
    }

    /** The lock and the cache live in the same Redis, and the table keeps its UNIQUE key. */
    ghost predicate Valid()
      reads repo
    {
      locker.rdb == idempotency.rdb && repo.Valid()
    }

    ghost function View(): Desk
      reads repo, locker.rdb
    {
      Desk(repo.rows, locker.rdb.keys)
    }

    method CreateReservation(q: CreateRequest, io: CreateIo) returns (r: Result<Booking>)
      requires Valid()
      modifies repo, locker.rdb
      ensures Valid()
      ensures Outcome(View(), r) == Create(old(View()), q, io)
    {
      var hit := idempotency.Check(Idempotency.CacheKey(q.key), io.checkAt, io.checkUp);
      if hit.Err? {
        return Err(hit.error);
      }
      if hit.value.Some? {
        r := repo.GetByIdempotencyKey(q.key, io.readUp);
        return;
      }

      if !io.lookupUp {
        return Err(StoreDown);
      }
      if q.spot.None? {
        return Err(NoAvailableSpot);
      }
      var lockKey := LockKey(q.spot.value);

      var acquired := locker.Acquire(lockKey, q.id, PAYMENT_TIMEOUT, io.acquireAt, io.acquireUp);
      if acquired.Err? {
        return Err(acquired.error);
      }
      if !acquired.value {
        return Err(SpotUnavailable);
      }

      var row := Row(q.driver, q.spot.value, Pending, q.mode, q.key, io.stampAt, io.stampAt + PAYMENT_TIMEOUT,
                     None, None, None, None);
      var inserted := repo.InsertReservation(q.id, row, io.insertUp);
      if !inserted {
        var _ := locker.Release(lockKey, q.id, io.releaseUp);
        return Err(InsertFailed);
      }

      var _ := idempotency.Save(Idempotency.CacheKey(q.key), q.id, DEFAULT_TTL, io.stampAt, io.saveUp);
      return Ok(Booking(q.id, row));
    }

    method ConfirmReservation(id: string, io: DirectConfirmIo) returns (r: Result<Booking>)
      requires Valid()
      modifies repo, locker.rdb
      ensures Valid()
      ensures Outcome(View(), r) == ConfirmDirect(old(View()), id, io)
    {
      var got := repo.GetReservation(id, io.getUp);
      if got.Err? {
        return Err(got.error);
      }
      var row := got.value.row;
      if row.status != Pending {
        return Err(WrongStatus);
      }

      var expiresAt := io.now + HOLD_DURATION;
      var updated := repo.UpdateConfirmed(id, io.now, expiresAt, io.updateUp);
      if !updated {
        return Err(StoreDown);
      }

      var _ := locker.Acquire(LockKey(row.spot), id, HOLD_DURATION, io.lockAt, io.lockUp);
      return Ok(Booking(id, row.(status := Confirmed, confirmedAt := io.now, expiresAt := expiresAt)));
    }

    /** The fee is the one the tariff sets for the time since confirmation. */
    method CancelReservation(id: string, driver: string, io: CancelIo) returns (r: Result<Cancellation>)
      requires Valid()
      modifies repo, locker.rdb
      ensures Valid()
      ensures Outcome(View(), r) == Cancel(old(View()), id, driver, io)
      ensures r.Ok? ==> id in old(repo.rows) &&
                        r.value.fee == Pricing.CancellationFee(old(repo.rows)[id].confirmedAt, io.now, false)
    {
      var got := repo.GetReservation(id, io.getUp);
      if got.Err? {
        return Err(got.error);
      }
      var row := got.value.row;
      if row.driver != driver {
        return Err(NotOwner);
      }
      if row.status != Confirmed && row.status != Pending {
        return Err(WrongStatus);
      }

      var fee;
      if io.now - row.confirmedAt <= 2 * MINUTE {
        fee := 0;
      } else {
        fee := 5_000;
      }

      var updated := repo.UpdateCancelled(id, io.now, io.updateUp);
      if !updated {
        return Err(StoreDown);
      }
      var _ := locker.Release(LockKey(row.spot), id, io.releaseUp);
      return Ok(Cancellation(Booking(id, row.(status := Cancelled, cancelledAt := Some(io.now))), fee));
    }

    method CheckIn(id: string, driver: string, session: string, io: CheckInIo) returns (r: Result<Booking>)
      requires Valid()
      modifies repo
      ensures Valid()
      ensures Outcome(View(), r) == Reservation.CheckIn(old(View()), id, driver, session, io)
    {
      var got := repo.GetReservation(id, io.getUp);
      if got.Err? {
        return Err(got.error);
      }
      var row := got.value.row;
      if row.driver != driver {
        return Err(NotOwner);
      }
      if row.status != Confirmed {
        return Err(WrongStatus);
      }
      if io.guardAt > row.expiresAt {
        return Err(Error.ReservationExpired);
      }

      var updated := repo.UpdateCheckIn(id, session, io.stampAt, io.updateUp);
      if !updated {
        return Err(StoreDown);
      }
      return Ok(Booking(id, row.(status := Active, session := Some(session), checkInAt := Some(io.stampAt))));
    }

    method CheckOut(id: string, driver: string, key: string, io: CheckOutIo) returns (r: Result<Booking>)
      requires Valid()
      modifies repo, locker.rdb
      ensures Valid()
      ensures Outcome(View(), r) == Reservation.CheckOut(old(View()), id, driver, key, io)
    {
      var hit := idempotency.Check(Idempotency.CacheKey(key), io.checkAt, io.checkUp);
      if hit.Err? {
        return Err(hit.error);
      }
      if hit.value.Some? {
        r := repo.GetReservation(id, io.getUp);
        return;
      }

      var got := repo.GetReservation(id, io.getUp);
      if got.Err? {
        return Err(got.error);
      }
      var row := got.value.row;
      if row.driver != driver {
        return Err(NotOwner);
      }
      if row.status != Active {
        return Err(WrongStatus);
      }

      var updated := repo.UpdateCheckOut(id, io.stampAt, io.updateUp);
      if !updated {
        return Err(StoreDown);
      }
      var _ := locker.Release(LockKey(row.spot), id, io.releaseUp);
      var _ := idempotency.Save(Idempotency.CacheKey(key), id, DEFAULT_TTL, io.stampAt, io.saveUp);
      return Ok(Booking(id, row.(status := Completed, checkOutAt := Some(io.stampAt))));
    }

    /** The background job. Whatever updates and releases fail, the loop over the listed rows does exactly what
        the set-based specification says. */
    method ExpireReservations(now: Time, listUp: bool, updateFails: set<string>, releaseFails: set<string>)
      returns (r: Result<()>)
      requires Valid()
      modifies repo, locker.rdb
      ensures Valid()
      ensures r.Ok? <==> listUp
      ensures View() == if listUp then Sweep(old(View()), now, updateFails, releaseFails) else old(View())
    {
      var listed := repo.ListExpiredReservations(now, listUp);
      if listed.Err? {
        return Err(listed.error);
      }
      var expired := listed.value;
      ghost var before := View();
      ghost var done: set<string> := {};
      ListedAreLapsed(repo.rows, now, expired);
      SweepNothing(before, updateFails, releaseFails);

      for i := 0 to |expired|
        invariant Valid()
        invariant done == set b | b in expired[..i] :: b.id
        invariant View() == SweepIds(before, done, updateFails, releaseFails)
      {
        var b := expired[i];
        ghost var grown := expired[..i + 1];
        assert grown == expired[..i] + [b];
        assert b.id !in done;
        SweepOneMore(before, done, b.id, updateFails, releaseFails);
        done := done + {b.id};

        var updated := repo.UpdateStatus(b.id, Expired, b.id !in updateFails);
        if !updated {
          continue;
        }
        var _ := locker.Release(LockKey(b.row.spot), b.id, b.id !in releaseFails);
      }
      assert expired[..|expired|] == expired;
      return Ok(());
    }
  }

  /** The rows the listing returns are those the sweep is specified for. */
  lemma ListedAreLapsed(rows: Table, now: Time, listed: seq<Booking>)
    requires (set b | b in listed :: b.id) ==
             (set id | id in rows && (rows[id].status == Pending || rows[id].status == Confirmed)
                       && rows[id].expiresAt < now)
    ensures (set b | b in listed :: b.id) == (set id | id in rows && Lapsed(rows[id], now))
  {
  }

  lemma SweepNothing(d: Desk, updateFails: set<string>, releaseFails: set<string>)
    ensures SweepIds(d, {}, updateFails, releaseFails) == d
  {
    assert FreedLocks(d, {}, updateFails, releaseFails) == {};
  }

  /** One more listed row: its status changes and its own lock, if it still holds one, goes. */
  lemma SweepOneMore(d: Desk, done: set<string>, id: string, updateFails: set<string>, releaseFails: set<string>)
    requires id in d.rows && id !in done
    ensures var swept := SweepIds(d, done, updateFails, releaseFails);
            SweepIds(d, done + {id}, updateFails, releaseFails) ==
            if id in updateFails then swept
            else Desk(SetStatus(swept.rows, id, Expired),
                      Released(swept.redis, LockKey(d.rows[id].spot), id, id !in releaseFails))
  {
    var swept := SweepIds(d, done, updateFails, releaseFails);
    var freed := FreedLocks(d, done, updateFails, releaseFails);
    var key := LockKey(d.rows[id].spot);
    var own := if id !in updateFails && id !in releaseFails && key in d.redis && d.redis[key].value == id
               then {key} else {};
    assert FreedLocks(d, done + {id}, updateFails, releaseFails) == freed + own;
    assert d.redis - (freed + own) == (d.redis - freed) - own;
    if own == {} && key in swept.redis && swept.redis[key].value == id {
      assert id in updateFails || id in releaseFails;
    }
    assert ExpireRows(d.rows, done + {id}, updateFails) ==
           if id in updateFails then swept.rows else SetStatus(swept.rows, id, Expired);
  }
}
