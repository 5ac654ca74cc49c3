/** The reservations table. */
module ReservationRepository {
  import opened Clock
  import opened Wrappers
  import opened Reservation

  class Repository {
    var rows: Table

    ghost predicate Valid()
      reads this
    {
      KeysUnique(rows)
    }

    constructor ()
      ensures Valid() && rows == map[]
    {
      rows := map[];
    }

    /** Fails on a broken UNIQUE constraint as well as on a failed call. */
    method InsertReservation(id: string, row: Row, up: bool) returns (ok: bool)
      requires Valid()
      modifies this
      ensures Valid()
      ensures ok == (up && CanInsert(old(rows), id, row))
      ensures rows == if ok then old(rows)[id := row] else old(rows)
    {
      if !up || id in rows || exists j :: j in rows && rows[j].key == row.key {
        return false;
      }
      rows := rows[id := row];
      return true;
    }

    method GetReservation(id: string, up: bool) returns (r: Result<Booking>)
      ensures r == if up then ById(rows, id) else Err(StoreDown)
    {
      if !up {
        return Err(StoreDown);
      }
      if id !in rows {
        return Err(NotFound);
      }
      return Ok(Booking(id, rows[id]));
    }

    method GetByIdempotencyKey(key: string, up: bool) returns (r: Result<Booking>)
      requires Valid()
      ensures r == if up then ByKey(rows, key) else Err(StoreDown)
    {
      if !up {
        return Err(StoreDown);
      }
      if id :| id in rows && rows[id].key == key {
        return Ok(Booking(id, rows[id]));
      }
      return Err(NotFound);
    }

    method UpdateStatus(id: string, status: Status, up: bool) returns (ok: bool)
      requires Valid()
      modifies this
      ensures Valid() && ok == up
      ensures rows == if up then SetStatus(old(rows), id, status) else old(rows)
    {
      if up && id in rows {
        rows := rows[id := rows[id].(status := status)];
      }
      return up;
    }

    method UpdateConfirmed(id: string, confirmedAt: Time, expiresAt: Time, up: bool) returns (ok: bool)
      requires Valid()
      modifies this
      ensures Valid() && ok == up
      ensures rows == if up then SetConfirmed(old(rows), id, confirmedAt, expiresAt) else old(rows)
    {
      if up && id in rows {
        rows := rows[id := rows[id].(status := Confirmed, confirmedAt := confirmedAt, expiresAt := expiresAt)];
      }
      return up;
    }

    method UpdateCheckIn(id: string, session: string, at: Time, up: bool) returns (ok: bool)
      requires Valid()
      modifies this
      ensures Valid() && ok == up
      ensures rows == if up then SetCheckedIn(old(rows), id, session, at) else old(rows)
    {
      if up && id in rows {
        rows := rows[id := rows[id].(status := Active, session := Some(session), checkInAt := Some(at))];
      }
      return up;
    }

    method UpdateCheckOut(id: string, at: Time, up: bool) returns (ok: bool)
      requires Valid()
      modifies this
      ensures Valid() && ok == up
      ensures rows == if up then SetCheckedOut(old(rows), id, at) else old(rows)
    {
      if up && id in rows {
        rows := rows[id := rows[id].(status := Completed, checkOutAt := Some(at))];
      }
      return up;
    }

    method UpdateCancelled(id: string, at: Time, up: bool) returns (ok: bool)
      requires Valid()
      modifies this
      ensures Valid() && ok == up
      ensures rows == if up then SetCancelled(old(rows), id, at) else old(rows)
    {
      if up && id in rows {
        rows := rows[id := rows[id].(status := Cancelled, cancelledAt := Some(at))];
      }
      return up;
    }

    /** Every confirmed or pending row past its deadline, once each, in no particular order. */
    method ListExpiredReservations(before: Time, up: bool) returns (r: Result<seq<Booking>>)
      ensures r.Ok? <==> up
      ensures !up ==> r == Err(StoreDown)
      ensures r.Ok? ==>
                && (forall i | 0 <= i < |r.value| :: r.value[i].id in rows && r.value[i].row == rows[r.value[i].id])
                && (forall i, j | 0 <= i < j < |r.value| :: r.value[i].id != r.value[j].id)
                && (set b | b in r.value :: b.id) ==
                   (set id | id in rows && (rows[id].status == Pending || rows[id].status == Confirmed)
                             && rows[id].expiresAt < before)
    {
      if !up {
        return Err(StoreDown);
      }
      var listed: seq<Booking> := [];
      var left := rows.Keys;
      while left != {}
        invariant left <= rows.Keys
        invariant forall i | 0 <= i < |listed| ::
                    listed[i].id in rows && listed[i].row == rows[listed[i].id] && listed[i].id !in left
        invariant forall i, j | 0 <= i < j < |listed| :: listed[i].id != listed[j].id
        invariant (set b | b in listed :: b.id) == (set id | id in rows && id !in left && Lapsed(rows[id], before))
        decreases left
      {
        var id :| id in left;
        ghost var seen := set b | b in listed :: b.id;
        if Lapsed(rows[id], before) {
          ghost var grown := listed + [Booking(id, rows[id])];
          assert forall b :: b in grown <==> b in listed || b == Booking(id, rows[id]);
          assert (set b | b in grown :: b.id) == seen + {id};
          listed := listed + [Booking(id, rows[id])];
        }
        left := left - {id};
      }
      return Ok(listed);
    }
  }
}
