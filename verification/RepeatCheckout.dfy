/** Checking out again with a key already used: the same answer, and whose name the invoice is in. */
module RepeatCheckout {
  import opened Clock
  import opened Wrappers
  import opened Gateway
  import opened Ledger
  import opened Visits
  import Billing
  import Idempotency
  import Lifecycle
  import Lock
  import Redis
  import Reservation

  /** A check-out that finds both its keys in the cache changes nothing and answers with the invoice of its key,
      whichever checked-out reservation it names. */
  lemma CachedCheckOut(w: World, id: string, driver: string, key: string, invoiceId: string, io: CheckOutIo,
                       iid: string)
    requires Billing.KeysUnique(w.invoices) && iid in w.invoices && w.invoices[iid].key == "inv-" + key
    requires id in w.rows && w.rows[id].checkInAt.Some? && w.rows[id].checkOutAt.Some?
    requires Redis.Live(w.redis, Idempotency.CacheKey(key), io.desk.checkAt)
    requires Redis.Live(w.redis, Idempotency.CacheKey("inv-" + key), io.bill.checkAt)
    requires io.desk.checkUp && io.desk.getUp && io.getUp && io.bill.checkUp && io.bill.readUp
    ensures CheckOutBilled(w, id, driver, key, invoiceId, io) == Outcome(w, Ok(Billing.Issued(iid, w.invoices[iid])))
  {
    assert Billing.ByKey(w.invoices, "inv-" + key) == Ok(Billing.Issued(iid, w.invoices[iid]));
  }

  /** The first check-out under a new key, once it has gone through with both its saves. */
  lemma FirstCheckOut(w: World, id: string, driver: string, key: string, invoiceId: string, io: CheckOutIo)
    requires Billing.KeysUnique(w.invoices)
    requires !Redis.Live(w.redis, Idempotency.CacheKey(key), io.desk.checkAt)
    requires !Redis.Live(Reservation.CheckOut(Desk(w), id, driver, key, io.desk).desk.redis,
                         Idempotency.CacheKey("inv-" + key), io.bill.checkAt)
    requires CheckOutBilled(w, id, driver, key, invoiceId, io).result.Ok? && io.desk.saveUp && io.bill.saveUp
    ensures var out := CheckOutBilled(w, id, driver, key, invoiceId, io);
            var after := out.world;
            && Billing.KeysUnique(after.invoices) && invoiceId in after.invoices
            && after.invoices[invoiceId].key == "inv-" + key
            && out.result == Ok(Billing.Issued(invoiceId, after.invoices[invoiceId]))
            && id in after.rows && after.rows[id].checkInAt.Some? && after.rows[id].checkOutAt == Some(io.desk.stampAt)
    ensures var redis := CheckOutBilled(w, id, driver, key, invoiceId, io).world.redis;
            var invKey := Idempotency.CacheKey("inv-" + key);
            && Idempotency.CacheKey(key) in redis && invKey in redis
            && redis[Idempotency.CacheKey(key)].deadline == io.desk.stampAt + DEFAULT_TTL
            && redis[invKey].deadline == io.bill.saveAt + DEFAULT_TTL
  {
    assert |Idempotency.CacheKey("inv-" + key)| != |Idempotency.CacheKey(key)|;
  }

  /** Repeating a check-out within a day, with its calls getting through, changes nothing and gives the first answer. */
  lemma RepeatAnswersSame(w: World, id: string, driver: string, key: string, invoiceId: string, io: CheckOutIo,
                          other: string, again: CheckOutIo)
    requires Billing.KeysUnique(w.invoices)
    requires !Redis.Live(w.redis, Idempotency.CacheKey(key), io.desk.checkAt)
    requires !Redis.Live(Reservation.CheckOut(Desk(w), id, driver, key, io.desk).desk.redis,
                         Idempotency.CacheKey("inv-" + key), io.bill.checkAt)
    requires CheckOutBilled(w, id, driver, key, invoiceId, io).result.Ok? && io.desk.saveUp && io.bill.saveUp
    requires again.desk.checkAt < io.desk.stampAt + DEFAULT_TTL && again.bill.checkAt < io.bill.saveAt + DEFAULT_TTL
    requires again.desk.checkUp && again.desk.getUp && again.getUp && again.bill.checkUp && again.bill.readUp
    ensures var out := CheckOutBilled(w, id, driver, key, invoiceId, io);
            CheckOutBilled(out.world, id, driver, key, other, again) == out
  {
    FirstCheckOut(w, id, driver, key, invoiceId, io);
    CachedCheckOut(CheckOutBilled(w, id, driver, key, invoiceId, io).world, id, driver, key, other, again, invoiceId);
  }

  // ---- In whose name ----

  /** The cache path of a check-out does not ask whose reservation it is. */
  predicate OwnIfCached(w: World, m: Move) {
    m.OnCheckOut? && m.reservationId in w.rows
    && Redis.Live(w.redis, Idempotency.CacheKey(m.key), m.checkOut.desk.checkAt)
    ==> w.rows[m.reservationId].driver == m.driver
  }

  ghost predicate AllOwnIfCached(w: World, moves: seq<Move>)
    decreases |moves|
  {
    moves != [] ==> OwnIfCached(w, moves[0]) && AllOwnIfCached(Apply(w, moves[0]), moves[1..])
  }

  /** Every check-out invoice is in the name of its reservation's driver. */
  ghost predicate OwnersBilled(w: World) {
    forall id | id in w.invoices && w.invoices[id].kind == Billing.ParkingSession && CheckOutKey(w.invoices[id].key) ::
      w.invoices[id].reservationId in w.rows && w.invoices[id].driver == w.rows[w.invoices[id].reservationId].driver
  }

  lemma CheckOutBillsOwner(w: World, clock: Time, m: Move)
    requires OwnersBilled(w) && m.OnCheckOut? && CanMove(w, clock, m) && OwnIfCached(w, m)
    ensures OwnersBilled(Apply(w, m))
  {
    var after := Apply(w, m);
    CheckOutIssues(w, m.reservationId, m.driver, m.key, m.id, m.checkOut);
    DriversStay(w, clock, m);
    if after.invoices != w.invoices {
      assert m.reservationId in w.rows && w.rows[m.reservationId].driver == m.driver;
    }
  }

  lemma DriversStay(w: World, clock: Time, m: Move)
    requires CanMove(w, clock, m)
    ensures forall r | r in w.rows :: r in Apply(w, m).rows && Apply(w, m).rows[r].driver == w.rows[r].driver
  {
    RowsMove(w, clock, m);
    forall r | r in w.rows ensures r in Apply(w, m).rows && Apply(w, m).rows[r].driver == w.rows[r].driver {
      if DeskStep(m).Some? {
        Lifecycle.StepFollowsEdges(Desk(w), clock, DeskStep(m).value, r);
      }
    }
  }

  lemma OtherMovesBillNone(w: World, clock: Time, m: Move, id: string)
    requires CanMove(w, clock, m) && !m.OnCheckOut? && id in Apply(w, m).invoices
    requires Apply(w, m).invoices[id].kind == Billing.ParkingSession && CheckOutKey(Apply(w, m).invoices[id].key)
    ensures id in w.invoices
  {
  }

  lemma MoveBillsOwners(w: World, clock: Time, m: Move)
    requires OwnersBilled(w) && CanMove(w, clock, m) && OwnIfCached(w, m)
    ensures OwnersBilled(Apply(w, m))
  {
    if m.OnCheckOut? {
      CheckOutBillsOwner(w, clock, m);
    } else {
      DriversStay(w, clock, m);
      MoveKeepsCharges(w, m);
      var after := Apply(w, m);
      forall id | id in after.invoices && after.invoices[id].kind == Billing.ParkingSession
                  && CheckOutKey(after.invoices[id].key)
        ensures after.invoices[id].reservationId in after.rows
        ensures after.invoices[id].driver == after.rows[after.invoices[id].reservationId].driver
      {
        OtherMovesBillNone(w, clock, m, id);
        assert SameCharge(w.invoices[id], after.invoices[id]);
      }
    }
  }

  /** If check-outs that hit the cache come from the reservation's own driver, every check-out invoice of every run is
      in the name of its reservation's driver. */
  lemma {:induction false} RunBillsOwners(w: World, clock: Time, moves: seq<Move>)
    requires OwnersBilled(w) && Legal(w, clock, moves) && AllOwnIfCached(w, moves)
    ensures OwnersBilled(Exec(w, moves))
    decreases |moves|
  {
    if moves != [] {
      MoveBillsOwners(w, clock, moves[0]);
      RunBillsOwners(Apply(w, moves[0]), End(clock, moves[0]), moves[1..]);
    }
  }

  /** The driver checks out; the service saves the key, but the invoice's INSERT fails. */
  const UNBILLED: Move :=
    OnCheckOut("res", "driver", "leave", "bill",
               CheckOutIo(Reservation.CheckOutIo(2, 2, true, true, true, true, true), true,
                          Billing.InvoiceIo(2, 2, true, true, false, false)))

  /** Someone else repeats the call with the same key. */
  const OTHERS: Move :=
    OnCheckOut("res", "other", "leave", "bill",
               CheckOutIo(Reservation.CheckOutIo(3, 3, true, true, true, true, true), true,
                          Billing.InvoiceIo(3, 3, true, true, true, false)))

  const ARRIVED: seq<Move> := CONFIRMED + [CheckingIn("res", 1, 1)]

  /** A run that leaves the invoice in the name of another driver. */
  lemma OtherDriverBilled()
    ensures Legal(EMPTY, 0, ARRIVED + [UNBILLED] + [OTHERS])
    ensures var w := Exec(EMPTY, ARRIVED + [UNBILLED] + [OTHERS]);
            && "res" in w.rows && w.rows["res"].driver == "driver"
            && "bill" in w.invoices && w.invoices["bill"].kind == Billing.ParkingSession
            && w.invoices["bill"].reservationId == "res" && w.invoices["bill"].driver == "other"
  {
    var w := Arrived(1, 1);
    Then(EMPTY, 0, ARRIVED, w, 1, UNBILLED);
    LeftUnbilled(w);
    w := Apply(w, UNBILLED);
    Then(EMPTY, 0, ARRIVED + [UNBILLED], w, 2, OTHERS);
    BilledToOther(w);
  }

  lemma LeftUnbilled(w: World)
    requires w.rows == map["res" := ArrivedRow(1)] && w.invoices.Keys == {"fee"}
    requires w.redis == map[Lock.LockKey(SPOT) := Redis.Entry("res", HOLD_DURATION)]
    ensures var after := Apply(w, UNBILLED);
            && after.rows == map["res" := LeftRow(1, 2)] && after.invoices == w.invoices
            && after.redis == map[Idempotency.CacheKey("leave") := Redis.Entry("res", 2 + DEFAULT_TTL)]
  {
    assert !Redis.Live(w.redis, Idempotency.CacheKey("leave"), 2);
    assert w.redis - {Lock.LockKey(SPOT)} == map[];
    assert w.rows["res" := LeftRow(1, 2)] == map["res" := LeftRow(1, 2)];
  }

  lemma BilledToOther(w: World)
    requires w.rows == map["res" := LeftRow(1, 2)] && w.invoices.Keys == {"fee"}
    requires w.invoices["fee"].key == InvoiceKey("res")
    requires w.redis == map[Idempotency.CacheKey("leave") := Redis.Entry("res", 2 + DEFAULT_TTL)]
    ensures var after := Apply(w, OTHERS);
            && after.rows == w.rows && "bill" in after.invoices && after.invoices["bill"].kind == Billing.ParkingSession
            && after.invoices["bill"].reservationId == "res" && after.invoices["bill"].driver == "other"
  {
    assert InvoiceKey("res")[0] != ("inv-" + "leave")[0];
    assert |Idempotency.CacheKey("inv-" + "leave")| != |Idempotency.CacheKey("leave")|;
  }
}
