/** Retrying a booking with a key already used: when success means that the spot is held, and what a failure undoes. */
module Retry {
  import opened Clock
  import opened Wrappers
  import opened Gateway
  import opened Saga
  import Billing
  import Idempotency
  import Ledger
  import Lock
  import Payments
  import Protocol
  import Redis
  import Reservation
  import SystemSafety

  const EMPTY: World := Ledger.EMPTY

  /** Why the key must be fresh. Retrying with the key of a saga that was rolled back hits the cache, takes the
      cancelled reservation for a booking and charges for it: the answer is a success, yet no spot is held. */
  lemma RetryChargesCancelledBooking(w: World, q: Reservation.CreateRequest, earlier: string, invoiceId: string,
                                     txId: string, io: SagaIo)
    requires Reservation.KeysUnique(w.rows) && Billing.KeysUnique(w.invoices)
    requires earlier in w.rows && w.rows[earlier].key == q.key && w.rows[earlier].status == Reservation.Cancelled
    requires Redis.Live(w.redis, Idempotency.CacheKey(q.key), io.create.checkAt)
    requires !Redis.Live(w.redis, Idempotency.CacheKey(PayKey(q.key)), io.pay.checkAt)
    requires io.create.checkUp && io.create.readUp && io.invoice.selectUp && io.invoice.insertUp
    requires io.pay.checkUp && io.pay.providerUp && io.pay.insertUp
    requires invoiceId !in w.invoices && Payments.CanInsert(w.txs, txId, Payments.NewTransaction(
                                           Payments.TxRequest("", q.driver, PayKey(q.key), "QRIS", 5_000, txId)))
    ensures var out := Book(w, q, invoiceId, txId, io);
            && out.result.Ok? && out.result.value.booking == Reservation.Booking(earlier, w.rows[earlier])
            && out.world.rows == w.rows
            && txId in out.world.txs && out.world.txs == w.txs[txId := out.world.txs[txId]]
            && out.world.txs[txId].amount == 5_000 && out.world.txs[txId].status == Payments.TxPending
  {
    assert Reservation.ByKey(w.rows, q.key) == Ok(Reservation.Booking(earlier, w.rows[earlier]));
    var invoiced := BookingInvoice(w, earlier, q.driver, InvoiceKey(q.key), invoiceId, io.invoice);
    if i :| i in w.invoices && w.invoices[i].key == InvoiceKey(q.key) {
      assert Billing.ByKey(w.invoices, InvoiceKey(q.key)).Ok?;
    }
    assert invoiced.result.Ok? && invoiced.result.value in invoiced.world.invoices;
    assert Payments.Supported("QRIS");
  }

  lemma ChargeKeepsRows(w: World, booking: Reservation.Booking, q: Reservation.CreateRequest, invoiceId: string,
                        txId: string, io: SagaIo)
    requires Charge(w, booking, q, invoiceId, txId, io).result.Ok?
    ensures Charge(w, booking, q, invoiceId, txId, io).world.rows == w.rows
    ensures Charge(w, booking, q, invoiceId, txId, io).result.value.booking == booking
  {
  }

  /** At the given instant the reservation is in hold and its spot's lock is in its name. */
  predicate HoldsAt(w: World, id: string, t: Time) {
    && id in w.rows && Protocol.InHold(w.rows[id])
    && Redis.Read(w.redis, Lock.LockKey(w.rows[id].spot), t) == Some(id)
  }

  /** Charging writes cache keys only. */
  lemma ChargeKeepsLocks(w: World, booking: Reservation.Booking, q: Reservation.CreateRequest, invoiceId: string,
                         txId: string, io: SagaIo, spot: string, t: Time)
    requires Charge(w, booking, q, invoiceId, txId, io).result.Ok?
    ensures Redis.Read(Charge(w, booking, q, invoiceId, txId, io).world.redis, Lock.LockKey(spot), t) ==
            Redis.Read(w.redis, Lock.LockKey(spot), t)
  {
  }

  /** Exactly when an answer of success means that the reservation it names holds its spot at t. If the key was not in
      the cache, a new reservation was made and t comes before its payment timeout. If it was, nothing was made, and the
      reservation the key was used for must hold its spot already, which the saga never looks at. */
  lemma SuccessHoldsIff(w: World, q: Reservation.CreateRequest, invoiceId: string, txId: string, io: SagaIo, t: Time)
    requires Reservation.KeysUnique(w.rows) && Book(w, q, invoiceId, txId, io).result.Ok?
    ensures var out := Book(w, q, invoiceId, txId, io);
            HoldsAt(out.world, out.result.value.booking.id, t) <==>
            if Redis.Live(w.redis, Idempotency.CacheKey(q.key), io.create.checkAt)
            then forall id | id in w.rows && w.rows[id].key == q.key :: HoldsAt(w, id, t)
            else t < io.create.acquireAt + PAYMENT_TIMEOUT
  {
    var created := Reservation.Create(Desk(w), q, io.create);
    var booking := created.result.value;
    var w1 := WithDesk(w, created.desk);
    ChargeKeepsRows(w1, booking, q, invoiceId, txId, io);
    assert booking.id in w1.rows && w1.rows[booking.id] == booking.row;
    ChargeKeepsLocks(w1, booking, q, invoiceId, txId, io, booking.row.spot, t);
    if Redis.Live(w.redis, Idempotency.CacheKey(q.key), io.create.checkAt) {
      assert w1 == w && booking.row.key == q.key;
    } else {
      NewHold(w, q, io.create, t);
    }
  }

  lemma NewHold(w: World, q: Reservation.CreateRequest, io: Reservation.CreateIo, t: Time)
    requires Reservation.Create(Desk(w), q, io).result.Ok?
    requires !Redis.Live(w.redis, Idempotency.CacheKey(q.key), io.checkAt)
    ensures var out := Reservation.Create(Desk(w), q, io);
            && out.result.value == Reservation.Booking(q.id, Reservation.NewRow(q, q.spot.value, io.stampAt))
            && (Redis.Read(out.desk.redis, Lock.LockKey(q.spot.value), t) == Some(q.id) <==>
                t < io.acquireAt + PAYMENT_TIMEOUT)
  {
  }

  /** In every reachable state a reservation in hold does hold its spot, up to its deadline less the slack. */
  lemma RunningHoldsHold(clock: Time, moves: seq<Ledger.Move>, slack: int, id: string, t: Time)
    requires slack >= 0 && Ledger.Legal(EMPTY, clock, moves) && SystemSafety.AllPrompt(EMPTY, moves, slack)
    requires id in Ledger.Exec(EMPTY, moves).rows && Protocol.InHold(Ledger.Exec(EMPTY, moves).rows[id])
    requires Ledger.ClockAfter(clock, moves) <= t < Ledger.Exec(EMPTY, moves).rows[id].expiresAt - slack
    ensures HoldsAt(Ledger.Exec(EMPTY, moves), id, t)
  {
    SystemSafety.RunKeepsHolds(EMPTY, clock, moves, slack);
    assert Protocol.Covered(Desk(Ledger.Exec(EMPTY, moves)), id, slack);
  }
  /** The provider does not answer; every other call gets through. */
  const PROVIDER_DOWN: SagaIo :=
    SagaIo(Reservation.CreateIo(0, 0, 0, true, true, true, true, true, true, true), BookingInvoiceIo(true, true),
           Payments.TxIo(0, 0, true, true, false, true, true), Reservation.CancelIo(0, true, true, true))

  const ALL_UP: SagaIo :=
    SagaIo(Reservation.CreateIo(1, 1, 1, true, true, true, true, true, true, true), BookingInvoiceIo(true, true),
           Payments.TxIo(1, 1, true, true, true, true, true), Reservation.CancelIo(1, true, true, true))

  function Asking(id: string): Reservation.CreateRequest {
    Reservation.CreateRequest("driver", "key", Reservation.UserSelected, Some("A1"), id)
  }

  /** What a saga leaves of an empty system when only the provider fails it: its row cancelled, its lock gone, its
      invoice unpaid, and its key in the cache. */
  lemma RolledBack() returns (w: World)
    ensures Book(EMPTY, Asking("first"), "fee", "tx", PROVIDER_DOWN) == Outcome(w, Err(StoreDown))
    ensures w.rows == map["first" := Reservation.NewRow(Asking("first"), "A1", 0)
                                     .(status := Reservation.Cancelled, cancelledAt := Some(0))]
    ensures w.invoices == map["fee" := Billing.BookingInvoice("first", "driver", InvoiceKey("key"))] && w.txs == map[]
    ensures w.redis == map[Idempotency.CacheKey("key") := Redis.Entry("first", DEFAULT_TTL)]
  {
    var q := Asking("first");
    var out := Book(EMPTY, q, "fee", "tx", PROVIDER_DOWN);
    w := out.world;
    FirstCall(EMPTY, q, "fee", "tx", PROVIDER_DOWN);
    var created := Reservation.Create(Desk(EMPTY), q, PROVIDER_DOWN.create);
    var w1 := WithDesk(EMPTY, created.desk);
    SecondCall(EMPTY, w1, q, "fee", "tx", PROVIDER_DOWN);
    var w2 := BookingInvoice(w1, "first", "driver", InvoiceKey("key"), "fee", PROVIDER_DOWN.invoice).world;
    ThirdCall(EMPTY, w2, q, "fee", "tx", PROVIDER_DOWN);
    CompensationUndoes(EMPTY, w2, q, PROVIDER_DOWN);
  }

  ghost predicate ChargedForCancelled(out: Outcome<Booked>) {
    && out.result.Ok? && out.result.value.booking.id == "first"
    && out.world.rows.Keys == {"first"} && out.world.rows["first"].status == Reservation.Cancelled
    && out.world.txs.Keys == {"tx2"} && out.world.txs["tx2"].amount == 5_000
    && out.world.txs["tx2"].status == Payments.TxPending
  }

  lemma RetryFrom(w: World)
    requires w.rows.Keys == {"first"} && w.rows["first"].key == "key" && w.rows["first"].status == Reservation.Cancelled
    requires w.invoices == map["fee" := Billing.BookingInvoice("first", "driver", InvoiceKey("key"))] && w.txs == map[]
    requires w.redis == map[Idempotency.CacheKey("key") := Redis.Entry("first", DEFAULT_TTL)]
    ensures ChargedForCancelled(Book(w, Asking("second"), "fee2", "tx2", ALL_UP))
  {
    PayKeyDiffers("key");
    RetryChargesCancelledBooking(w, Asking("second"), "first", "fee2", "tx2", ALL_UP);
  }

  /** So a client that tries again with the key of that failed booking is told it succeeded, with a new 5000
      transaction, for the reservation that was cancelled. */
  lemma RetryAfterRollback()
    ensures var rolledBack := Book(EMPTY, Asking("first"), "fee", "tx", PROVIDER_DOWN);
            rolledBack.result.Err?
            && ChargedForCancelled(Book(rolledBack.world, Asking("second"), "fee2", "tx2", ALL_UP))
  {
    var w := RolledBack();
    RetryFrom(w);
  }

  // ---- A retry after the hold has run out ----

  function UpAt(t: Time): SagaIo {
    SagaIo(Reservation.CreateIo(t, t, t, true, true, true, true, true, true, true), BookingInvoiceIo(true, true),
           Payments.TxIo(t, t, true, true, true, true, true), Reservation.CancelIo(t, true, true, true))
  }

  /** What a smooth saga makes of the world. */
  function Smoothed(w: World, q: Reservation.CreateRequest, invoiceId: string, txId: string, t: Time): World
    requires q.spot.Some?
  {
    var locked := Redis.Put(w.redis, Lock.LockKey(q.spot.value), q.id, PAYMENT_TIMEOUT, t);
    var saved := Redis.Put(locked, Idempotency.CacheKey(q.key), q.id, DEFAULT_TTL, t);
    World(w.rows[q.id := Reservation.NewRow(q, q.spot.value, t)],
          w.invoices[invoiceId := Billing.BookingInvoice(q.id, q.driver, InvoiceKey(q.key))],
          w.txs[txId := Payments.NewTransaction(
                          Payments.TxRequest(invoiceId, q.driver, PayKey(q.key), "QRIS", 5_000, txId))],
          Redis.Put(saved, Idempotency.CacheKey(PayKey(q.key)), txId, DEFAULT_TTL, t))
  }

  lemma SmoothBooking(w: World, q: Reservation.CreateRequest, invoiceId: string, txId: string, t: Time)
    requires FreshRequest(w, q, invoiceId, txId) && Smooth(w, q, txId, UpAt(t))
    ensures Book(w, q, invoiceId, txId, UpAt(t)).result.Ok?
    ensures Book(w, q, invoiceId, txId, UpAt(t)).world == Smoothed(w, q, invoiceId, txId, t)
  {
    var io := UpAt(t);
    FirstCall(w, q, invoiceId, txId, io);
    var w1 := WithDesk(w, Reservation.Create(Desk(w), q, io.create).desk);
    SecondCall(w, w1, q, invoiceId, txId, io);
    var w2 := BookingInvoice(w1, q.id, q.driver, InvoiceKey(q.key), invoiceId, io.invoice).world;
    ThirdCall(w, w2, q, invoiceId, txId, io);
  }

  function By(driver: string, key: string, id: string): Reservation.CreateRequest {
    Reservation.CreateRequest(driver, key, Reservation.UserSelected, Some("A1"), id)
  }

  const FIRST: World := Smoothed(EMPTY, By("ann", "k1", "first"), "fee1", "tx1", 0)

  const SECOND: World := Smoothed(FIRST, By("bob", "k2", "second"), "fee2", "tx2", PAYMENT_TIMEOUT)

  lemma FirstBooked()
    ensures Book(EMPTY, By("ann", "k1", "first"), "fee1", "tx1", UpAt(0)).world == FIRST
  {
    SmoothBooking(EMPTY, By("ann", "k1", "first"), "fee1", "tx1", 0);
  }

  lemma KeysDiffer()
    ensures InvoiceKey("k1") != InvoiceKey("k2") && PayKey("k1") != PayKey("k2")
    ensures Idempotency.CacheKey("k2") !in {Idempotency.CacheKey("k1"), Idempotency.CacheKey(PayKey("k1"))}
    ensures Idempotency.CacheKey(PayKey("k2")) !in {Idempotency.CacheKey("k1"), Idempotency.CacheKey(PayKey("k1"))}
    ensures Payments.OrderId("tx1") != Payments.OrderId("tx2")
  {
    assert InvoiceKey("k1")[9] != InvoiceKey("k2")[9] && PayKey("k1")[13] != PayKey("k2")[13];
    assert Idempotency.CacheKey("k1")[13] != Idempotency.CacheKey("k2")[13];
    assert |Idempotency.CacheKey("k2")| == 14 && |Idempotency.CacheKey(PayKey("k1"))| == 26;
    assert Idempotency.CacheKey(PayKey("k1"))[25] != Idempotency.CacheKey(PayKey("k2"))[25];
    assert |Idempotency.CacheKey("k1")| == 14 && |Idempotency.CacheKey(PayKey("k2"))| == 26;
    assert Payments.OrderId("tx1")[5] != Payments.OrderId("tx2")[5];
  }

  lemma SecondBooked()
    ensures Book(FIRST, By("bob", "k2", "second"), "fee2", "tx2", UpAt(PAYMENT_TIMEOUT)).world == SECOND
  {
    KeysDiffer();
    SmoothBooking(FIRST, By("bob", "k2", "second"), "fee2", "tx2", PAYMENT_TIMEOUT);
  }

  /** A retry that finds both its keys in the cache and its three rows in the tables changes nothing and repeats the
      first answer, whatever has become of the reservation. */
  lemma RepeatAnswersSame(w: World, q: Reservation.CreateRequest, invoiceId: string, txId: string, t: Time,
                          id: string, iid: string, tid: string)
    requires Reservation.KeysUnique(w.rows) && Billing.KeysUnique(w.invoices) && Payments.Unique(w.txs)
    requires id in w.rows && w.rows[id].key == q.key
    requires iid in w.invoices && w.invoices[iid].key == InvoiceKey(q.key)
    requires tid in w.txs && w.txs[tid].key == PayKey(q.key)
    requires Redis.Live(w.redis, Idempotency.CacheKey(q.key), t)
    requires Redis.Live(w.redis, Idempotency.CacheKey(PayKey(q.key)), t)
    ensures Book(w, q, invoiceId, txId, UpAt(t)) ==
            Outcome(w, Ok(Booked(Reservation.Booking(id, w.rows[id]), iid, Payments.Payment(tid, w.txs[tid]))))
  {
    assert Reservation.ByKey(w.rows, q.key) == Ok(Reservation.Booking(id, w.rows[id]));
    assert Billing.ByKey(w.invoices, InvoiceKey(q.key)) == Ok(Billing.Issued(iid, w.invoices[iid]));
    assert Payments.ByKey(w.txs, PayKey(q.key)) == Ok(Payments.Payment(tid, w.txs[tid]));
  }

  /** The spot is the second driver's, though the first row still reads as pending. */
  lemma SpotTaken()
    ensures SECOND.rows.Keys == {"first", "second"} && SECOND.rows["first"].status == Reservation.Pending
    ensures !HoldsAt(SECOND, "first", PAYMENT_TIMEOUT + 1) && HoldsAt(SECOND, "second", PAYMENT_TIMEOUT + 1)
    ensures Reservation.KeysUnique(SECOND.rows) && SECOND.rows["first"].key == "k1"
  {
  }

  lemma FirstStillCharged()
    ensures "fee1" in SECOND.invoices && SECOND.invoices["fee1"].key == InvoiceKey("k1")
    ensures "tx1" in SECOND.txs && SECOND.txs["tx1"].key == PayKey("k1")
    ensures Billing.KeysUnique(SECOND.invoices) && Payments.Unique(SECOND.txs)
  {
    KeysDiffer();
    assert SECOND.invoices.Keys == {"fee1", "fee2"} && SECOND.txs.Keys == {"tx1", "tx2"};
  }

  lemma FirstStillCached()
    ensures Redis.Live(SECOND.redis, Idempotency.CacheKey("k1"), PAYMENT_TIMEOUT + 1)
    ensures Redis.Live(SECOND.redis, Idempotency.CacheKey(PayKey("k1")), PAYMENT_TIMEOUT + 1)
  {
    KeysDiffer();
    PayKeyDiffers("k1");
  }

  /** A driver lets the payment timeout pass, another books the spot, and the first tries again with the same key: the
      answer is a success, for a reservation that is pending still, while the spot is the other driver's. */
  lemma LapsedRetrySucceeds()
    ensures Book(EMPTY, By("ann", "k1", "first"), "fee1", "tx1", UpAt(0)).world == FIRST
    ensures Book(FIRST, By("bob", "k2", "second"), "fee2", "tx2", UpAt(PAYMENT_TIMEOUT)).world == SECOND
    ensures var out := Book(SECOND, By("ann", "k1", "third"), "fee3", "tx3", UpAt(PAYMENT_TIMEOUT + 1));
            out.result.Ok? && out.result.value.booking.id == "first" && out.world == SECOND
    ensures "first" in SECOND.rows && SECOND.rows["first"].status == Reservation.Pending
    ensures !HoldsAt(SECOND, "first", PAYMENT_TIMEOUT + 1) && HoldsAt(SECOND, "second", PAYMENT_TIMEOUT + 1)
  {
    FirstBooked();
    SecondBooked();
    SpotTaken();
    FirstStillCharged();
    FirstStillCached();
    RepeatAnswersSame(SECOND, By("ann", "k1", "third"), "fee3", "tx3", PAYMENT_TIMEOUT + 1, "first", "fee1", "tx1");
  }

  // ---- What a failed retry undoes ----

  /** The failure rolls the reservation back, and finds it in a status that can be cancelled. */
  predicate UndoesEarlier(w: World, q: Reservation.CreateRequest, io: SagaIo, earlier: string)
    requires earlier in w.rows
  {
    && io.create.checkUp && io.create.readUp && Redis.Live(w.redis, Idempotency.CacheKey(q.key), io.create.checkAt)
    && io.cancel.getUp && io.cancel.updateUp
    && w.rows[earlier].driver == q.driver && w.rows[earlier].status in {Reservation.Pending, Reservation.Confirmed}
  }

  /** Exactly when a retry that fails cancels the reservation its key was used for, paid or not: the key was in the
      cache, the rollback got through, and the reservation is the driver's own and not yet begun. */
  lemma FailureUndoesEarlierIff(w: World, q: Reservation.CreateRequest, invoiceId: string, txId: string, io: SagaIo,
                                earlier: string)
    requires Reservation.KeysUnique(w.rows) && earlier in w.rows && w.rows[earlier].key == q.key
    requires Book(w, q, invoiceId, txId, io).result.Err?
    ensures var after := Book(w, q, invoiceId, txId, io).world;
            && (after.rows != w.rows <==> UndoesEarlier(w, q, io, earlier))
            && (UndoesEarlier(w, q, io, earlier) ==>
                  after.rows == w.rows[earlier := w.rows[earlier].(status := Reservation.Cancelled,
                                                                   cancelledAt := Some(io.cancel.now))])
  {
    assert Reservation.ByKey(w.rows, q.key) == Ok(Reservation.Booking(earlier, w.rows[earlier]));
    var created := Reservation.Create(Desk(w), q, io.create);
    if created.result.Ok? {
      assert created.result.value.id == earlier && WithDesk(w, created.desk) == w;
      FailedChargeRows(w, created.result.value, q, invoiceId, txId, io);
    }
  }

  lemma FailedChargeRows(w: World, booking: Reservation.Booking, q: Reservation.CreateRequest, invoiceId: string,
                         txId: string, io: SagaIo)
    requires Charge(w, booking, q, invoiceId, txId, io).result.Err?
    ensures Charge(w, booking, q, invoiceId, txId, io).world.rows ==
            Reservation.Cancel(Desk(w), booking.id, q.driver, io.cancel).desk.rows
  {
  }

  // The first booking, paid and confirmed.

  const SETTLED: World := Settle(FIRST, "tx1", 1, SettleIo(true, true, true, true)).world

  const CONFIRM: ConfirmBookingIo := ConfirmBookingIo(true, true, Reservation.ConfirmIo(2, 2, true, true, true))

  const PAID: World := ConfirmBooking(SETTLED, "tx1", "first", CONFIRM).world

  /** A retry whose SELECT of the payment fails. */
  const READ_DOWN: SagaIo :=
    UpAt(3).(pay := Payments.TxIo(3, 3, true, false, true, true, true))

  /** A driver books, pays and is confirmed; a retry of the booking with the same key hits a passing fault, and the saga
      cancels the paid reservation and gives its spot away. */
  lemma RetryCancelsPaidBooking()
    ensures Book(EMPTY, By("ann", "k1", "first"), "fee1", "tx1", UpAt(0)).world == FIRST
    ensures "first" in PAID.rows && PAID.rows["first"].status == Reservation.Confirmed && HoldsAt(PAID, "first", 3)
    ensures "tx1" in PAID.txs && PAID.txs["tx1"].status == Payments.Settled
    ensures var out := Book(PAID, By("ann", "k1", "second"), "fee2", "tx2", READ_DOWN);
            && out.result.Err?
            && "first" in out.world.rows && out.world.rows["first"].status == Reservation.Cancelled
  {
    FirstBooked();
    PaidBooking();
    RetryFails();
    FailureUndoesEarlierIff(PAID, By("ann", "k1", "second"), "fee2", "tx2", READ_DOWN, "first");
  }

  lemma PaidBooking()
    ensures PAID.rows.Keys == {"first"} && PAID.rows["first"].key == "k1" && PAID.rows["first"].driver == "ann"
    ensures PAID.rows["first"].status == Reservation.Confirmed && HoldsAt(PAID, "first", 3)
    ensures PAID.txs.Keys == {"tx1"} && PAID.txs["tx1"].status == Payments.Settled
    ensures Redis.Live(PAID.redis, Idempotency.CacheKey("k1"), 3)
    ensures Redis.Live(PAID.redis, Idempotency.CacheKey(PayKey("k1")), 3)
  {
    PayKeyDiffers("k1");
  }

  lemma RetryFails()
    ensures Book(PAID, By("ann", "k1", "second"), "fee2", "tx2", READ_DOWN).result.Err?
  {
    PaidBooking();
  }
}
