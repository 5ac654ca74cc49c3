/** What one run of the booking saga leaves behind: everything, or nothing that holds a spot or charges money. */
module Saga {
  import opened Clock
  import opened Gateway
  import Billing
  import Idempotency
  import Lock
  import Operations
  import Payments
  import Redis
  import Reservation

  /** The client key, and the ids about to be drawn, have never been used. */
  ghost predicate FreshRequest(w: World, q: Reservation.CreateRequest, invoiceId: string, txId: string) {
    && !Reservation.KeyUsed(w.rows, q.key) && q.id !in w.rows
    && (forall i | i in w.invoices :: w.invoices[i].key != InvoiceKey(q.key)) && invoiceId !in w.invoices
    && (forall i | i in w.txs :: w.txs[i].key != PayKey(q.key)) && txId !in w.txs
    && (forall key | key in w.redis :: w.redis[key].value != q.id)
    && Idempotency.CacheKey(q.key) !in w.redis && Idempotency.CacheKey(PayKey(q.key)) !in w.redis
  }

  /** The saga is undone in full only if its rollback calls get through. */
  predicate RollbackUp(io: SagaIo) {
    io.create.releaseUp && io.cancel.getUp && io.cancel.updateUp && io.cancel.releaseUp
  }

  predicate Timed(io: SagaIo) {
    io.create.checkAt <= io.create.acquireAt <= io.create.stampAt <= io.pay.checkAt <= io.cancel.now
  }

  /** Every reader of a spot lock sees the same from t on. */
  ghost predicate SameLocks(a: Redis.Keyspace, b: Redis.Keyspace, t: Time) {
    forall spot, u | u >= t :: Redis.Read(a, Lock.LockKey(spot), u) == Redis.Read(b, Lock.LockKey(spot), u)
  }

  /** A reservation pending for five minutes from the given instant. */
  predicate PendingRow(row: Reservation.Row, q: Reservation.CreateRequest, at: Time)
    requires q.spot.Some?
  {
    && row.driver == q.driver && row.spot == q.spot.value && row.mode == q.mode && row.key == q.key
    && row.status == Reservation.Pending && row.confirmedAt == at && row.expiresAt == at + 5 * MINUTE
    && row.checkInAt.None? && row.checkOutAt.None? && row.cancelledAt.None? && row.session.None?
  }

  /** The unpaid booking-fee invoice of the requested reservation. */
  predicate UnpaidFee(invoice: Billing.Invoice, q: Reservation.CreateRequest) {
    Operations.UnpaidFee(invoice, q.id, q.driver, "booking-" + q.key)
  }

  /** A pending QRIS transaction of 5000 on the invoice, under the first eight characters of its id. */
  predicate PendingCharge(tx: Payments.Transaction, q: Reservation.CreateRequest, invoiceId: string, txId: string) {
    && tx.invoiceId == invoiceId && tx.driver == q.driver && tx.amount == 5_000 && tx.payMethod == "QRIS"
    && tx.key == "pay-booking-" + q.key && tx.orderId == "PP-" + (if |txId| < 8 then txId else txId[..8])
    && tx.status == Payments.TxPending && tx.paidAt.None?
  }

  ghost predicate Completed(w: World, after: World, q: Reservation.CreateRequest, invoiceId: string, txId: string,
                            io: SagaIo)
  {
    && q.spot.Some?
    && q.id in after.rows && after.rows == w.rows[q.id := after.rows[q.id]]
    && PendingRow(after.rows[q.id], q, io.create.stampAt)
    && invoiceId in after.invoices && after.invoices == w.invoices[invoiceId := after.invoices[invoiceId]]
    && UnpaidFee(after.invoices[invoiceId], q)
    && txId in after.txs && after.txs == w.txs[txId := after.txs[txId]]
    && PendingCharge(after.txs[txId], q, invoiceId, txId)
    && Lock.LockKey(q.spot.value) in after.redis
    && after.redis[Lock.LockKey(q.spot.value)] == Redis.Entry(q.id, io.create.acquireAt + 5 * MINUTE)
    && SameLocks(w.redis - {Lock.LockKey(q.spot.value)}, after.redis - {Lock.LockKey(q.spot.value)},
                 io.create.acquireAt)
  }

  /** Nothing is charged, no spot is held, and the one reservation that may have been made is cancelled. An unpaid
      booking invoice may stay. */
  ghost predicate Undone(w: World, after: World, q: Reservation.CreateRequest, invoiceId: string, io: SagaIo) {
    && after.txs == w.txs
    && SameLocks(w.redis, after.redis, io.create.acquireAt)
    && (after.rows == w.rows
        || (q.id in after.rows && after.rows[q.id].status == Reservation.Cancelled
            && after.rows == w.rows[q.id := after.rows[q.id]]))
    && (after.invoices == w.invoices
        || (&& invoiceId in after.invoices && after.invoices == w.invoices[invoiceId := after.invoices[invoiceId]]
            && UnpaidFee(after.invoices[invoiceId], q)))
  }

  predicate CreateGoesThrough(w: World, q: Reservation.CreateRequest, io: Reservation.CreateIo) {
    && io.checkUp && io.lookupUp && io.acquireUp && io.insertUp
    && q.spot.Some? && !Redis.Live(w.redis, Lock.LockKey(q.spot.value), io.acquireAt)
  }

  predicate PayGoesThrough(w: World, txId: string, io: Payments.TxIo) {
    && io.checkUp && io.providerUp && io.insertUp
    && (forall i | i in w.txs :: w.txs[i].orderId != Payments.OrderId(txId))
  }

  /** The saga's way through: a spot found and free, and every call it needs answered. */
  predicate Smooth(w: World, q: Reservation.CreateRequest, txId: string, io: SagaIo) {
    CreateGoesThrough(w, q, io.create) && io.invoice.insertUp && PayGoesThrough(w, txId, io.pay)
  }

  /** The world once the first call has made the reservation and taken its lock. */
  ghost predicate Reserved(w: World, w1: World, q: Reservation.CreateRequest, io: SagaIo) {
    && q.spot.Some? && !Redis.Live(w.redis, Lock.LockKey(q.spot.value), io.create.acquireAt)
    && w1.rows == w.rows[q.id := Reservation.NewRow(q, q.spot.value, io.create.stampAt)]
    && w1.txs == w.txs
    && (var locked := Redis.Put(w.redis, Lock.LockKey(q.spot.value), q.id, PAYMENT_TIMEOUT, io.create.acquireAt);
        w1.redis == if io.create.saveUp
                    then Redis.Put(locked, Idempotency.CacheKey(q.key), q.id, DEFAULT_TTL, io.create.stampAt)
                    else locked)
  }

  lemma FirstCall(w: World, q: Reservation.CreateRequest, invoiceId: string, txId: string, io: SagaIo)
    requires FreshRequest(w, q, invoiceId, txId) && Timed(io)
    ensures var out := Reservation.Create(Desk(w), q, io.create);
            && (out.result.Ok? <==> CreateGoesThrough(w, q, io.create))
            && if out.result.Ok? then
              && Reserved(w, WithDesk(w, out.desk), q, io)
              && out.result.value == Reservation.Booking(q.id, Reservation.NewRow(q, q.spot.value, io.create.stampAt))
            else out.desk.rows == w.rows
                 && (io.create.releaseUp ==> SameLocks(w.redis, out.desk.redis, io.create.acquireAt))
  {
  }

  lemma SecondCall(w: World, w1: World, q: Reservation.CreateRequest, invoiceId: string, txId: string, io: SagaIo)
    requires FreshRequest(w, q, invoiceId, txId) && Reserved(w, w1, q, io) && w1.invoices == w.invoices
    ensures var out := BookingInvoice(w1, q.id, q.driver, InvoiceKey(q.key), invoiceId, io.invoice);
            && (out.result.Ok? <==> io.invoice.insertUp)
            && if out.result.Ok? then
              && out.result.value == invoiceId
              && out.world ==
                 w1.(invoices := w.invoices[invoiceId := Billing.BookingInvoice(q.id, q.driver, InvoiceKey(q.key))])
            else out.world == w1
  {
  }

  lemma ThirdCall(w: World, w2: World, q: Reservation.CreateRequest, invoiceId: string, txId: string, io: SagaIo)
    requires FreshRequest(w, q, invoiceId, txId) && Reserved(w, w2, q, io) && invoiceId in w2.invoices
    ensures var request := Payments.TxRequest(invoiceId, q.driver, PayKey(q.key), "QRIS", 5_000, txId);
            var out := Pay(w2, request, io.pay);
            && (out.result.Ok? <==> PayGoesThrough(w, txId, io.pay))
            && if out.result.Ok? then
              && out.world.rows == w2.rows && out.world.invoices == w2.invoices
              && out.world.txs == w.txs[txId := Payments.NewTransaction(request)]
              && out.world.redis == if io.pay.saveUp
                                    then Redis.Put(w2.redis, Idempotency.CacheKey(PayKey(q.key)), txId, DEFAULT_TTL,
                                                   io.pay.saveAt)
                                    else w2.redis
            else out.world == w2
  {
    PayKeyDiffers(q.key);
    assert Payments.Supported("QRIS");
    assert Idempotency.CacheKey(PayKey(q.key)) !in w2.redis;
  }

  /** Cancelling what the first call made frees exactly its lock. */
  lemma CompensationUndoes(w: World, w1: World, q: Reservation.CreateRequest, io: SagaIo)
    requires Timed(io) && RollbackUp(io) && q.id !in w.rows && Reserved(w, w1, q, io)
    ensures var after := Compensated(w1, q.id, q.driver, io.cancel);
            && after.invoices == w1.invoices && after.txs == w1.txs
            && q.id in after.rows && after.rows[q.id].status == Reservation.Cancelled
            && after.rows == w.rows[q.id := after.rows[q.id]]
            && SameLocks(w.redis, after.redis, io.create.acquireAt)
  {
    var key := Lock.LockKey(q.spot.value);
    var after := Compensated(w1, q.id, q.driver, io.cancel);
    assert after.redis == w1.redis - {key};
    assert after.rows == w1.rows[q.id := after.rows[q.id]];
  }

  /** All or nothing, for a key used for the first time, whatever remote calls fail. On the smooth way, and only
      there, the saga answers with the pending reservation, its five-minute lock, one 5000 booking invoice and one
      pending 5000 transaction on that invoice; otherwise it fails and, its rollback calls getting through, leaves no
      transaction, no lock and no reservation but a cancelled one. */
  lemma AllOrNothing(w: World, q: Reservation.CreateRequest, invoiceId: string, txId: string, io: SagaIo)
    requires FreshRequest(w, q, invoiceId, txId) && Timed(io)
    ensures var out := Book(w, q, invoiceId, txId, io);
            && (out.result.Ok? <==> Smooth(w, q, txId, io))
            && (out.result.Ok? ==> Completed(w, out.world, q, invoiceId, txId, io))
            && (out.result.Err? && RollbackUp(io) ==> Undone(w, out.world, q, invoiceId, io))
  {
    FirstCall(w, q, invoiceId, txId, io);
    var created := Reservation.Create(Desk(w), q, io.create);
    if created.result.Ok? {
      var w1 := WithDesk(w, created.desk);
      SecondCall(w, w1, q, invoiceId, txId, io);
      var invoiced := BookingInvoice(w1, q.id, q.driver, InvoiceKey(q.key), invoiceId, io.invoice);
      if invoiced.result.Err? {
        if RollbackUp(io) { CompensationUndoes(w, w1, q, io); }
      } else {
        LastCalls(w, invoiced.world, q, invoiceId, txId, io);
      }
    }
  }

  lemma LastCalls(w: World, w2: World, q: Reservation.CreateRequest, invoiceId: string, txId: string, io: SagaIo)
    requires FreshRequest(w, q, invoiceId, txId) && Timed(io) && Reserved(w, w2, q, io)
    requires w2.invoices == w.invoices[invoiceId := Billing.BookingInvoice(q.id, q.driver, InvoiceKey(q.key))]
    ensures var request := Payments.TxRequest(invoiceId, q.driver, PayKey(q.key), "QRIS", 5_000, txId);
            var out := Pay(w2, request, io.pay);
            && (out.result.Ok? <==> PayGoesThrough(w, txId, io.pay))
            && if out.result.Ok? then Completed(w, out.world, q, invoiceId, txId, io)
            else RollbackUp(io) ==> Undone(w, Compensated(out.world, q.id, q.driver, io.cancel), q, invoiceId, io)
  {
    ThirdCall(w, w2, q, invoiceId, txId, io);
    if RollbackUp(io) { CompensationUndoes(w, w2, q, io); }
  }

  lemma PayKeyDiffers(key: string)
    ensures Idempotency.CacheKey(PayKey(key)) != Idempotency.CacheKey(key)
  {
    assert |Idempotency.CacheKey(PayKey(key))| != |Idempotency.CacheKey(key)|;
  }
}
