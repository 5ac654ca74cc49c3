/** What each operation of the reservation, payment and billing services does when it goes through, and exactly when it
    does, in the words of the tables and of Redis: statuses, dates, amounts, keys and lifetimes. */
module Operations {
  import opened Clock
  import opened Wrappers
  import Billing
  import Gateway
  import Payments
  import Pricing
  import Redis
  import Reservation

  function SpotLock(spot: string): string {
    "spot:" + spot + ":lock"
  }

  /** Giving a lock back removes it exactly if it is the reservation's and the call gets through. */
  function GivenBack(redis: Redis.Keyspace, spot: string, id: string, up: bool): Redis.Keyspace {
    if up && SpotLock(spot) in redis && redis[SpotLock(spot)].value == id then redis - {SpotLock(spot)} else redis
  }

  /** A response saved for a day under an idempotency key, if the call gets through. */
  function Saved(redis: Redis.Keyspace, key: string, response: string, now: Time, up: bool): Redis.Keyspace {
    if up then redis["idempotency:" + key := Redis.Entry(response, now + 24 * HOUR)] else redis
  }

  predicate Cached(redis: Redis.Keyspace, key: string, now: Time) {
    "idempotency:" + key in redis && now < redis["idempotency:" + key].deadline
  }

  /** A new booking: exactly when one is made, its row, its five-minute lock and its saved key. */
  lemma CreateExactly(d: Reservation.Desk, q: Reservation.CreateRequest, io: Reservation.CreateIo)
    requires io.checkUp && !Cached(d.redis, q.key, io.checkAt)
    ensures var out := Reservation.Create(d, q, io);
            && (out.result.Ok? <==>
                && io.lookupUp && q.spot.Some? && io.acquireUp && io.insertUp && q.id !in d.rows
                && (forall id | id in d.rows :: d.rows[id].key != q.key)
                && (SpotLock(q.spot.value) in d.redis ==> io.acquireAt >= d.redis[SpotLock(q.spot.value)].deadline))
            && (out.result.Ok? ==>
                  var row := Reservation.Row(q.driver, q.spot.value, Reservation.Pending, q.mode, q.key, io.stampAt,
                                             io.stampAt + 5 * MINUTE, None, None, None, None);
                  var locked := d.redis[SpotLock(q.spot.value) := Redis.Entry(q.id, io.acquireAt + 5 * MINUTE)];
                  && out.result == Ok(Reservation.Booking(q.id, row)) && out.desk.rows == d.rows[q.id := row]
                  && out.desk.redis == Saved(locked, q.key, q.id, io.stampAt, io.saveUp))
            && (out.result.Err? ==> out.desk.rows == d.rows)
  {
  }

  /** A cancellation, and its fee: nothing in the first two minutes, 5000 after. */
  lemma CancelExactly(d: Reservation.Desk, id: string, driver: string, io: Reservation.CancelIo)
    ensures var out := Reservation.Cancel(d, id, driver, io);
            && (out.result.Ok? <==>
                && io.getUp && io.updateUp && id in d.rows && d.rows[id].driver == driver
                && (d.rows[id].status == Reservation.Pending || d.rows[id].status == Reservation.Confirmed))
            && (out.result.Ok? ==>
                  var row := d.rows[id].(status := Reservation.Cancelled, cancelledAt := Some(io.now));
                  && out.result.value.booking == Reservation.Booking(id, row)
                  && out.result.value.fee == (if io.now <= d.rows[id].confirmedAt + 2 * MINUTE then 0 else 5_000)
                  && out.desk.rows == d.rows[id := row]
                  && out.desk.redis == GivenBack(d.redis, d.rows[id].spot, id, io.releaseUp))
            && (out.result.Err? ==> out.desk == d)
  {
  }

  /** A check-in, up to and including the deadline, opens the session and leaves Redis alone. */
  lemma CheckInExactly(d: Reservation.Desk, id: string, driver: string, session: string, io: Reservation.CheckInIo)
    ensures var out := Reservation.CheckIn(d, id, driver, session, io);
            && (out.result.Ok? <==>
                && io.getUp && io.updateUp && id in d.rows && d.rows[id].driver == driver
                && d.rows[id].status == Reservation.Confirmed && io.guardAt <= d.rows[id].expiresAt)
            && (out.result.Ok? ==>
                  var row := d.rows[id].(status := Reservation.Active, session := Some(session),
                                         checkInAt := Some(io.stampAt));
                  && out.result == Ok(Reservation.Booking(id, row)) && out.desk.rows == d.rows[id := row])
            && out.desk.redis == d.redis && (out.result.Err? ==> out.desk == d)
  {
  }

  /** A check-out under a key not in the cache ends the session, gives the lock back and saves the key. */
  lemma CheckOutExactly(d: Reservation.Desk, id: string, driver: string, key: string, io: Reservation.CheckOutIo)
    requires !Cached(d.redis, key, io.checkAt)
    ensures var out := Reservation.CheckOut(d, id, driver, key, io);
            && (out.result.Ok? <==>
                && io.checkUp && io.getUp && io.updateUp && id in d.rows && d.rows[id].driver == driver
                && d.rows[id].status == Reservation.Active)
            && (out.result.Ok? ==>
                  var row := d.rows[id].(status := Reservation.Completed, checkOutAt := Some(io.stampAt));
                  && out.result == Ok(Reservation.Booking(id, row)) && out.desk.rows == d.rows[id := row]
                  && out.desk.redis ==
                     Saved(GivenBack(d.redis, d.rows[id].spot, id, io.releaseUp), key, id, io.stampAt, io.saveUp))
            && (out.result.Err? ==> out.desk == d)
  {
  }

  /** The reservation service's own confirmation of a pending reservation, for an hour, and the lock it takes if that
      is free. */
  lemma DirectConfirmExactly(d: Reservation.Desk, id: string, io: Reservation.DirectConfirmIo)
    ensures var out := Reservation.ConfirmDirect(d, id, io);
            && (out.result.Ok? <==>
                io.getUp && io.updateUp && id in d.rows && d.rows[id].status == Reservation.Pending)
            && (out.result.Ok? ==>
                  var row := d.rows[id].(status := Reservation.Confirmed, confirmedAt := io.now,
                                         expiresAt := io.now + HOUR);
                  var key := SpotLock(d.rows[id].spot);
                  && out.result == Ok(Reservation.Booking(id, row)) && out.desk.rows == d.rows[id := row]
                  && out.desk.redis == if io.lockUp && (key in d.redis ==> io.lockAt >= d.redis[key].deadline)
                                       then d.redis[key := Redis.Entry(id, io.lockAt + HOUR)] else d.redis)
            && (out.result.Err? ==> out.desk == d)
  {
  }

  /** The gateway's confirmation redates whatever lock is alive on the reservation's spot to an hour from its EXPIRE. */
  lemma ConfirmationExtendsExactly(d: Reservation.Desk, id: string, io: Reservation.ConfirmIo)
    ensures var out := Reservation.ConfirmPaid(d, id, io);
            out.desk.redis ==
            if id in d.rows && d.rows[id].spot != "" && io.updateUp && io.selectUp && io.expireUp
               && SpotLock(d.rows[id].spot) in d.redis && io.expireAt < d.redis[SpotLock(d.rows[id].spot)].deadline
            then d.redis[SpotLock(d.rows[id].spot) :=
                         Redis.Entry(d.redis[SpotLock(d.rows[id].spot)].value, io.expireAt + HOUR)]
            else d.redis
  {
  }

  /** The eight payment methods. */
  predicate Method(name: string) {
    || name == "QRIS" || name == "GOPAY" || name == "OVO" || name == "DANA"
    || name == "VA_BCA" || name == "VA_BNI" || name == "VA_BRI" || name == "VA_MANDIRI"
  }

  function OrderNumber(id: string): string {
    "PP-" + if |id| <= 8 then id else id[..8]
  }

  /** A new transaction is pending, for the amount asked, on an invoice that exists, by one of the eight methods. */
  lemma TransactionExactly(t: Payments.Till, invoices: set<string>, q: Payments.TxRequest, io: Payments.TxIo)
    requires io.checkUp && !Cached(t.redis, q.key, io.checkAt)
    ensures var out := Payments.CreateTx(t, invoices, q, io);
            && (out.result.Ok? <==>
                && Method(q.payMethod) && io.providerUp && io.insertUp && q.invoiceId in invoices && q.id !in t.txs
                && (forall i | i in t.txs :: t.txs[i].key != q.key && t.txs[i].orderId != OrderNumber(q.id)))
            && (out.result.Ok? ==>
                  var tx := Payments.Transaction(q.invoiceId, q.driver, OrderNumber(q.id), q.payMethod,
                                                 Payments.TxPending, q.amount, q.key, None);
                  && out.result == Ok(Payments.Payment(q.id, tx)) && out.till.txs == t.txs[q.id := tx]
                  && out.till.redis == Saved(t.redis, q.key, q.id, io.saveAt, io.saveUp))
            && (out.result.Err? ==> out.till == t)
            && (!Method(q.payMethod) ==> out.result == Err(UnsupportedMethod))
  {
    if |q.id| == 8 {
      assert q.id[..8] == q.id;
    }
    assert Payments.OrderId(q.id) == OrderNumber(q.id);
  }

  /** A notice that takes effect keeps its key for a day. */
  lemma NoticeSaved(t: Payments.Till, d: Payments.Delivery, io: Payments.WebhookIo)
    ensures var out := Payments.Notify(t, d, io);
            var key := "webhook:" + d.orderId + ":" + d.status;
            out.result.Ok? && !out.result.value.isDuplicate ==>
              && out.result.value.tx.Some?
              && out.till.redis == if io.saveUp
                                   then t.redis[key := Redis.Entry(out.result.value.tx.value, d.at + 24 * HOUR)]
                                   else t.redis
  {
  }

  /** A new parking invoice is unpaid and itemised for the stay it was asked for. */
  lemma InvoiceExactly(f: Billing.Folder, reservations: set<string>, q: Billing.InvoiceRequest, io: Billing.InvoiceIo)
    requires io.checkUp && !Cached(f.redis, q.key, io.checkAt)
    ensures var out := Billing.Generate(f, reservations, q, io);
            && (out.result.Ok? <==>
                && io.insertUp && q.reservationId in reservations && q.id !in f.invoices
                && (forall i | i in f.invoices :: f.invoices[i].key != q.key))
            && (out.result.Ok? ==>
                  var invoice := out.result.value.invoice;
                  && out.result.value.id == q.id && Itemised(invoice, q)
                  && out.folder.invoices == f.invoices[q.id := invoice]
                  && out.folder.redis == Saved(f.redis, q.key, q.id, io.saveAt, io.saveUp))
            && (out.result.Err? ==> out.folder == f)
  {
    Pricing.BillItemised(q.checkIn, q.checkOut);
    Pricing.WholeMinutesMeaning(q.checkOut - q.checkIn, Pricing.WholeMinutes(q.checkOut - q.checkIn));
    Pricing.WholeMinutesMeaning(q.checkIn - q.checkOut, Pricing.WholeMinutes(q.checkIn - q.checkOut));
  }

  /** The gateway's booking invoice: the one its key has, if it can be read, or a new unpaid one of 5000. */
  lemma BookingInvoiceExactly(w: Gateway.World, reservationId: string, driver: string, key: string, id: string,
                              io: Gateway.BookingInvoiceIo)
    requires Billing.KeysUnique(w.invoices)
    ensures var out := Gateway.BookingInvoice(w, reservationId, driver, key, id, io);
            var used := exists i :: i in w.invoices && w.invoices[i].key == key;
            && (out.result.Ok? <==>
                (io.selectUp && used) || (io.insertUp && !used && reservationId in w.rows && id !in w.invoices))
            && (used || out.result.Err? ==> out.world == w)
            && (out.result.Ok? && used ==>
                  out.result.value in w.invoices && w.invoices[out.result.value].key == key)
            && (out.result.Ok? && !used ==>
                  && out.result == Ok(id) && id in out.world.invoices
                  && out.world == w.(invoices := w.invoices[id := out.world.invoices[id]])
                  && UnpaidFee(out.world.invoices[id], reservationId, driver, key))
  {
  }

  predicate UnpaidFee(invoice: Billing.Invoice, reservationId: string, driver: string, key: string) {
    && invoice.kind == Billing.BookingFee && invoice.reservationId == reservationId
    && invoice.driver == driver && invoice.key == key && invoice.session.None?
    && invoice.bookingFee == 5_000 && invoice.totalAmount == 5_000
    && invoice.parkingFee == 0 && invoice.overnightFee == 0
    && invoice.billedHours == 0 && !invoice.isOvernight && invoice.durationMins == 0
    && invoice.status == Billing.PendingPayment && invoice.paidAt.None?
    && invoice.gatewayTxId.None? && invoice.payMethod.None?
  }

  ghost predicate Itemised(invoice: Billing.Invoice, q: Billing.InvoiceRequest) {
    var night := Pricing.MidnightBetween(q.checkIn, q.checkOut);
    && invoice.kind == Billing.ParkingSession && invoice.reservationId == q.reservationId
    && invoice.driver == q.driver && invoice.key == q.key
    && invoice.session == (if q.session == "" then None else Some(q.session))
    && invoice.bookingFee == 5_000
    && invoice.billedHours == Pricing.BilledHours(q.checkIn, q.checkOut)
    && invoice.parkingFee == 5_000 * invoice.billedHours
    && (invoice.isOvernight <==> night) && invoice.overnightFee == (if night then 20_000 else 0)
    && invoice.totalAmount == invoice.parkingFee + invoice.overnightFee
    && (q.checkIn <= q.checkOut ==>
          invoice.durationMins * MINUTE <= q.checkOut - q.checkIn < (invoice.durationMins + 1) * MINUTE)
    && (q.checkOut <= q.checkIn ==>
          -invoice.durationMins * MINUTE <= q.checkIn - q.checkOut < (-invoice.durationMins + 1) * MINUTE)
    && invoice.status == Billing.PendingPayment && invoice.paidAt.None?
    && invoice.gatewayTxId.None? && invoice.payMethod.None?
  }
}
