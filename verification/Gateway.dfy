/** The gateway: the booking saga with its compensation, payment confirmation, checkout and settlement. */
module Gateway {
  import opened Clock
  import opened Wrappers
  import Billing
  import Lock
  import Payments
  import Redis
  import Reservation
  import ReservationRepository
  import ReservationUsecase

  /** The three tables and the shared keyspace. */
  datatype World = World(rows: Reservation.Table, invoices: Billing.Invoices, txs: Payments.Ledger,
                         redis: Redis.Keyspace)

  datatype Outcome<+T> = Outcome(world: World, result: Result<T>)

  function Desk(w: World): Reservation.Desk {
    Reservation.Desk(w.rows, w.redis)
  }

  function WithDesk(w: World, d: Reservation.Desk): World {
    w.(rows := d.rows, redis := d.redis)
  }

  // ---- The booking saga ----

  datatype BookingInvoiceIo = BookingInvoiceIo(selectUp: bool, insertUp: bool)

  /** Returns the invoice the key already has, else inserts one; a failed SELECT is taken for a missing row. */
  ghost function BookingInvoice(w: World, reservationId: string, driver: string, key: string, id: string,
                                io: BookingInvoiceIo)
    : Outcome<string>
  {
    var found := if io.selectUp then Billing.ByKey(w.invoices, key) else Err(StoreDown);
    var invoice := Billing.BookingInvoice(reservationId, driver, key);
    if found.Ok? then Outcome(w, Ok(found.value.id))
    else if !io.insertUp || reservationId !in w.rows || !Billing.CanInsert(w.invoices, id, invoice) then
      Outcome(w, Err(InsertFailed))
    else Outcome(w.(invoices := w.invoices[id := invoice]), Ok(id))
  }

  ghost function Pay(w: World, q: Payments.TxRequest, io: Payments.TxIo): Outcome<Payments.Payment> {
    var out := Payments.CreateTx(Payments.Till(w.txs, w.redis), w.invoices.Keys, q, io);
    Outcome(w.(txs := out.till.txs, redis := out.till.redis), out.result)
  }

  function Compensated(w: World, id: string, driver: string, io: Reservation.CancelIo): World {
    WithDesk(w, Reservation.Cancel(Desk(w), id, driver, io).desk)
  }

  function InvoiceKey(key: string): string {
    "booking-" + key
  }

  function PayKey(key: string): string {
    "pay-booking-" + key
  }

  datatype SagaIo = SagaIo(create: Reservation.CreateIo, invoice: BookingInvoiceIo, pay: Payments.TxIo,
                           cancel: Reservation.CancelIo)

  datatype Booked = Booked(booking: Reservation.Booking, invoiceId: string, payment: Payments.Payment)

  /** What follows a reservation: the invoice, the payment, and the cancellation if either fails. */
  ghost function Charge(w: World, booking: Reservation.Booking, q: Reservation.CreateRequest, invoiceId: string,
                        txId: string, io: SagaIo)
    : Outcome<Booked>
  {
    var invoiced := BookingInvoice(w, booking.id, q.driver, InvoiceKey(q.key), invoiceId, io.invoice);
    if invoiced.result.Err? then
      Outcome(Compensated(invoiced.world, booking.id, q.driver, io.cancel), Err(invoiced.result.error))
    else
      var request := Payments.TxRequest(invoiced.result.value, q.driver, PayKey(q.key), "QRIS", 5_000, txId);
      var paid := Pay(invoiced.world, request, io.pay);
      if paid.result.Err? then
        Outcome(Compensated(paid.world, booking.id, q.driver, io.cancel), Err(paid.result.error))
      else Outcome(paid.world, Ok(Booked(booking, invoiced.result.value, paid.result.value)))
  }

  ghost function Book(w: World, q: Reservation.CreateRequest, invoiceId: string, txId: string, io: SagaIo)
    : Outcome<Booked>
  {
    var created := Reservation.Create(Desk(w), q, io.create);
    var w1 := WithDesk(w, created.desk);
    if created.result.Err? then Outcome(w1, Err(created.result.error))
    else Charge(w1, created.result.value, q, invoiceId, txId, io)
  }

  // ---- Confirming, settling, checking out ----

  datatype ConfirmBookingIo = ConfirmBookingIo(getUp: bool, invoiceUp: bool, desk: Reservation.ConfirmIo)

  function ConfirmBooking(w: World, txId: string, reservationId: string, io: ConfirmBookingIo): Outcome<()> {
    if !io.getUp || txId !in w.txs || w.txs[txId].status != Payments.Settled then Outcome(w, Err(NotSettled))
    else
      var invoices := if io.invoiceUp then Billing.SetBookingPaid(w.invoices, reservationId, io.desk.now)
                      else w.invoices;
      var confirmed := Reservation.ConfirmPaid(Desk(w), reservationId, io.desk);
      Outcome(WithDesk(w.(invoices := invoices), confirmed.desk), confirmed.result)
  }

  datatype SettleIo = SettleIo(getUp: bool, updateUp: bool, selectUp: bool, invoiceUp: bool)

  function Settle(w: World, txId: string, now: Time, io: SettleIo): Outcome<()> {
    if !io.getUp || txId !in w.txs then Outcome(w, Err(NotFound))
    else if !io.updateUp then Outcome(w, Err(StoreDown))
    else
      var invoiceId := w.txs[txId].invoiceId;
      var invoices := if io.selectUp && invoiceId != "" && io.invoiceUp
                      then Billing.SetPaid(w.invoices, invoiceId, w.txs[txId].orderId, "QRIS", now) else w.invoices;
      Outcome(w.(txs := Payments.SetStatus(w.txs, txId, Payments.Settled, Some(now)), invoices := invoices), Ok(()))
  }

  /** The billing half of checkout: an invoice over [ConfirmedAt, CheckOutAt] of the reservation as stored. */
  ghost function Bill(w: World, booking: Reservation.Booking, driver: string, key: string, invoiceId: string,
                      io: Billing.InvoiceIo)
    : Outcome<Billing.Issued>
    requires booking.row.checkOutAt.Some?
  {
    var session := if booking.row.session.Some? then booking.row.session.value else "";
    var request := Billing.InvoiceRequest(session, booking.id, driver, "inv-" + key,
                                          booking.row.confirmedAt, booking.row.checkOutAt.value, invoiceId);
    var out := Billing.Generate(Billing.Folder(w.invoices, w.redis), w.rows.Keys, request, io);
    Outcome(w.(invoices := out.folder.invoices, redis := out.folder.redis), out.result)
  }

  datatype CheckOutIo = CheckOutIo(desk: Reservation.CheckOutIo, getUp: bool, bill: Billing.InvoiceIo)

  /** Check-out, then the invoice. A replayed key may name a reservation that never checked out;
      the service has no check-out time to answer with and the call fails. */
  ghost function CheckOutBilled(w: World, id: string, driver: string, key: string, invoiceId: string, io: CheckOutIo)
    : Outcome<Billing.Issued>
  {
    var out := Reservation.CheckOut(Desk(w), id, driver, key, io.desk);
    var w1 := WithDesk(w, out.desk);
    if out.result.Err? then Outcome(w1, Err(out.result.error))
    else if out.result.value.row.checkOutAt.None? || out.result.value.row.checkInAt.None? then
      Outcome(w1, Err(WrongStatus))
    else if !io.getUp then Outcome(w1, Err(StoreDown))
    else Bill(w1, out.result.value, driver, key, invoiceId, io.bill)
  }

  // ---- The handlers, step by step ----

  class ExtraHandler {
    const reservations: ReservationRepository.Repository
    const invoices: Billing.Repository
    const txs: Payments.Repository
    const rdb: Redis.Client

    constructor (reservations: ReservationRepository.Repository, invoices: Billing.Repository,
                 txs: Payments.Repository, rdb: Redis.Client)
      ensures this.reservations == reservations && this.invoices == invoices && this.txs == txs && this.rdb == rdb
    {
      this.reservations := reservations;
      this.invoices := invoices;
      this.txs := txs;
      this.rdb := rdb;
    }

    ghost predicate Valid()
      reads reservations, invoices, txs
    {
      reservations.Valid() && invoices.Valid() && txs.Valid()
    }

    ghost function View(): World
      reads reservations, invoices, txs, rdb
    {
      World(reservations.rows, invoices.invoices, txs.txs, rdb.keys)
    }

    method CreateBookingFeeInvoice(reservationId: string, driver: string, key: string, id: string, io: BookingInvoiceIo)
      returns (r: Result<string>)
      requires Valid()
      modifies invoices
      ensures Valid()
      ensures Outcome(View(), r) == BookingInvoice(old(View()), reservationId, driver, key, id, io)
    {
      var found := invoices.GetByIdempotencyKey(key, io.selectUp);
      if found.Ok? {
        return Ok(found.value.id);
      }
      var invoice := Billing.BookingInvoice(reservationId, driver, key);
      var inserted := invoices.InsertInvoice(id, invoice, reservations.rows.Keys, io.insertUp);
      if !inserted {
        return Err(InsertFailed);
      }
      return Ok(id);
    }

    method ConfirmBookingPayment(txId: string, reservationId: string, io: ConfirmBookingIo) returns (r: Result<()>)
      requires Valid()
      modifies reservations, invoices, rdb
      ensures Valid()
      ensures Outcome(View(), r) == ConfirmBooking(old(View()), txId, reservationId, io)
    {
      if !io.getUp || txId !in txs.txs || txs.txs[txId].status != Payments.Settled {
        return Err(NotSettled);
      }

      var now := io.desk.now;
      if io.invoiceUp {
        invoices.invoices := Billing.SetBookingPaid(invoices.invoices, reservationId, now);
      }

      if !io.desk.updateUp {
        return Err(StoreDown);
      }
      if reservationId in reservations.rows && reservations.rows[reservationId].status == Reservation.Pending {
        var _ := reservations.UpdateConfirmed(reservationId, now, now + HOLD_DURATION, true);
      }

      if io.desk.selectUp && reservationId in reservations.rows && reservations.rows[reservationId].spot != "" {
        var lockKey := Lock.LockKey(reservations.rows[reservationId].spot);
        rdb.Expire(lockKey, HOLD_DURATION, io.desk.expireAt, io.desk.expireUp);
      }
      return Ok(());
    }

    method SimulateSettle(txId: string, now: Time, io: SettleIo) returns (r: Result<()>)
      requires Valid()
      modifies invoices, txs
      ensures Valid()
      ensures Outcome(View(), r) == Settle(old(View()), txId, now, io)
    {
      if !io.getUp || txId !in txs.txs {
        return Err(NotFound);
      }
      var orderId := txs.txs[txId].orderId;
      var updated := txs.UpdateStatus(txId, Payments.Settled, Some(now), io.updateUp);
      if !updated {
        return Err(StoreDown);
      }
      if io.selectUp {
        var invoiceId := txs.txs[txId].invoiceId;
        if invoiceId != "" {
          var _ := invoices.MarkPaid(invoiceId, orderId, "QRIS", now, io.invoiceUp);
        }
      }
      return Ok(());
    }
  }

  class GatewayHandler {
    const reservation: ReservationUsecase.Usecase
    const billing: Billing.Usecase
    const payment: Payments.Usecase
    const extra: ExtraHandler

    constructor (reservation: ReservationUsecase.Usecase, billing: Billing.Usecase,
                 payment: Payments.Usecase, extra: ExtraHandler)
      ensures this.reservation == reservation && this.billing == billing
              && this.payment == payment && this.extra == extra
    {
      this.reservation := reservation;
      this.billing := billing;
      this.payment := payment;
      this.extra := extra;
    }

    /** All services work on the same tables and the same Redis. */
    ghost predicate Valid()
      reads extra.reservations, extra.invoices, extra.txs
    {
      && reservation.repo == extra.reservations && billing.repo == extra.invoices && payment.repo == extra.txs
      && reservation.locker.rdb == extra.rdb && reservation.idempotency.rdb == extra.rdb
      && billing.idempotency.rdb == extra.rdb && payment.idempotency.rdb == extra.rdb
      && extra.Valid()
    }

    ghost function View(): World
      reads extra.reservations, extra.invoices, extra.txs, extra.rdb
    {
      extra.View()
    }

    method CreateReservation(q: Reservation.CreateRequest, invoiceId: string, txId: string, io: SagaIo)
      returns (r: Result<Booked>)
      requires Valid()
      modifies extra.reservations, extra.invoices, extra.txs, extra.rdb
      ensures Valid()
      ensures Outcome(View(), r) == Book(old(View()), q, invoiceId, txId, io)
    {
      ghost var w := View();
      var created := reservation.CreateReservation(q, io.create);
      if created.Err? {
        return Err(created.error);
      }
      var booking := created.value;
      ghost var w1 := View();
      assert w1 == WithDesk(w, Reservation.Create(Desk(w), q, io.create).desk);

      var invoiced := extra.CreateBookingFeeInvoice(booking.id, q.driver, InvoiceKey(q.key), invoiceId, io.invoice);
      if invoiced.Err? {
        var _ := reservation.CancelReservation(booking.id, q.driver, io.cancel);
        return Err(invoiced.error);
      }

      var request := Payments.TxRequest(invoiced.value, q.driver, PayKey(q.key), "QRIS", 5_000, txId);
      var paid := payment.CreateTransaction(request, extra.invoices.invoices.Keys, io.pay);
      if paid.Err? {
        var _ := reservation.CancelReservation(booking.id, q.driver, io.cancel);
        return Err(paid.error);
      }
      return Ok(Booked(booking, invoiced.value, paid.value));
    }

    method CheckOut(id: string, driver: string, key: string, invoiceId: string, io: CheckOutIo)
      returns (r: Result<Billing.Issued>)
      requires Valid()
      modifies extra.reservations, extra.invoices, extra.rdb
      ensures Valid()
      ensures Outcome(View(), r) == CheckOutBilled(old(View()), id, driver, key, invoiceId, io)
    {
      var out := reservation.CheckOut(id, driver, key, io.desk);
      if out.Err? {
        return Err(out.error);
      }
      if out.value.row.checkOutAt.None? || out.value.row.checkInAt.None? {
        return Err(WrongStatus);
      }
      var detail := extra.reservations.GetReservation(id, io.getUp);
      if detail.Err? {
        return Err(detail.error);
      }
      var session := if out.value.row.session.Some? then out.value.row.session.value else "";
      var request := Billing.InvoiceRequest(session, id, driver, "inv-" + key,
                                            detail.value.row.confirmedAt, out.value.row.checkOutAt.value, invoiceId);
      r := billing.GenerateInvoice(request, extra.reservations.rows.Keys, io.bill);
    }
  }
}
