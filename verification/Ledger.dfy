/** Runs of all services, money included: what every reachable state says about payments and invoices. */
module Ledger {
  import opened Clock
  import opened Wrappers
  import opened Gateway
  import Billing
  import Lifecycle
  import Payments
  import Pricing
  import Protocol
  import Redis
  import Reservation

  /** One serialised call to any service. */
  datatype Move =
    | OnDesk(step: Protocol.Step)
    | OnConfirm(txId: string, reservationId: string, confirm: ConfirmBookingIo)
    | OnBookingInvoice(reservationId: string, driver: string, key: string, id: string, invoice: BookingInvoiceIo)
    | OnCheckOut(reservationId: string, driver: string, key: string, id: string, checkOut: CheckOutIo)
    | OnPay(request: Payments.TxRequest, pay: Payments.TxIo)
    | OnNotify(delivery: Payments.Delivery, notify: Payments.WebhookIo)
    | OnSettle(txId: string, now: Time, settle: SettleIo)
    | OnMarkPaid(id: string, gatewayTxId: string, payMethod: string, now: Time)
    | OnEventInvoice(bill: Billing.InvoiceRequest, event: Billing.InvoiceIo)

  ghost function Apply(w: World, m: Move): World {
    match m
    case OnDesk(step) => WithDesk(w, Protocol.Apply(Desk(w), step))
    case OnConfirm(txId, reservationId, io) => ConfirmBooking(w, txId, reservationId, io).world
    case OnBookingInvoice(reservationId, driver, key, id, io) =>
      BookingInvoice(w, reservationId, driver, key, id, io).world
    case OnCheckOut(reservationId, driver, key, id, io) => CheckOutBilled(w, reservationId, driver, key, id, io).world
    case OnPay(request, io) => Pay(w, request, io).world
    case OnNotify(delivery, io) =>
      var till := Payments.Notify(Payments.Till(w.txs, w.redis), delivery, io).till;
      w.(txs := till.txs, redis := till.redis)
    case OnSettle(txId, now, io) => Settle(w, txId, now, io).world
    case OnMarkPaid(id, gatewayTxId, payMethod, now) =>
      w.(invoices := Billing.SetPaid(w.invoices, id, gatewayTxId, payMethod, now))
    case OnEventInvoice(bill, io) =>
      var folder := Billing.Generate(Billing.Folder(w.invoices, w.redis), w.rows.Keys, bill, io).folder;
      w.(invoices := folder.invoices, redis := folder.redis)
  }

  /** The key of an invoice the gateway's check-out asks for. */
  predicate CheckOutKey(key: string) {
    "inv-" <= key
  }

  /** What the move does to the reservations, if it goes through. */
  function DeskStep(m: Move): Option<Protocol.Step> {
    match m
    case OnDesk(step) => Some(step)
    case OnConfirm(_, reservationId, io) => Some(Protocol.DoConfirmPaid(reservationId, io.desk))
    case OnCheckOut(reservationId, driver, key, _, io) => Some(Protocol.DoCheckOut(reservationId, driver, key, io.desk))
    case _ => None
  }

  function End(clock: Time, m: Move): Time {
    if DeskStep(m).Some? then Protocol.End(DeskStep(m).value) else clock
  }

  /** Confirmation happens only behind the gateway's payment check. Any other caller of GenerateInvoice, as the billing
      subscriber is with its random uuids, stays out of the check-out's keys. */
  ghost predicate CanMove(w: World, clock: Time, m: Move) {
    && (DeskStep(m).Some? ==> Protocol.CanStep(Desk(w), clock, DeskStep(m).value))
    && (m.OnDesk? ==> !m.step.DoConfirmPaid?)
    && (m.OnEventInvoice? ==> !CheckOutKey(m.bill.key))
  }

  predicate PromptCheckIns(m: Move, slack: int) {
    DeskStep(m).Some? ==> Lifecycle.PromptCheckIn(DeskStep(m).value, slack)
  }

  ghost function Exec(w: World, moves: seq<Move>): World
    decreases |moves|
  {
    if moves == [] then w else Exec(Apply(w, moves[0]), moves[1..])
  }

  function ClockAfter(clock: Time, moves: seq<Move>): Time
    decreases |moves|
  {
    if moves == [] then clock else ClockAfter(End(clock, moves[0]), moves[1..])
  }

  ghost predicate Legal(w: World, clock: Time, moves: seq<Move>)
    decreases |moves|
  {
    moves != [] ==> CanMove(w, clock, moves[0]) && Legal(Apply(w, moves[0]), End(clock, moves[0]), moves[1..])
  }

  const EMPTY: World := World(map[], map[], map[], map[])

  // ---- Invariants ----

  ghost predicate PaidDatesSound(w: World) {
    && (forall id | id in w.txs :: w.txs[id].paidAt.Some? <==> w.txs[id].status == Payments.Settled)
    && (forall id | id in w.invoices :: w.invoices[id].paidAt.Some? <==> w.invoices[id].status == Billing.Paid)
  }

  /** A check-out invoice prices the stay of its completed reservation from confirmation to check-out. */
  ghost predicate Priced(rows: Reservation.Table, invoice: Billing.Invoice) {
    match invoice.kind
    case BookingFee => invoice.totalAmount == 5_000 && invoice.bookingFee == 5_000 && invoice.reservationId in rows
    case ParkingSession =>
      && invoice.reservationId in rows
      && (CheckOutKey(invoice.key) ==>
            && rows[invoice.reservationId].status == Reservation.Completed
            && rows[invoice.reservationId].checkOutAt.Some?
            && BillsStay(invoice, rows[invoice.reservationId]))
  }

  /** The invoice is for the row's session, from its confirmation to its check-out: 5000 for each billed hour, 20000 if
      a midnight falls in it, the whole minutes for its duration, and the booking fee for show. */
  ghost predicate BillsStay(invoice: Billing.Invoice, row: Reservation.Row)
    requires row.checkOutAt.Some?
  {
    var from, to := row.confirmedAt, row.checkOutAt.value;
    var night := Pricing.MidnightBetween(from, to);
    && invoice.bookingFee == 5_000
    && invoice.billedHours == Pricing.BilledHours(from, to) && invoice.parkingFee == 5_000 * invoice.billedHours
    && (invoice.isOvernight <==> night) && invoice.overnightFee == (if night then 20_000 else 0)
    && invoice.totalAmount == invoice.parkingFee + invoice.overnightFee
    && (from <= to ==> invoice.durationMins * MINUTE <= to - from < (invoice.durationMins + 1) * MINUTE)
    && (row.session != Some("") ==> invoice.session == row.session)
  }

  ghost predicate AllPriced(w: World) {
    forall id | id in w.invoices :: Priced(w.rows, w.invoices[id])
  }

  ghost predicate Sound(w: World, now: Time, slack: int) {
    Lifecycle.Shaped(Desk(w), now, slack) && PaidDatesSound(w) && AllPriced(w)
  }

  /** What an issued invoice charges and for what. */
  predicate SameCharge(a: Billing.Invoice, b: Billing.Invoice) {
    a.(status := b.status, gatewayTxId := b.gatewayTxId, payMethod := b.payMethod, paidAt := b.paidAt) == b
  }

  predicate SameOrder(a: Payments.Transaction, b: Payments.Transaction) {
    a.(status := b.status, paidAt := b.paidAt) == b
  }

  ghost predicate ChargesKept(w: World, after: World) {
    && (forall id | id in w.invoices :: id in after.invoices && SameCharge(w.invoices[id], after.invoices[id]))
    && (forall id | id in w.txs :: id in after.txs && SameOrder(w.txs[id], after.txs[id]))
  }

  lemma MoneyLeavesRows(w: World, m: Move)
    requires DeskStep(m).None?
    ensures Apply(w, m).rows == w.rows
  {
  }

  lemma RowsMove(w: World, clock: Time, m: Move)
    requires CanMove(w, clock, m)
    ensures Apply(w, m).rows == w.rows
            || (DeskStep(m).Some? && Apply(w, m).rows == Protocol.Apply(Desk(w), DeskStep(m).value).rows)
  {
    if DeskStep(m).None? {
      MoneyLeavesRows(w, m);
    }
  }

  lemma BillIssues(w: World, booking: Reservation.Booking, driver: string, key: string, id: string,
                   io: Billing.InvoiceIo)
    requires booking.row.checkOutAt.Some?
    ensures var after := Bill(w, booking, driver, key, id, io).world;
            && after.txs == w.txs && after.rows == w.rows
            && (after.invoices == w.invoices
                || (&& id !in w.invoices && id in after.invoices
                    && after.invoices == w.invoices[id := after.invoices[id]]
                    && after.invoices[id].status == Billing.PendingPayment && after.invoices[id].paidAt.None?
                    && after.invoices[id].kind == Billing.ParkingSession
                    && after.invoices[id].reservationId == booking.id
                    && after.invoices[id].key == "inv-" + key && after.invoices[id].driver == driver
                    && BillsStay(after.invoices[id], booking.row)))
  {
    var from, to := booking.row.confirmedAt, booking.row.checkOutAt.value;
    Pricing.BillItemised(from, to);
    Pricing.WholeMinutesMeaning(to - from, Pricing.WholeMinutes(to - from));
  }

  /** A check-out issues at most one invoice, unpaid, over its reservation's stay from confirmation to check-out. */
  lemma CheckOutIssues(w: World, r: string, driver: string, key: string, id: string, io: CheckOutIo)
    ensures var after := CheckOutBilled(w, r, driver, key, id, io).world;
            && after.txs == w.txs
            && (after.invoices == w.invoices
                || (&& id !in w.invoices && id in after.invoices
                    && after.invoices == w.invoices[id := after.invoices[id]]
                    && after.invoices[id].status == Billing.PendingPayment && after.invoices[id].paidAt.None?
                    && after.invoices[id].kind == Billing.ParkingSession && after.invoices[id].reservationId == r
                    && after.invoices[id].key == "inv-" + key
                    && r in after.rows && after.rows[r].checkOutAt.Some?
                    && after.invoices[id].driver == driver
                    && BillsStay(after.invoices[id], after.rows[r])))
  {
    var out := Reservation.CheckOut(Desk(w), r, driver, key, io.desk);
    if out.result.Ok? && out.result.value.row.checkOutAt.Some? {
      BillIssues(WithDesk(w, out.desk), out.result.value, driver, key, id, io.bill);
    }
  }

  lemma PayingKeepsCharges(w: World, m: Move)
    requires m.OnConfirm? || m.OnMarkPaid?
    ensures ChargesKept(w, Apply(w, m))
  {
  }

  lemma BookingKeepsCharges(w: World, m: Move)
    requires m.OnBookingInvoice?
    ensures ChargesKept(w, Apply(w, m))
  {
  }

  lemma EventKeepsCharges(w: World, m: Move)
    requires m.OnEventInvoice?
    ensures ChargesKept(w, Apply(w, m))
  {
  }

  lemma SettlingKeepsCharges(w: World, m: Move)
    requires m.OnSettle?
    ensures ChargesKept(w, Apply(w, m))
  {
  }

  lemma PaymentKeepsCharges(w: World, m: Move)
    requires m.OnPay? || m.OnNotify?
    ensures ChargesKept(w, Apply(w, m))
  {
  }

  lemma MoveKeepsCharges(w: World, m: Move)
    ensures ChargesKept(w, Apply(w, m))
  {
    match m
    case OnDesk(_) =>
    case OnConfirm(_, _, _) => PayingKeepsCharges(w, m);
    case OnMarkPaid(_, _, _, _) => PayingKeepsCharges(w, m);
    case OnSettle(_, _, _) => SettlingKeepsCharges(w, m);
    case OnPay(_, _) => PaymentKeepsCharges(w, m);
    case OnNotify(_, _) => PaymentKeepsCharges(w, m);
    case OnBookingInvoice(_, _, _, _, _) => BookingKeepsCharges(w, m);
    case OnEventInvoice(_, _) => EventKeepsCharges(w, m);
    case OnCheckOut(r, driver, key, id, io) => CheckOutIssues(w, r, driver, key, id, io);
  }

  lemma PayingKeepsPaidDates(w: World, m: Move)
    requires PaidDatesSound(w) && (m.OnConfirm? || m.OnMarkPaid?)
    ensures PaidDatesSound(Apply(w, m))
  {
  }

  lemma BookingKeepsPaidDates(w: World, m: Move)
    requires PaidDatesSound(w) && (m.OnBookingInvoice? || m.OnEventInvoice?)
    ensures PaidDatesSound(Apply(w, m))
  {
  }

  lemma PaymentKeepsPaidDates(w: World, m: Move)
    requires PaidDatesSound(w) && (m.OnPay? || m.OnNotify? || m.OnSettle?)
    ensures PaidDatesSound(Apply(w, m))
  {
  }

  lemma MoveKeepsPaidDates(w: World, m: Move)
    requires PaidDatesSound(w)
    ensures PaidDatesSound(Apply(w, m))
  {
    if m.OnPay? || m.OnNotify? || m.OnSettle? {
      PaymentKeepsPaidDates(w, m);
    } else if m.OnConfirm? || m.OnMarkPaid? {
      PayingKeepsPaidDates(w, m);
    } else if m.OnBookingInvoice? || m.OnEventInvoice? {
      BookingKeepsPaidDates(w, m);
    } else if m.OnCheckOut? {
      CheckOutIssues(w, m.reservationId, m.driver, m.key, m.id, m.checkOut);
    }
  }

  lemma MoveKeepsShape(w: World, clock: Time, m: Move, slack: int)
    requires slack >= 0 && Lifecycle.Shaped(Desk(w), clock, slack) && CanMove(w, clock, m) && PromptCheckIns(m, slack)
    ensures Lifecycle.Shaped(Desk(Apply(w, m)), End(clock, m), slack)
  {
    RowsMove(w, clock, m);
    if DeskStep(m).Some? {
      Lifecycle.StepKeepsShape(Desk(w), clock, DeskStep(m).value, slack);
      Later(w.rows, Desk(w).redis, clock, End(clock, m), slack);
    }
  }

  lemma Later(rows: Reservation.Table, redis: Redis.Keyspace, now: Time, later: Time, slack: int)
    requires now <= later && Lifecycle.Shaped(Reservation.Desk(rows, redis), now, slack)
    ensures Lifecycle.Shaped(Reservation.Desk(rows, redis), later, slack)
  {
  }

  /** The rows an existing invoice was priced from never change again. */
  lemma PricedStays(w: World, clock: Time, m: Move, id: string)
    requires CanMove(w, clock, m) && AllPriced(w) && id in w.invoices
    ensures id in Apply(w, m).invoices && Priced(Apply(w, m).rows, Apply(w, m).invoices[id])
  {
    MoveKeepsCharges(w, m);
    RowsMove(w, clock, m);
    var r := w.invoices[id].reservationId;
    assert Priced(w.rows, w.invoices[id]);
    if DeskStep(m).Some? {
      Lifecycle.StepFollowsEdges(Desk(w), clock, DeskStep(m).value, r);
    }
  }

  lemma MoveKeepsPriced(w: World, clock: Time, m: Move, slack: int)
    requires slack >= 0 && Sound(w, clock, slack) && CanMove(w, clock, m) && PromptCheckIns(m, slack)
    ensures AllPriced(Apply(w, m))
  {
    var after := Apply(w, m);
    forall id | id in after.invoices ensures Priced(after.rows, after.invoices[id]) {
      if id in w.invoices {
        PricedStays(w, clock, m, id);
      } else {
        MoveKeepsShape(w, clock, m, slack);
        NewInvoicePriced(w, clock, m, slack, id);
      }
    }
  }

  lemma NewInvoicePriced(w: World, clock: Time, m: Move, slack: int, id: string)
    requires Lifecycle.Shaped(Desk(Apply(w, m)), End(clock, m), slack) && CanMove(w, clock, m)
    requires id in Apply(w, m).invoices && id !in w.invoices
    ensures Priced(Apply(w, m).rows, Apply(w, m).invoices[id])
  {
    var after := Apply(w, m);
    assert m.OnBookingInvoice? || m.OnCheckOut? || m.OnEventInvoice?;
    if m.OnCheckOut? {
      var r := m.reservationId;
      CheckOutIssues(w, r, m.driver, m.key, m.id, m.checkOut);
      assert r in after.rows && Lifecycle.Shape(after.rows[r], End(clock, m), slack);
    }
  }

  lemma {:induction false} RunIsSound(w: World, clock: Time, moves: seq<Move>, slack: int)
    requires slack >= 0 && Sound(w, clock, slack) && Legal(w, clock, moves)
    requires forall m | m in moves :: PromptCheckIns(m, slack)
    ensures Sound(Exec(w, moves), ClockAfter(clock, moves), slack)
    decreases |moves|
  {
    if moves != [] {
      var m := moves[0];
      MoveKeepsShape(w, clock, m, slack);
      MoveKeepsPaidDates(w, m);
      MoveKeepsPriced(w, clock, m, slack);
      RunIsSound(Apply(w, m), End(clock, m), moves[1..], slack);
    }
  }

  /** Over any run, no issued invoice changes what it charges, whom and for which stay, and no transaction its
      amount, invoice, order number or key, however often calls are retried and with whatever times. */
  lemma {:induction false} ChargesNeverChange(w: World, moves: seq<Move>)
    ensures ChargesKept(w, Exec(w, moves))
    decreases |moves|
  {
    if moves != [] {
      MoveKeepsCharges(w, moves[0]);
      ChargesNeverChange(Apply(w, moves[0]), moves[1..]);
    }
  }

  /** In every reachable state a transaction carries a paid date exactly while it is settled, and an invoice exactly
      when it is paid, whatever notifications, replays and simulated settlements came in whatever order. */
  lemma {:induction false} PaidDatesAlwaysSound(w: World, moves: seq<Move>)
    requires PaidDatesSound(w)
    ensures PaidDatesSound(Exec(w, moves))
    decreases |moves|
  {
    if moves != [] {
      MoveKeepsPaidDates(w, moves[0]);
      PaidDatesAlwaysSound(Apply(w, moves[0]), moves[1..]);
    }
  }

  // ---- Nothing is confirmed unpaid ----

  predicate BeyondPending(status: Reservation.Status) {
    status in {Reservation.Confirmed, Reservation.Active, Reservation.Completed}
  }

  /** Somewhere in the run the reservation, then pending, was confirmed on a transaction settled at that moment. */
  ghost predicate ConfirmedOnPayment(w: World, moves: seq<Move>, id: string)
    decreases |moves|
  {
    moves != [] &&
    (|| (&& moves[0].OnConfirm? && moves[0].reservationId == id && id in w.rows
         && w.rows[id].status == Reservation.Pending
         && moves[0].txId in w.txs && w.txs[moves[0].txId].status == Payments.Settled)
     || ConfirmedOnPayment(Apply(w, moves[0]), moves[1..], id))
  }

  lemma OnlyConfirmationLeavesPending(w: World, clock: Time, m: Move, id: string)
    requires CanMove(w, clock, m) && !(m.OnDesk? && m.step.DoConfirmDirect?)
    requires id in Apply(w, m).rows && BeyondPending(Apply(w, m).rows[id].status)
    requires id !in w.rows || !BeyondPending(w.rows[id].status)
    ensures m.OnConfirm? && m.reservationId == id && id in w.rows && w.rows[id].status == Reservation.Pending
    ensures m.txId in w.txs && w.txs[m.txId].status == Payments.Settled
  {
    RowsMove(w, clock, m);
    if id in w.rows && DeskStep(m).Some? {
      Lifecycle.StepFollowsEdges(Desk(w), clock, DeskStep(m).value, id);
    }
  }

  /** In every run a reservation that got beyond pending was confirmed on a settled payment. (The reservation
      service's own ConfirmReservation, which no handler calls, is the one way around.) */
  lemma {:induction false} NothingConfirmedUnpaid(w: World, clock: Time, moves: seq<Move>, id: string)
    requires Legal(w, clock, moves) && forall m | m in moves :: !(m.OnDesk? && m.step.DoConfirmDirect?)
    requires id !in w.rows || !BeyondPending(w.rows[id].status)
    requires id in Exec(w, moves).rows && BeyondPending(Exec(w, moves).rows[id].status)
    ensures ConfirmedOnPayment(w, moves, id)
    decreases |moves|
  {
    if moves != [] {
      var next := Apply(w, moves[0]);
      if id in next.rows && BeyondPending(next.rows[id].status) {
        OnlyConfirmationLeavesPending(w, clock, moves[0], id);
      } else {
        NothingConfirmedUnpaid(next, End(clock, moves[0]), moves[1..], id);
      }
    }
  }
}
