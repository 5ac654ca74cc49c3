/** What is paid, by which call, and that nothing else is. */
module PaidFor {
  import opened Clock
  import opened Wrappers
  import opened Gateway
  import opened Ledger
  import Billing
  import Payments
  import Reservation

  /** The confirmation is let through: its transaction was read and is settled. */
  predicate Admitted(w: World, txId: string, io: ConfirmBookingIo) {
    io.getUp && txId in w.txs && w.txs[txId].status == Payments.Settled
  }

  /** A confirmation behind a settled transaction pays every booking-fee invoice of the reservation at that instant and
      leaves every other invoice as it was; no other confirmation changes any. */
  lemma ConfirmationPaysExactly(w: World, txId: string, reservationId: string, io: ConfirmBookingIo, id: string)
    requires id in w.invoices
    ensures var after := ConfirmBooking(w, txId, reservationId, io).world;
            && after.invoices.Keys == w.invoices.Keys && after.txs == w.txs
            && after.invoices[id] ==
               if Admitted(w, txId, io) && io.invoiceUp
                  && w.invoices[id].kind == Billing.BookingFee && w.invoices[id].reservationId == reservationId
               then w.invoices[id].(status := Billing.Paid, paidAt := Some(io.desk.now)) else w.invoices[id]
  {
  }

  /** It confirms the reservation, if that is pending, for an hour from the same instant, and no other row changes. */
  lemma ConfirmationConfirmsExactly(w: World, txId: string, reservationId: string, io: ConfirmBookingIo, id: string)
    requires id in w.rows
    ensures var out := ConfirmBooking(w, txId, reservationId, io);
            && (out.result.Ok? <==> Admitted(w, txId, io) && io.desk.updateUp)
            && out.world.rows.Keys == w.rows.Keys
            && out.world.rows[id] ==
               if out.result.Ok? && id == reservationId && w.rows[id].status == Reservation.Pending
               then w.rows[id].(status := Reservation.Confirmed, confirmedAt := io.desk.now,
                                expiresAt := io.desk.now + HOUR)
               else w.rows[id]
  {
  }

  /** A simulated settlement settles its transaction now and, if the invoice calls get through, pays that transaction's
      invoice under its order number; it touches nothing else. */
  lemma SettlementPaysExactly(w: World, txId: string, now: Time, io: SettleIo)
    ensures var out := Settle(w, txId, now, io);
            && (out.result.Ok? <==> io.getUp && txId in w.txs && io.updateUp)
            && out.world.rows == w.rows && out.world.redis == w.redis
            && out.world.txs.Keys == w.txs.Keys && out.world.invoices.Keys == w.invoices.Keys
            && (forall id | id in w.txs :: out.world.txs[id] ==
                  if out.result.Ok? && id == txId
                  then w.txs[id].(status := Payments.Settled, paidAt := Some(now)) else w.txs[id])
            && (forall id | id in w.invoices :: out.world.invoices[id] ==
                  if out.result.Ok? && io.selectUp && io.invoiceUp && id == w.txs[txId].invoiceId && id != ""
                  then w.invoices[id].(status := Billing.Paid, gatewayTxId := Some(w.txs[txId].orderId),
                                       payMethod := Some("QRIS"), paidAt := Some(now))
                  else w.invoices[id])
  {
  }

  /** The move pays the invoice. */
  ghost predicate Pays(w: World, m: Move, id: string) {
    id in w.invoices &&
    match m
    case OnConfirm(txId, reservationId, io) =>
      && Admitted(w, txId, io) && io.invoiceUp
      && w.invoices[id].kind == Billing.BookingFee && w.invoices[id].reservationId == reservationId
    case OnSettle(txId, _, io) =>
      && io.getUp && io.updateUp && io.selectUp && io.invoiceUp
      && txId in w.txs && w.txs[txId].invoiceId == id && id != ""
    case OnMarkPaid(paid, _, _, _) => paid == id
    case _ => false
  }

  ghost predicate Unpaid(w: World, id: string) {
    id !in w.invoices || w.invoices[id].status == Billing.PendingPayment
  }

  /** Every paying move does pay. */
  lemma PayingPays(w: World, m: Move, id: string)
    requires Pays(w, m, id)
    ensures id in Apply(w, m).invoices && Apply(w, m).invoices[id].status == Billing.Paid
  {
  }

  lemma BookingIssuesUnpaid(w: World, m: Move, id: string)
    requires (m.OnBookingInvoice? || m.OnEventInvoice?) && Unpaid(w, id)
    ensures Unpaid(Apply(w, m), id)
  {
  }

  /** No other move makes an invoice paid, issuing it included. */
  lemma OnlyPayingPays(w: World, m: Move, id: string)
    requires Unpaid(w, id) && !Unpaid(Apply(w, m), id)
    ensures Pays(w, m, id)
  {
    match m
    case OnBookingInvoice(_, _, _, _, _) => BookingIssuesUnpaid(w, m, id);
    case OnEventInvoice(_, _) => BookingIssuesUnpaid(w, m, id);
    case OnCheckOut(r, driver, key, invoiceId, io) => CheckOutIssues(w, r, driver, key, invoiceId, io);
    case _ =>
  }

  /** Somewhere in the run a move pays the invoice. */
  ghost predicate PaidIn(w: World, moves: seq<Move>, id: string)
    decreases |moves|
  {
    moves != [] && (Pays(w, moves[0], id) || PaidIn(Apply(w, moves[0]), moves[1..], id))
  }

  lemma PaidStays(w: World, m: Move, id: string)
    requires !Unpaid(w, id)
    ensures !Unpaid(Apply(w, m), id)
  {
    match m
    case OnCheckOut(r, driver, key, invoiceId, io) => CheckOutIssues(w, r, driver, key, invoiceId, io);
    case _ =>
  }

  lemma {:induction false} RunPaidStays(w: World, moves: seq<Move>, id: string)
    requires !Unpaid(w, id)
    ensures !Unpaid(Exec(w, moves), id)
    decreases |moves|
  {
    if moves != [] {
      PaidStays(w, moves[0], id);
      RunPaidStays(Apply(w, moves[0]), moves[1..], id);
    }
  }

  /** In every run an invoice is paid in the end if and only if a confirmation, a settlement or a payment mark paid it.
      None is issued paid. */
  lemma {:induction false} PaidIffPaidFor(w: World, moves: seq<Move>, id: string)
    requires Unpaid(w, id)
    ensures !Unpaid(Exec(w, moves), id) <==> PaidIn(w, moves, id)
    decreases |moves|
  {
    if moves != [] {
      var next := Apply(w, moves[0]);
      if Unpaid(next, id) {
        PaidIffPaidFor(next, moves[1..], id);
        if Pays(w, moves[0], id) {
          PayingPays(w, moves[0], id);
        }
      } else {
        OnlyPayingPays(w, moves[0], id);
        RunPaidStays(next, moves[1..], id);
      }
    }
  }
}
