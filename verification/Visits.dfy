/** Complete visits as runs of the whole system: booked, paid, confirmed, checked in and out. Every call gets through
    but the saves to the response cache, which may be lost anyway. */
module Visits {
  import opened Clock
  import opened Wrappers
  import opened Gateway
  import opened Ledger
  import Billing
  import Lock
  import Payments
  import Protocol
  import Redis
  import Reservation

  function Creating(id: string, spot: string, at: Time): Move {
    OnDesk(Protocol.DoCreate(Reservation.CreateRequest("driver", id, Reservation.UserSelected, Some(spot), id),
                             Reservation.CreateIo(at, at, at, true, true, true, true, true, true, false)))
  }

  function Invoicing(id: string, invoiceId: string): Move {
    OnBookingInvoice(id, "driver", InvoiceKey(id), invoiceId, BookingInvoiceIo(true, true))
  }

  function Paying(id: string, invoiceId: string, txId: string, at: Time): Move {
    OnPay(Payments.TxRequest(invoiceId, "driver", PayKey(id), "QRIS", 5_000, txId),
          Payments.TxIo(at, at, true, true, true, true, false))
  }

  function Settling(txId: string, at: Time): Move {
    OnSettle(txId, at, SettleIo(true, true, true, true))
  }

  function Confirming(txId: string, id: string, at: Time): Move {
    OnConfirm(txId, id, ConfirmBookingIo(true, true, Reservation.ConfirmIo(at, at, true, true, true)))
  }

  function CheckingIn(id: string, guardAt: Time, stampAt: Time): Move {
    OnDesk(Protocol.DoCheckIn(id, "driver", "session", Reservation.CheckInIo(guardAt, stampAt, true, true)))
  }

  function CheckingOut(id: string, at: Time, invoiceId: string): Move {
    OnCheckOut(id, "driver", "leave", invoiceId,
               CheckOutIo(Reservation.CheckOutIo(at, at, true, true, true, true, false), true,
                          Billing.InvoiceIo(at, at, true, true, true, false)))
  }

  // ---- Runs, one move at a time ----

  lemma OneMove(w: World, clock: Time, m: Move)
    ensures Exec(w, [m]) == Apply(w, m) && ClockAfter(clock, [m]) == End(clock, m)
    ensures Legal(w, clock, [m]) <==> CanMove(w, clock, m)
  {
    assert [m][1..] == [];
    assert Legal(Apply(w, m), End(clock, m), []);
  }

  lemma {:induction false} RunsAppend(w: World, clock: Time, first: seq<Move>, rest: seq<Move>)
    ensures Exec(w, first + rest) == Exec(Exec(w, first), rest)
    ensures ClockAfter(clock, first + rest) == ClockAfter(ClockAfter(clock, first), rest)
    ensures Legal(w, clock, first + rest) <==>
            Legal(w, clock, first) && Legal(Exec(w, first), ClockAfter(clock, first), rest)
    decreases |first|
  {
    if first == [] {
      assert first + rest == rest;
    } else {
      assert (first + rest)[1..] == first[1..] + rest;
      RunsAppend(Apply(w, first[0]), End(clock, first[0]), first[1..], rest);
    }
  }

  /** The run goes from one world and clock reading to another. */
  ghost predicate Leads(w: World, clock: Time, moves: seq<Move>, after: World, later: Time) {
    Legal(w, clock, moves) && Exec(w, moves) == after && ClockAfter(clock, moves) == later
  }

  lemma Then(w: World, clock: Time, moves: seq<Move>, middle: World, now: Time, m: Move)
    requires Leads(w, clock, moves, middle, now) && CanMove(middle, now, m)
    ensures Leads(w, clock, moves + [m], Apply(middle, m), End(now, m))
  {
    RunsAppend(w, clock, moves, [m]);
    OneMove(middle, now, m);
  }

  // ---- A visit ----

  const SPOT: string := "A1"

  const BOOKING: seq<Move> :=
    [Creating("res", SPOT, 0)] + [Invoicing("res", "fee")] + [Paying("res", "fee", "tx", 0)] + [Settling("tx", 0)]

  const CONFIRMED: seq<Move> := BOOKING + [Confirming("tx", "res", 0)]

  const PAID_TX: Payments.Transaction :=
    Payments.Transaction("fee", "driver", "PP-tx", "QRIS", Payments.Settled, 5_000, PayKey("res"), Some(0))

  /** The row booked at 0, before and after its confirmation. */
  function Row(id: string, spot: string): Reservation.Row {
    Reservation.NewRow(Reservation.CreateRequest("driver", id, Reservation.UserSelected, Some(spot), id), spot, 0)
  }

  function ConfirmedRow(id: string, spot: string): Reservation.Row {
    Row(id, spot).(status := Reservation.Confirmed, expiresAt := HOLD_DURATION)
  }

  lemma Booking() returns (w: World)
    ensures Leads(EMPTY, 0, BOOKING, w, 0)
    ensures w.rows == map["res" := Row("res", SPOT)]
    ensures w.txs == map["tx" := PAID_TX]
    ensures w.invoices.Keys == {"fee"} && w.invoices["fee"].key == InvoiceKey("res")
    ensures w.redis == map[Lock.LockKey(SPOT) := Redis.Entry("res", PAYMENT_TIMEOUT)]
  {
    w := EMPTY;
    OneMove(w, 0, Creating("res", SPOT, 0));
    w := Apply(w, Creating("res", SPOT, 0));
    assert Leads(EMPTY, 0, [Creating("res", SPOT, 0)], w, 0);
    assert w.rows == map["res" := Row("res", SPOT)];
    Then(EMPTY, 0, [Creating("res", SPOT, 0)], w, 0, Invoicing("res", "fee"));
    w := Apply(w, Invoicing("res", "fee"));
    assert w.invoices == map["fee" := Billing.BookingInvoice("res", "driver", InvoiceKey("res"))];
    Then(EMPTY, 0, [Creating("res", SPOT, 0)] + [Invoicing("res", "fee")], w, 0, Paying("res", "fee", "tx", 0));
    w := Apply(w, Paying("res", "fee", "tx", 0));
    assert Payments.Supported("QRIS") && Payments.OrderId("tx") == "PP-tx";
    assert w.txs == map["tx" := PAID_TX.(status := Payments.TxPending, paidAt := None)];
    Then(EMPTY, 0, [Creating("res", SPOT, 0)] + [Invoicing("res", "fee")] + [Paying("res", "fee", "tx", 0)],
         w, 0, Settling("tx", 0));
    w := Apply(w, Settling("tx", 0));
  }

  lemma Confirmed() returns (w: World)
    ensures Leads(EMPTY, 0, CONFIRMED, w, 0)
    ensures w.rows == map["res" := ConfirmedRow("res", SPOT)]
    ensures w.txs == map["tx" := PAID_TX] && w.invoices.Keys == {"fee"} && w.invoices["fee"].key == InvoiceKey("res")
    ensures w.redis == map[Lock.LockKey(SPOT) := Redis.Entry("res", HOLD_DURATION)]
  {
    w := Booking();
    Then(EMPTY, 0, BOOKING, w, 0, Confirming("tx", "res", 0));
    w := Apply(w, Confirming("tx", "res", 0));
  }

  /** A visit booked and paid at 0, checked in on the two readings guardAt and stampAt, and left at outAt. */
  function Visit(guardAt: Time, stampAt: Time, outAt: Time): seq<Move> {
    CONFIRMED + [CheckingIn("res", guardAt, stampAt)] + [CheckingOut("res", outAt, "bill")]
  }

  function ArrivedRow(stampAt: Time): Reservation.Row {
    ConfirmedRow("res", SPOT).(status := Reservation.Active, session := Some("session"), checkInAt := Some(stampAt))
  }

  function LeftRow(stampAt: Time, outAt: Time): Reservation.Row {
    ArrivedRow(stampAt).(status := Reservation.Completed, checkOutAt := Some(outAt))
  }

  lemma Arrived(guardAt: Time, stampAt: Time) returns (w: World)
    requires 0 <= guardAt <= HOLD_DURATION && guardAt <= stampAt
    ensures Leads(EMPTY, 0, CONFIRMED + [CheckingIn("res", guardAt, stampAt)], w, stampAt)
    ensures w.rows == map["res" := ArrivedRow(stampAt)]
    ensures w.invoices.Keys == {"fee"} && w.invoices["fee"].key == InvoiceKey("res")
    ensures w.redis == map[Lock.LockKey(SPOT) := Redis.Entry("res", HOLD_DURATION)]
  {
    w := Confirmed();
    Then(EMPTY, 0, CONFIRMED, w, 0, CheckingIn("res", guardAt, stampAt));
    w := Apply(w, CheckingIn("res", guardAt, stampAt));
  }

  lemma LeavingDesk(d: Reservation.Desk, stampAt: Time, outAt: Time)
    requires d.rows == map["res" := ArrivedRow(stampAt)]
    requires d.redis == map[Lock.LockKey(SPOT) := Redis.Entry("res", HOLD_DURATION)]
    ensures var io := Reservation.CheckOutIo(outAt, outAt, true, true, true, true, false);
            Reservation.CheckOut(d, "res", "driver", "leave", io) ==
            Reservation.Outcome(Reservation.Desk(map["res" := LeftRow(stampAt, outAt)], map[]),
                                Ok(Reservation.Booking("res", LeftRow(stampAt, outAt))))
  {
    assert !Redis.Live(d.redis, "idempotency:leave", outAt);
    assert d.redis - {Lock.LockKey(SPOT)} == map[];
    assert d.rows["res" := LeftRow(stampAt, outAt)] == map["res" := LeftRow(stampAt, outAt)];
  }

  /** The check-out's invoice, asked for with the given row in an empty cache. */
  function BillRequest(row: Reservation.Row, outAt: Time): Billing.InvoiceRequest {
    Billing.InvoiceRequest("session", "res", "driver", "inv-" + "leave", row.confirmedAt, outAt, "bill")
  }

  lemma Leaving(w: World, stampAt: Time, outAt: Time)
    requires w.rows == map["res" := ArrivedRow(stampAt)]
    requires w.invoices.Keys == {"fee"} && w.invoices["fee"].key == InvoiceKey("res")
    requires w.redis == map[Lock.LockKey(SPOT) := Redis.Entry("res", HOLD_DURATION)]
    ensures var after := Apply(w, CheckingOut("res", outAt, "bill"));
            && after.rows == map["res" := LeftRow(stampAt, outAt)] && after.redis == map[]
            && after.invoices == w.invoices["bill" := Billing.NewInvoice(BillRequest(LeftRow(stampAt, outAt), outAt))]
  {
    var row := LeftRow(stampAt, outAt);
    var rows := map["res" := row];
    LeavingDesk(Desk(w), stampAt, outAt);
    Billed(w.invoices, rows.Keys, BillRequest(row, outAt), outAt);
    var left := WithDesk(w, Reservation.Desk(rows, map[]));
    assert Apply(w, CheckingOut("res", outAt, "bill")) ==
           Bill(left, Reservation.Booking("res", row), "driver", "leave", "bill",
                Billing.InvoiceIo(outAt, outAt, true, true, true, false)).world;
  }

  lemma Billed(invoices: Billing.Invoices, reservations: set<string>, q: Billing.InvoiceRequest, at: Time)
    requires invoices.Keys == {"fee"} && invoices["fee"].key == InvoiceKey("res") && q.reservationId in reservations
    requires q.id == "bill" && CheckOutKey(q.key)
    ensures Billing.Generate(Billing.Folder(invoices, map[]), reservations, q,
                             Billing.InvoiceIo(at, at, true, true, true, false)) ==
            Billing.Outcome(Billing.Folder(invoices["bill" := Billing.NewInvoice(q)], map[]),
                            Ok(Billing.Issued("bill", Billing.NewInvoice(q))))
  {
    assert InvoiceKey("res")[0] != q.key[0];
  }

  lemma Visited(guardAt: Time, stampAt: Time, outAt: Time) returns (w: World)
    requires 0 <= guardAt <= HOLD_DURATION && guardAt <= stampAt <= outAt
    ensures Leads(EMPTY, 0, Visit(guardAt, stampAt, outAt), w, outAt)
    ensures w.rows == map["res" := LeftRow(stampAt, outAt)] && w.redis == map[]
    ensures w.invoices.Keys == {"fee", "bill"} && w.invoices["fee"].key == InvoiceKey("res")
    ensures w.invoices["bill"] == Billing.NewInvoice(BillRequest(LeftRow(stampAt, outAt), outAt))
  {
    w := Arrived(guardAt, stampAt);
    Then(EMPTY, 0, CONFIRMED + [CheckingIn("res", guardAt, stampAt)], w, stampAt, CheckingOut("res", outAt, "bill"));
    Leaving(w, stampAt, outAt);
    w := Apply(w, CheckingOut("res", outAt, "bill"));
  }

  lemma VisitPrompt(guardAt: Time, stampAt: Time, outAt: Time, slack: int)
    requires stampAt - guardAt <= slack
    ensures forall m | m in Visit(guardAt, stampAt, outAt) :: PromptCheckIns(m, slack)
  {
  }

  // ---- One payment, many bookings ----

  function ConfirmAll(txId: string, ids: seq<string>, at: Time): seq<Move>
    decreases |ids|
  {
    if ids == [] then [] else [Confirming(txId, ids[0], at)] + ConfirmAll(txId, ids[1..], at)
  }

  /** The confirmation never asks what a transaction was for: one settled payment confirms any number of pending
      reservations, and no further charge is made. */
  lemma {:induction false} OnePaymentConfirmsAll(w: World, clock: Time, txId: string, ids: seq<string>)
    requires txId in w.txs && w.txs[txId].status == Payments.Settled
    ensures Legal(w, clock, ConfirmAll(txId, ids, clock))
    ensures var after := Exec(w, ConfirmAll(txId, ids, clock));
            && after.txs == w.txs && after.invoices.Keys == w.invoices.Keys && after.rows.Keys == w.rows.Keys
            && (forall id | id in w.rows ::
                  id in after.rows && after.rows[id].status == if id in ids && w.rows[id].status == Reservation.Pending
                                                               then Reservation.Confirmed else w.rows[id].status)
    decreases |ids|
  {
    if ids != [] {
      var m := Confirming(txId, ids[0], clock);
      assert ids == [ids[0]] + ids[1..];
      assert ConfirmAll(txId, ids, clock)[1..] == ConfirmAll(txId, ids[1..], clock);
      assert DeskStep(m) == Some(Protocol.DoConfirmPaid(ids[0], m.confirm.desk)) && End(clock, m) == clock;
      OnePaymentConfirmsAll(Apply(w, m), clock, txId, ids[1..]);
    }
  }

  const UNPAID: Move := Creating("unpaid", "B2", 0)

  const SHARED_PAYMENT: seq<Move> := (BOOKING + [UNPAID]) + ConfirmAll("tx", ["res", "unpaid"], 0)

  lemma Unpaid() returns (w: World)
    ensures Leads(EMPTY, 0, BOOKING + [UNPAID], w, 0)
    ensures w.rows == map["res" := Row("res", SPOT), "unpaid" := Row("unpaid", "B2")]
    ensures w.txs == map["tx" := PAID_TX] && w.invoices.Keys == {"fee"}
  {
    w := Booking();
    assert Lock.LockKey("B2")[5] != Lock.LockKey(SPOT)[5];
    Then(EMPTY, 0, BOOKING, w, 0, UNPAID);
    w := Apply(w, UNPAID);
  }

  /** A run in which two reservations are confirmed on the one transaction made for the first of them. */
  lemma SharedPayment()
    ensures Legal(EMPTY, 0, SHARED_PAYMENT)
    ensures var w := Exec(EMPTY, SHARED_PAYMENT);
            && w.rows.Keys == {"res", "unpaid"} && w.txs == map["tx" := PAID_TX] && w.invoices.Keys == {"fee"}
            && (forall id | id in w.rows :: w.rows[id].status == Reservation.Confirmed)
  {
    var w := Unpaid();
    RunsAppend(EMPTY, 0, BOOKING + [UNPAID], ConfirmAll("tx", ["res", "unpaid"], 0));
    OnePaymentConfirmsAll(w, 0, "tx", ["res", "unpaid"]);
  }

  // ---- What checking the payment would buy ----

  /** The move takes the reservation from pending to confirmed. */
  predicate Confirms(w: World, m: Move, id: string) {
    && m.OnConfirm? && m.reservationId == id && m.confirm.getUp && m.confirm.desk.updateUp
    && id in w.rows && w.rows[id].status == Reservation.Pending
    && m.txId in w.txs && w.txs[m.txId].status == Payments.Settled
  }

  /** The transaction pays an invoice of the reservation. */
  predicate PaysFor(w: World, txId: string, id: string) {
    && txId in w.txs && w.txs[txId].invoiceId in w.invoices
    && w.invoices[w.txs[txId].invoiceId].reservationId == id
  }

  /** Every confirmation of the run that takes effect names a payment for its own reservation. */
  ghost predicate OwnPayments(w: World, moves: seq<Move>)
    decreases |moves|
  {
    moves != [] ==>
      && (forall id :: Confirms(w, moves[0], id) ==> PaysFor(w, moves[0].txId, id))
      && OwnPayments(Apply(w, moves[0]), moves[1..])
  }

  /** Somewhere in the run the transaction confirms the reservation. */
  ghost predicate ConfirmedOn(w: World, moves: seq<Move>, txId: string, id: string)
    decreases |moves|
  {
    moves != [] &&
    ((Confirms(w, moves[0], id) && moves[0].txId == txId) || ConfirmedOn(Apply(w, moves[0]), moves[1..], txId, id))
  }

  lemma {:induction false} ConfirmedOnOwn(w: World, moves: seq<Move>, txId: string, id: string)
    requires OwnPayments(w, moves) && ConfirmedOn(w, moves, txId, id)
    ensures PaysFor(Exec(w, moves), txId, id)
    decreases |moves|
  {
    if Confirms(w, moves[0], id) && moves[0].txId == txId {
      ChargesNeverChange(w, moves);
    } else {
      ConfirmedOnOwn(Apply(w, moves[0]), moves[1..], txId, id);
    }
  }

  /** With that check, no transaction confirms two reservations in any run. */
  lemma OwnPaymentsConfirmOnce(w: World, moves: seq<Move>, txId: string, i: string, j: string)
    requires OwnPayments(w, moves) && ConfirmedOn(w, moves, txId, i) && ConfirmedOn(w, moves, txId, j)
    ensures i == j
  {
    ConfirmedOnOwn(w, moves, txId, i);
    ConfirmedOnOwn(w, moves, txId, j);
  }

  /** And a confirmed reservation is one that some transaction confirmed. */
  lemma {:induction false} ConfirmedMeansConfirmedOn(w: World, clock: Time, moves: seq<Move>, id: string)
    returns (txId: string)
    requires Legal(w, clock, moves) && forall m | m in moves :: !(m.OnDesk? && m.step.DoConfirmDirect?)
    requires id !in w.rows || !BeyondPending(w.rows[id].status)
    requires id in Exec(w, moves).rows && BeyondPending(Exec(w, moves).rows[id].status)
    ensures ConfirmedOn(w, moves, txId, id)
    decreases |moves|
  {
    var m, next := moves[0], Apply(w, moves[0]);
    if id in next.rows && BeyondPending(next.rows[id].status) {
      OnlyConfirmationLeavesPending(w, clock, m, id);
      txId := m.txId;
    } else {
      txId := ConfirmedMeansConfirmedOn(next, End(clock, m), moves[1..], id);
    }
  }
}
