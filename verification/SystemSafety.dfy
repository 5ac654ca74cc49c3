/** No double booking over runs of all services, with payments, invoices and their cache entries in the same Redis. */
module SystemSafety {
  import opened Clock
  import opened Gateway
  import opened Ledger
  import Billing
  import Lock
  import Protocol
  import Reservation

  predicate PromptMove(w: World, m: Move, slack: int) {
    DeskStep(m).Some? ==> Protocol.Prompt(Desk(w), DeskStep(m).value, slack)
  }

  ghost predicate AllPrompt(w: World, moves: seq<Move>, slack: int)
    decreases |moves|
  {
    moves != [] ==> PromptMove(w, moves[0], slack) && AllPrompt(Apply(w, moves[0]), moves[1..], slack)
  }

  /** Rows unchanged, spot locks unchanged. */
  ghost predicate SameHolds(d: Reservation.Desk, after: Reservation.Desk) {
    && after.rows == d.rows
    && (forall spot :: Lock.LockKey(spot) in after.redis <==> Lock.LockKey(spot) in d.redis)
    && (forall spot :: Lock.LockKey(spot) in d.redis ==> after.redis[Lock.LockKey(spot)] == d.redis[Lock.LockKey(spot)])
  }

  /** Payments and invoices write only cache keys, which no lock key is. */
  lemma MoneyLeavesHolds(w: World, m: Move)
    requires DeskStep(m).None?
    ensures SameHolds(Desk(w), Desk(Apply(w, m)))
  {
  }

  lemma BillHolds(w: World, booking: Reservation.Booking, driver: string, key: string, invoiceId: string,
                  io: Billing.InvoiceIo)
    requires booking.row.checkOutAt.Some?
    ensures SameHolds(Desk(w), Desk(Bill(w, booking, driver, key, invoiceId, io).world))
  {
  }

  lemma CheckOutHolds(w: World, m: Move)
    requires m.OnCheckOut?
    ensures SameHolds(Protocol.Apply(Desk(w), DeskStep(m).value), Desk(Apply(w, m)))
  {
    var out := Reservation.CheckOut(Desk(w), m.reservationId, m.driver, m.key, m.checkOut.desk);
    if out.result.Ok? && out.result.value.row.checkOutAt.Some? {
      BillHolds(WithDesk(w, out.desk), out.result.value, m.driver, m.key, m.id, m.checkOut.bill);
    }
  }

  lemma SameHoldsKeepInv(d: Reservation.Desk, after: Reservation.Desk, now: Time, slack: int)
    requires Protocol.HoldInv(d, now, slack) && SameHolds(d, after)
    ensures Protocol.HoldInv(after, now, slack)
  {
    Protocol.HoldsSurvive(d, now, after, now, slack);
  }

  lemma MoveKeepsHolds(w: World, clock: Time, m: Move, slack: int)
    requires slack >= 0 && Protocol.HoldInv(Desk(w), clock, slack) && CanMove(w, clock, m) && PromptMove(w, m, slack)
    ensures Protocol.HoldInv(Desk(Apply(w, m)), End(clock, m), slack)
  {
    match m
    case OnDesk(step) => Protocol.StepKeepsHolds(Desk(w), clock, step, slack);
    case OnConfirm(_, id, io) =>
      Protocol.StepKeepsHolds(Desk(w), clock, Protocol.DoConfirmPaid(id, io.desk), slack);
      Protocol.HoldsSurvive(Desk(w), clock, Desk(w), End(clock, m), slack);
    case OnCheckOut(_, _, _, _, _) =>
      Protocol.StepKeepsHolds(Desk(w), clock, DeskStep(m).value, slack);
      CheckOutHolds(w, m);
      SameHoldsKeepInv(Protocol.Apply(Desk(w), DeskStep(m).value), Desk(Apply(w, m)), End(clock, m), slack);
    case _ =>
      MoneyLeavesHolds(w, m);
      SameHoldsKeepInv(Desk(w), Desk(Apply(w, m)), clock, slack);
  }

  lemma {:induction false} RunKeepsHolds(w: World, clock: Time, moves: seq<Move>, slack: int)
    requires slack >= 0 && Protocol.HoldInv(Desk(w), clock, slack)
    requires Legal(w, clock, moves) && AllPrompt(w, moves, slack)
    ensures Protocol.HoldInv(Desk(Exec(w, moves)), ClockAfter(clock, moves), slack)
    decreases |moves|
  {
    if moves != [] {
      MoveKeepsHolds(w, clock, moves[0], slack);
      RunKeepsHolds(Apply(w, moves[0]), End(clock, moves[0]), moves[1..], slack);
    }
  }

  /** In every prompt run of the whole system no two reservations with more than the slack left share a spot. */
  lemma SystemNeverDoubleBooks(clock: Time, moves: seq<Move>, slack: int)
    requires slack >= 0 && Legal(EMPTY, clock, moves) && AllPrompt(EMPTY, moves, slack)
    ensures Protocol.Exclusive(Desk(Exec(EMPTY, moves)), ClockAfter(clock, moves), slack)
  {
    RunKeepsHolds(EMPTY, clock, moves, slack);
    Protocol.HoldsExclude(Desk(Exec(EMPTY, moves)), ClockAfter(clock, moves), slack);
  }
}
