/** What a stay costs in every reachable state: check-out invoices never undercharge, by how much they overcharge,
    and when the invoices of the billing subscriber cover the stay. */
module Checkout {
  import opened Clock
  import opened Gateway
  import opened Ledger
  import opened Visits
  import Billing
  import Lifecycle
  import Pricing
  import Reservation

  /** A run from an empty system, with check-ins that read their second clock at most slack after their first, in
      which the gateway's check-out has issued the invoice. */
  ghost predicate Issues(clock: Time, moves: seq<Move>, slack: int, id: string) {
    && Legal(EMPTY, clock, moves) && (forall m | m in moves :: PromptCheckIns(m, slack))
    && id in Exec(EMPTY, moves).invoices
    && Exec(EMPTY, moves).invoices[id].kind == Billing.ParkingSession
    && CheckOutKey(Exec(EMPTY, moves).invoices[id].key)
  }

  /** The invoice charges this much for the stay from the row's check-in to its check-out, whose price is this. */
  ghost predicate Charges(w: World, id: string, row: Reservation.Row, amount: int, price: int) {
    && id in w.invoices && w.invoices[id].totalAmount == amount
    && w.invoices[id].reservationId in w.rows && row == w.rows[w.invoices[id].reservationId]
    && row.checkInAt.Some? && row.checkOutAt.Some?
    && price == Pricing.Calculate(row.checkInAt.value, row.checkOutAt.value).totalAmount
  }

  lemma Stay(clock: Time, moves: seq<Move>, slack: int, id: string)
    returns (row: Reservation.Row, amount: int, price: int)
    requires slack >= 0 && Issues(clock, moves, slack, id)
    ensures Charges(Exec(EMPTY, moves), id, row, amount, price)
    ensures row.confirmedAt <= row.checkInAt.value <= row.confirmedAt + HOUR + slack
    ensures row.checkInAt.value <= row.checkOutAt.value
    ensures amount == Pricing.Calculate(row.confirmedAt, row.checkOutAt.value).totalAmount
  {
    RunIsSound(EMPTY, clock, moves, slack);
    var w := Exec(EMPTY, moves);
    assert Priced(w.rows, w.invoices[id]);
    row := w.rows[w.invoices[id].reservationId];
    assert Lifecycle.Shape(row, ClockAfter(clock, moves), slack);
    Pricing.BillItemised(row.confirmedAt, row.checkOutAt.value);
    amount := w.invoices[id].totalAmount;
    price := Pricing.Calculate(row.checkInAt.value, row.checkOutAt.value).totalAmount;
  }

  /** Every run has some slack. */
  lemma {:induction false} SomeSlack(moves: seq<Move>) returns (slack: int)
    ensures slack >= 0 && forall m | m in moves :: PromptCheckIns(m, slack)
    decreases |moves|
  {
    slack := 0;
    if moves != [] {
      slack := SomeSlack(moves[1..]);
      assert moves == [moves[0]] + moves[1..];
      if !PromptCheckIns(moves[0], slack) {
        var step := DeskStep(moves[0]).value;
        slack := step.checkIn.stampAt - step.checkIn.guardAt;
      }
    }
  }

  /** In every run whatever, a check-out invoice covers at least the price of the stay. */
  lemma NeverUndercharged(clock: Time, moves: seq<Move>, id: string)
    returns (row: Reservation.Row, amount: int, price: int)
    requires Legal(EMPTY, clock, moves) && id in Exec(EMPTY, moves).invoices
    requires Exec(EMPTY, moves).invoices[id].kind == Billing.ParkingSession
    requires CheckOutKey(Exec(EMPTY, moves).invoices[id].key)
    ensures Charges(Exec(EMPTY, moves), id, row, amount, price) && amount >= price
  {
    var slack := SomeSlack(moves);
    row, amount, price := Stay(clock, moves, slack, id);
    Pricing.EarlierStartNeverCheaper(row.confirmedAt, row.checkInAt.value, row.checkOutAt.value);
  }

  /** Since a check-out invoice runs from the confirmation, it exceeds the price of the stay, in every reachable state,
      by at most the hours that cover one hour and the slack, plus the overnight fee exactly when the only midnight of
      the invoice precedes the check-in. */
  lemma CheckoutOvercharge(clock: Time, moves: seq<Move>, id: string, slack: int)
    returns (row: Reservation.Row, amount: int, price: int)
    requires slack >= 0 && Issues(clock, moves, slack, id)
    ensures Charges(Exec(EMPTY, moves), id, row, amount, price) && Surcharged(row, amount, price, slack)
  {
    row, amount, price := Stay(clock, moves, slack, id);
    StaySurcharged(row, slack);
  }

  lemma StaySurcharged(row: Reservation.Row, slack: int)
    requires row.checkInAt.Some? && row.checkOutAt.Some?
    requires row.confirmedAt <= row.checkInAt.value <= row.confirmedAt + HOUR + slack
    requires row.checkInAt.value <= row.checkOutAt.value
    ensures Surcharged(row, Pricing.Calculate(row.confirmedAt, row.checkOutAt.value).totalAmount,
                       Pricing.Calculate(row.checkInAt.value, row.checkOutAt.value).totalAmount, slack)
  {
    Pricing.EarlyStartSurcharge(row.confirmedAt, row.checkInAt.value, row.checkOutAt.value);
  }

  ghost predicate Surcharged(row: Reservation.Row, amount: int, price: int, slack: int)
    requires row.checkInAt.Some? && row.checkOutAt.Some?
  {
    var (a, b, c) := (row.confirmedAt, row.checkInAt.value, row.checkOutAt.value);
    var hours := Pricing.BilledHours(a, c) - Pricing.BilledHours(b, c);
    && 0 <= hours <= Pricing.Covering(HOUR + slack)
    && amount - price == hours * Pricing.HOURLY_RATE
                         + (if Pricing.MidnightBetween(a, b) && !Pricing.MidnightBetween(b, c)
                            then Pricing.OVERNIGHT_FEE else 0)
  }

  // ---- How sharp that is ----

  ghost predicate HoursTooManyAtMost(slack: int, n: nat) {
    forall clock, moves, id, row, amount, price |
      Issues(clock, moves, slack, id) && Charges(Exec(EMPTY, moves), id, row, amount, price) ::
      Pricing.BilledHours(row.confirmedAt, row.checkOutAt.value)
      - Pricing.BilledHours(row.checkInAt.value, row.checkOutAt.value) <= n
  }

  /** The visit shows up in its reservation's row and is charged from its confirmation at 0. */
  lemma VisitCharged(guardAt: Time, stampAt: Time, outAt: Time, slack: int)
    requires 0 <= guardAt <= HOUR && guardAt <= stampAt <= outAt && stampAt - guardAt <= slack
    ensures Issues(0, Visit(guardAt, stampAt, outAt), slack, "bill")
    ensures Charges(Exec(EMPTY, Visit(guardAt, stampAt, outAt)), "bill", LeftRow(stampAt, outAt),
                    Pricing.Calculate(0, outAt).totalAmount, Pricing.Calculate(stampAt, outAt).totalAmount)
  {
    var w := Visited(guardAt, stampAt, outAt);
    VisitPrompt(guardAt, stampAt, outAt, slack);
  }

  /** Exactly how many hours too many a check-out can bill: as many as cover one hour and the slack, and no fewer will
      do for all runs. */
  lemma HoursTooManyIff(slack: int, n: nat)
    requires slack >= 0
    ensures HoursTooManyAtMost(slack, n) <==> HOUR + slack <= n * HOUR || n >= Pricing.MAX_HOURS
  {
    if HOUR + slack <= n * HOUR || n >= Pricing.MAX_HOURS {
      forall clock, moves, id, row, amount, price |
        Issues(clock, moves, slack, id) && Charges(Exec(EMPTY, moves), id, row, amount, price)
        ensures Pricing.BilledHours(row.confirmedAt, row.checkOutAt.value)
                - Pricing.BilledHours(row.checkInAt.value, row.checkOutAt.value) <= n
      {
        var _, _, _ := Stay(clock, moves, slack, id);
        Pricing.HoursExtraIff(row.confirmedAt, row.checkInAt.value, n);
      }
    } else {
      var out := HOUR + slack + MINUTE - 1;
      VisitCharged(HOUR, HOUR + slack, out, slack);
      Pricing.HoursExtra(0, HOUR + slack, n);
      assert LeftRow(HOUR + slack, out).confirmedAt == 0;
    }
  }

  ghost predicate FourSurcharges(slack: int) {
    forall clock, moves, id, row, amount, price |
      Issues(clock, moves, slack, id) && Charges(Exec(EMPTY, moves), id, row, amount, price) ::
      amount - price in {0, 5_000, 20_000, 25_000}
  }

  /** A check-in guarded in the last instant of the hold and dated a tick later is charged two hours too many. */
  lemma SlowCheckInOvercharged(slack: int)
    requires slack >= 1
    ensures Issues(0, Visit(HOUR, HOUR + 1, HOUR + MINUTE), slack, "bill")
    ensures Charges(Exec(EMPTY, Visit(HOUR, HOUR + 1, HOUR + MINUTE)), "bill",
                    LeftRow(HOUR + 1, HOUR + MINUTE), 10_000, 0)
  {
    VisitCharged(HOUR, HOUR + 1, HOUR + MINUTE, slack);
    assert Pricing.Calculate(0, HOUR + MINUTE).totalAmount == 10_000;
    assert Pricing.Calculate(HOUR + 1, HOUR + MINUTE).totalAmount == 0;
  }

  /** The surcharge is nothing, one hour, the overnight fee or both in all runs if and only if the two clock readings of
      every check-in agree. */
  lemma FourSurchargesIff(slack: int)
    requires slack >= 0
    ensures FourSurcharges(slack) <==> slack == 0
  {
    if slack == 0 {
      forall clock, moves, id, row, amount, price |
        Issues(clock, moves, slack, id) && Charges(Exec(EMPTY, moves), id, row, amount, price)
        ensures amount - price in {0, 5_000, 20_000, 25_000}
      {
        var _, _, _ := CheckoutOvercharge(clock, moves, id, 0);
      }
    } else {
      SlowCheckInOvercharged(slack);
    }
  }

  // ---- The billing subscriber's invoices ----

  /** What the subscriber asks for on a check-out event sent at sentAt: the hour before it, under a random key. */
  function EventRequest(session: string, reservationId: string, driver: string, uuid: string, sentAt: Time, id: string)
    : Billing.InvoiceRequest
  {
    Billing.InvoiceRequest(session, reservationId, driver, uuid, sentAt - HOUR, sentAt, id)
  }

  /** Such an invoice charges one hour, and the overnight fee for a midnight in it, whatever the stay. It covers the
      price of the stay exactly if that is one billed hour and no more overnight than the last hour, or up to five
      hours when only the last hour is overnight. */
  lemma EventInvoiceCoversIff(q: Billing.InvoiceRequest, sentAt: Time, checkIn: Time, checkOut: Time)
    requires q == EventRequest(q.session, q.reservationId, q.driver, q.key, sentAt, q.id)
    ensures var hours := Pricing.BilledHours(checkIn, checkOut);
            var night := Pricing.MidnightBetween(checkIn, checkOut);
            var lastHour := Pricing.MidnightBetween(sentAt - HOUR, sentAt);
            Billing.NewInvoice(q).totalAmount >= Pricing.Calculate(checkIn, checkOut).totalAmount <==>
            if night == lastHour then hours <= 1 else lastHour && hours <= 5
  {
    Pricing.OvernightIffMidnight(checkIn, checkOut);
    Pricing.OvernightIffMidnight(sentAt - HOUR, sentAt);
    assert Pricing.WholeMinutes(sentAt - (sentAt - HOUR)) == 60;
  }

  const TEN_HOURS: seq<Move> := Visit(0, 0, 10 * HOUR)

  /** The subscriber's answer to the check-out of a ten-hour stay. */
  const EVENT: Move := OnEventInvoice(EventRequest("session", "res", "driver", "uuid", 10 * HOUR, "event"),
                                      Billing.InvoiceIo(10 * HOUR, 10 * HOUR, true, true, true, false))

  /** A run that leaves a stay worth 50,000 with a parking invoice of 5,000, besides the check-out's own. */
  lemma EventInvoiceUndercharges()
    ensures Legal(EMPTY, 0, TEN_HOURS + [EVENT])
    ensures Charges(Exec(EMPTY, TEN_HOURS + [EVENT]), "event", LeftRow(0, 10 * HOUR), 5_000, 50_000)
    ensures Charges(Exec(EMPTY, TEN_HOURS + [EVENT]), "bill", LeftRow(0, 10 * HOUR), 50_000, 50_000)
  {
    var w := Visited(0, 0, 10 * HOUR);
    assert EVENT.bill.key[0] == 'u';
    Then(EMPTY, 0, TEN_HOURS, w, 10 * HOUR, EVENT);
    EventIssued(w);
  }

  lemma EventIssued(w: World)
    requires w.redis == map[] && w.rows == map["res" := LeftRow(0, 10 * HOUR)] && w.invoices.Keys == {"fee", "bill"}
    requires w.invoices["fee"].key == InvoiceKey("res")
    requires w.invoices["bill"] == Billing.NewInvoice(BillRequest(LeftRow(0, 10 * HOUR), 10 * HOUR))
    ensures Charges(Apply(w, EVENT), "event", LeftRow(0, 10 * HOUR), 5_000, 50_000)
    ensures Charges(Apply(w, EVENT), "bill", LeftRow(0, 10 * HOUR), 50_000, 50_000)
  {
    assert EVENT.bill.key[0] != InvoiceKey("res")[0] && EVENT.bill.key[0] != ("inv-" + "leave")[0];
    assert Billing.CanInsert(w.invoices, "event", Billing.NewInvoice(EVENT.bill));
    TenHours();
  }

  lemma TenHours()
    ensures Pricing.Calculate(0, 10 * HOUR).totalAmount == 50_000
    ensures Pricing.Calculate(9 * HOUR, 10 * HOUR).totalAmount == 5_000
  {
  }
}
