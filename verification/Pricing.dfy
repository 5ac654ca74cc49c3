/** The parking tariff: billed hours, the overnight fee, and what splitting or moving an interval does to the price. */
module Pricing {
  import opened Clock

  const BOOKING_FEE: int := 5_000
  const HOURLY_RATE: int := 5_000
  const OVERNIGHT_FEE: int := 20_000
  const CANCELLATION_FREE: int := 0
  const CANCELLATION_FEE: int := 5_000
  const NO_SHOW_FEE: int := 0
  const MAX_HOURS: int := 720
  const WIB_OFFSET: int := 7 * HOUR

  datatype Bill = Bill(bookingFee: int, parkingFee: int, overnightFee: int, totalAmount: int,
                       billedHours: int, isOvernight: bool)

  /** Go's conversion of a duration to whole minutes, truncating toward zero. */
  function WholeMinutes(d: int): int {
    if d >= 0 then d / MINUTE else -(-d / MINUTE)
  }

  /** Started hours among a number of whole minutes, capped. */
  function Started(mins: int): int {
    if mins <= 0 then 0
    else
      var hours := (mins + 59) / 60;
      if hours > MAX_HOURS then MAX_HOURS else hours
  }

  function BilledHours(checkIn: Time, checkOut: Time): int {
    Started(WholeMinutes(checkOut - checkIn))
  }

  /** The instant at which the WIB (UTC+7) calendar day of t began. */
  function WibDate(t: Time): Time {
    (t + WIB_OFFSET) / DAY * DAY - WIB_OFFSET
  }

  predicate IsOvernight(checkIn: Time, checkOut: Time) {
    WibDate(checkOut) > WibDate(checkIn)
  }

  function Calculate(checkIn: Time, checkOut: Time): Bill {
    var billed := BilledHours(checkIn, checkOut);
    var overnight := IsOvernight(checkIn, checkOut);
    var parking := billed * HOURLY_RATE;
    var overnightFee := if overnight then OVERNIGHT_FEE else 0;
    Bill(BOOKING_FEE, parking, overnightFee, parking + overnightFee, billed, overnight)
  }

  /** Elapsed-time rule for cancelling: free inside the window, a flat fee after it, nothing for a no-show. */
  function CancellationFee(confirmedAt: Time, cancelledAt: Time, isNoShow: bool): int {
    if isNoShow then NO_SHOW_FEE
    else if cancelledAt - confirmedAt <= FREE_CANCEL_WINDOW then CANCELLATION_FREE
    else CANCELLATION_FEE
  }

  /** Cancelling is free for a no-show and in the first two minutes, and costs 5000 after. */
  lemma CancellationFeeIff(confirmedAt: Time, cancelledAt: Time, isNoShow: bool)
    ensures CancellationFee(confirmedAt, cancelledAt, isNoShow) ==
            if isNoShow || cancelledAt <= confirmedAt + 2 * MINUTE then 0 else 5_000
  {
  }

  /** Midnight in UTC+7 is 17:00 of the day before in UTC. */
  ghost predicate IsWibMidnight(m: Time) {
    m % DAY == 17 * HOUR
  }

  lemma MidnightInWib(m: Time)
    ensures IsWibMidnight(m) <==> (m + WIB_OFFSET) % DAY == 0
  {
  }

  ghost predicate MidnightBetween(a: Time, b: Time) {
    exists m :: IsWibMidnight(m) && a < m <= b
  }

  /** The overnight flag means exactly that a WIB midnight lies in (checkIn, checkOut], before the epoch too. */
  lemma OvernightIffMidnight(a: Time, b: Time)
    ensures IsOvernight(a, b) <==> MidnightBetween(a, b)
  {
    if IsOvernight(a, b) {
      MidnightInWib(WibDate(b));
      assert a < WibDate(b) <= b;
    }
    if m :| IsWibMidnight(m) && a < m <= b {
      MidnightInWib(m);
      assert (m + WIB_OFFSET) / DAY > (a + WIB_OFFSET) / DAY;
    }
  }

  /** Started hours: h hours are billed exactly when h is the least cover of the whole minutes, up to the cap. */
  lemma BilledHoursMeaning(a: Time, b: Time, h: int)
    ensures BilledHours(a, b) == 0 <==> b - a < MINUTE
    ensures 0 < h < 720 ==> (BilledHours(a, b) == h <==> (h - 1) * HOUR + MINUTE <= b - a < h * HOUR + MINUTE)
    ensures BilledHours(a, b) == 720 <==> b - a >= 719 * HOUR + MINUTE
    ensures 0 <= BilledHours(a, b) <= 720
  {
    var m := WholeMinutes(b - a);
    if b - a >= 0 {
      assert b - a == m * MINUTE + (b - a) % MINUTE;
    }
  }

  /** What each line of a bill is for: 5000 for each billed hour, 20000 for a midnight, and both make the total. The
      booking fee is shown but was paid before. */
  lemma BillItemised(a: Time, b: Time)
    ensures var bill := Calculate(a, b);
            && bill.bookingFee == 5_000
            && bill.billedHours == BilledHours(a, b) && bill.parkingFee == 5_000 * BilledHours(a, b)
            && (bill.isOvernight <==> MidnightBetween(a, b))
            && bill.overnightFee == (if MidnightBetween(a, b) then 20_000 else 0)
            && bill.totalAmount == bill.parkingFee + bill.overnightFee
  {
    OvernightIffMidnight(a, b);
  }

  /** Whole minutes are cut toward zero, in stays that run backwards too. */
  lemma WholeMinutesMeaning(d: int, mins: int)
    ensures d >= 0 ==> (WholeMinutes(d) == mins <==> mins * MINUTE <= d < (mins + 1) * MINUTE)
    ensures WholeMinutes(-d) == -WholeMinutes(d)
  {
  }

  /** Twenty-five billed hours cannot avoid the overnight fee, and twenty-four can. */
  lemma LongStayIsOvernight(a: Time, b: Time)
    ensures BilledHours(a, b) >= 25 ==> IsOvernight(a, b)
    ensures BilledHours(-WIB_OFFSET, DAY - 1 - WIB_OFFSET) == 24 && !IsOvernight(-WIB_OFFSET, DAY - 1 - WIB_OFFSET)
  {
  }

  /** Leaving later never costs less, and no stay costs more than 720 hours plus one overnight fee. */
  lemma TotalMonotoneAndBounded(a: Time, b: Time, c: Time)
    requires b <= c
    ensures Calculate(a, b).totalAmount <= Calculate(a, c).totalAmount
    ensures 0 <= Calculate(a, c).totalAmount <= 3_620_000
  {
    MinutesMonotone(b - a, c - a);
    WibDateMonotone(b, c);
    StartedMonotone(WholeMinutes(b - a), WholeMinutes(c - a));
  }

  lemma StartedMonotone(m: int, n: int)
    requires m <= n
    ensures 0 <= Started(m) <= Started(n) <= MAX_HOURS
  {
  }

  lemma MinutesMonotone(d: int, e: int)
    requires d <= e
    ensures WholeMinutes(d) <= WholeMinutes(e)
  {
  }

  /** Whole minutes of a sum: at most one minute appears that neither part shows. */
  lemma MinutesOfSum(d: int, e: int)
    requires d >= 0 && e >= 0
    ensures WholeMinutes(d + e) ==
            WholeMinutes(d) + WholeMinutes(e) + (if d % MINUTE + e % MINUTE >= MINUTE then 1 else 0)
  {
  }

  ghost predicate HoursSubadditiveAt(a: Time, b: Time) {
    forall c | c >= b :: BilledHours(a, c) <= BilledHours(a, b) + BilledHours(b, c)
  }

  /** Splitting a stay at b can only raise the billed hours, except when the first part is a whole number of
      billed hours plus a started minute: then, below the cap, some departure is billed less when split. */
  lemma HoursSubadditiveIff(a: Time, b: Time)
    requires a <= b
    ensures HoursSubadditiveAt(a, b) <==>
            (b - a) % MINUTE == 0 || WholeMinutes(b - a) % 60 != 0 || WholeMinutes(b - a) >= MAX_HOURS * 60
  {
    var m := WholeMinutes(b - a);
    if (b - a) % MINUTE == 0 || m % 60 != 0 || m >= MAX_HOURS * 60 {
      forall c | c >= b ensures BilledHours(a, c) <= BilledHours(a, b) + BilledHours(b, c) {
        MinutesOfSum(b - a, c - b);
        CeilingSplit(m, WholeMinutes(c - b), WholeMinutes(c - a));
      }
    } else {
      var c := b + MINUTE - (b - a) % MINUTE;
      MinutesOfSum(b - a, c - b);
      assert BilledHours(b, c) == 0 && BilledHours(a, c) == m / 60 + 1;
      assert BilledHours(a, b) == m / 60;
    }
  }

  lemma CeilingSplit(m: int, n: int, s: int)
    requires m >= 0 && n >= 0 && (s == m + n || (s == m + n + 1 && (m % 60 != 0 || m >= MAX_HOURS * 60)))
    ensures Started(s) <= Started(m) + Started(n)
  {
  }

  /** A stay is overnight exactly when one of its two parts is. */
  lemma OvernightSplits(a: Time, b: Time, c: Time)
    requires a <= b <= c
    ensures IsOvernight(a, c) <==> IsOvernight(a, b) || IsOvernight(b, c)
  {
    WibDateMonotone(a, b);
    WibDateMonotone(b, c);
  }

  lemma WibDateMonotone(a: Time, b: Time)
    requires a <= b
    ensures WibDate(a) <= WibDate(b)
  {
    assert (a + WIB_OFFSET) / DAY <= (b + WIB_OFFSET) / DAY;
  }

  /** One bill for a stay is never more than the two bills for its parts, when the split keeps minutes whole. */
  lemma SplittingNeverCheaper(a: Time, b: Time, c: Time)
    requires a <= b <= c && (b - a) % MINUTE == 0
    ensures Calculate(a, c).totalAmount <= Calculate(a, b).totalAmount + Calculate(b, c).totalAmount
  {
    HoursSubadditiveIff(a, b);
    OvernightSplits(a, b, c);
  }

  /** The hours it takes to cover a duration. */
  function Covering(d: int): int {
    (d + HOUR - 1) / HOUR
  }

  lemma MinutesAfterHours(d: int, hours: int)
    requires d >= 0 && hours >= 0
    ensures WholeMinutes(d + hours * HOUR) == WholeMinutes(d) + hours * 60
  {
    assert d + hours * HOUR == d + hours * 60 * MINUTE;
  }

  /** Billing from an instant a that precedes the check-in b: the surcharge is at most the hours that cover the lead,
      plus the overnight fee exactly when the only midnight of the bill lies before the check-in. */
  lemma EarlyStartSurcharge(a: Time, b: Time, c: Time)
    requires a <= b <= c
    ensures var extra := Calculate(a, c).totalAmount - Calculate(b, c).totalAmount;
            var hours := BilledHours(a, c) - BilledHours(b, c);
            && 0 <= hours <= Covering(b - a)
            && extra == hours * HOURLY_RATE
                        + (if MidnightBetween(a, b) && !MidnightBetween(b, c) then OVERNIGHT_FEE else 0)
  {
    var hours := Covering(b - a);
    assert b - a <= hours * HOUR;
    MinutesAfterHours(c - b, hours);
    MinutesMonotone(c - b, c - a);
    MinutesMonotone(c - a, c - b + hours * HOUR);
    StartedMonotone(WholeMinutes(c - b), WholeMinutes(c - a));
    StartedMonotone(WholeMinutes(c - a), WholeMinutes(c - b) + hours * 60);
    StartedAfterHours(WholeMinutes(c - b), hours);
    OvernightSplits(a, b, c);
    OvernightIffMidnight(a, b);
    OvernightIffMidnight(b, c);
  }

  lemma StartedAfterHours(mins: int, hours: int)
    requires mins >= 0 && hours >= 0
    ensures Started(mins + hours * 60) <= Started(mins) + hours
  {
  }

  /** Starting the bill earlier never lowers it. */
  lemma EarlierStartNeverCheaper(a: Time, b: Time, c: Time)
    requires a <= b <= c
    ensures Calculate(b, c).totalAmount <= Calculate(a, c).totalAmount
  {
    MinutesMonotone(c - b, c - a);
    StartedMonotone(WholeMinutes(c - b), WholeMinutes(c - a));
    OvernightSplits(a, b, c);
  }

  ghost predicate AtMostHoursExtra(a: Time, b: Time, n: nat) {
    forall c | c >= b :: BilledHours(a, c) - BilledHours(b, c) <= n
  }

  /** A bill started early never has more than n hours too many exactly if n hours cover the lead, or n is the cap. */
  lemma HoursExtraIff(a: Time, b: Time, n: nat)
    requires a <= b
    ensures AtMostHoursExtra(a, b, n) <==> b - a <= n * HOUR || n >= MAX_HOURS
  {
    if b - a <= n * HOUR || n >= MAX_HOURS {
      forall c | c >= b ensures BilledHours(a, c) - BilledHours(b, c) <= n {
        EarlyStartSurcharge(a, b, c);
      }
    } else {
      HoursExtra(a, b, n);
    }
  }

  /** The departure that shows it: one tick short of a minute after the check-in. */
  lemma HoursExtra(a: Time, b: Time, n: nat)
    requires b - a > n * HOUR && n < MAX_HOURS
    ensures BilledHours(b, b + MINUTE - 1) == 0 && BilledHours(a, b + MINUTE - 1) > n
  {
    MinutesAfterHours(MINUTE, n);
    MinutesMonotone(MINUTE + n * HOUR, b + MINUTE - 1 - a);
    StartedMonotone(1 + n * 60, WholeMinutes(b + MINUTE - 1 - a));
  }

  /** Every surcharge in the list is really charged by some stay. */
  lemma SurchargesAttained()
    ensures exists a, b, c | a <= b <= c && b - a <= HOUR ::
              Calculate(a, c).totalAmount - Calculate(b, c).totalAmount == 25_000
    ensures exists a, b, c | a <= b <= c && b - a <= HOUR ::
              Calculate(a, c).totalAmount - Calculate(b, c).totalAmount == 20_000
  {
    var midnight := -WIB_OFFSET;
    var a := midnight - 30 * MINUTE;
    var half := midnight + 30 * MINUTE;
    assert Calculate(a, midnight + HOUR).totalAmount - Calculate(half, midnight + HOUR).totalAmount == 25_000;
    assert Calculate(a, half).totalAmount - Calculate(midnight, half).totalAmount == 20_000;
  }
}
