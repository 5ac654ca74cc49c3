/** How sharp the no-double-booking theorem is: each of its conditions, dropped alone, lets two holds share a spot. */
module Exclusivity {
  import opened Clock
  import opened Wrappers
  import opened Lock
  import opened Reservation
  import opened Protocol
  import Idempotency
  import Redis

  const SPOT: string := "A1"

  /** Driver asks for the spot with everything up; the lock is taken at `at` and the row stamped `delay` later. */
  function Booked(id: string, at: Time, delay: int): Step {
    DoCreate(CreateRequest(id, id, UserSelected, Some(SPOT), id),
             CreateIo(at, at, at + delay, true, true, true, true, true, true, false))
  }

  function PaidAt(id: string, at: Time, expireUp: bool): Step {
    DoConfirmPaid(id, ConfirmIo(at, at, true, true, expireUp))
  }

  lemma TwoSteps(d: Desk, clock: Time, a: Step, b: Step, slack: int)
    ensures Exec(d, [a, b]) == Apply(Apply(d, a), b)
    ensures ClockAfter(clock, [a, b]) == End(b)
    ensures Legal(d, clock, [a, b]) <==> CanStep(d, clock, a) && CanStep(Apply(d, a), End(a), b)
    ensures AllPrompt(d, [a, b], slack) <==> Prompt(d, a, slack) && Prompt(Apply(d, a), b, slack)
  {
    assert [a, b][1..] == [b] && [b][1..] == [];
    assert Exec(Apply(d, a), [b]) == Apply(Apply(d, a), b);
    assert ClockAfter(End(a), [b]) == End(b);
    assert Legal(Apply(d, a), End(a), [b]) <==> CanStep(Apply(d, a), End(a), b);
    assert AllPrompt(Apply(d, a), [b], slack) <==> Prompt(Apply(d, a), b, slack);
  }

  lemma ThreeSteps(d: Desk, clock: Time, a: Step, b: Step, c: Step)
    ensures Exec(d, [a, b, c]) == Apply(Apply(Apply(d, a), b), c)
    ensures ClockAfter(clock, [a, b, c]) == End(c)
    ensures Legal(d, clock, [a, b, c]) <==>
            CanStep(d, clock, a) && CanStep(Apply(d, a), End(a), b) && CanStep(Apply(Apply(d, a), b), End(b), c)
  {
    assert [a, b, c][1..] == [b, c];
    TwoSteps(Apply(d, a), End(a), b, c, 0);
  }

  ghost predicate DoubleBooks(steps: seq<Step>) {
    Legal(EMPTY, 0, steps) && !Exclusive(Exec(EMPTY, steps), ClockAfter(0, steps), 0)
  }

  ghost predicate AlwaysExclusive(slack: int) {
    forall clock, steps | Legal(EMPTY, clock, steps) && AllPrompt(EMPTY, steps, slack) ::
      Exclusive(Exec(EMPTY, steps), ClockAfter(clock, steps), 0)
  }

  const SLOW_CREATE: seq<Step> := [Booked("a", 0, 1), Booked("b", PAYMENT_TIMEOUT, 0)]

  /** The lock is dated from before the row: one tick between the two readings of CreateReservation and, in the
      last tick of the first row's hold, the spot can be booked again. */
  lemma SlowCreateDoubleBooks()
    ensures DoubleBooks(SLOW_CREATE) && AllPrompt(EMPTY, SLOW_CREATE, 1)
  {
    var a, b := Booked("a", 0, 1), Booked("b", PAYMENT_TIMEOUT, 0);
    TwoSteps(EMPTY, 0, a, b, 1);
    var one := Apply(EMPTY, a);
    assert one.rows == map["a" := NewRow(a.q, SPOT, 1)];
    assert one.redis[LockKey(SPOT)] == Redis.Entry("a", PAYMENT_TIMEOUT);
    var two := Apply(one, b);
    assert "a" in two.rows && "b" in two.rows;
  }

  /** Exclusivity up to the stored deadline holds in all prompt runs if and only if creation takes no time
      between taking the lock and dating the row. */
  lemma ExclusiveIffNoSlack(slack: int)
    requires slack >= 0
    ensures AlwaysExclusive(slack) <==> slack == 0
  {
    if slack == 0 {
      forall clock, steps | Legal(EMPTY, clock, steps) && AllPrompt(EMPTY, steps, slack)
        ensures Exclusive(Exec(EMPTY, steps), ClockAfter(clock, steps), 0)
      {
        NoDoubleBooking(clock, steps, 0);
      }
    } else {
      SlowCreateDoubleBooks();
      var a, b := Booked("a", 0, 1), Booked("b", PAYMENT_TIMEOUT, 0);
      TwoSteps(EMPTY, 0, a, b, slack);
    }
  }

  const LATE_CONFIRMATION: seq<Step> :=
    [Booked("a", 0, 0), Booked("b", PAYMENT_TIMEOUT, 0), PaidAt("a", PAYMENT_TIMEOUT + 1, true)]

  /** A payment confirmed after the five minutes revives the hold although the spot has been booked again. */
  lemma LateConfirmationDoubleBooks()
    ensures DoubleBooks(LATE_CONFIRMATION)
  {
    var a, b, c := Booked("a", 0, 0), Booked("b", PAYMENT_TIMEOUT, 0), PaidAt("a", PAYMENT_TIMEOUT + 1, true);
    ThreeSteps(EMPTY, 0, a, b, c);
    var one := Apply(EMPTY, a);
    assert one.rows == map["a" := NewRow(a.q, SPOT, 0)];
    var two := Apply(one, b);
    assert "a" in two.rows && "b" in two.rows;
    var three := Apply(two, c);
    assert three.rows["a"].status == Confirmed && three.rows["b"].status == Pending;
  }

  const LOST_EXTENSION: seq<Step> := [Booked("a", 0, 0), PaidAt("a", 1, false), Booked("b", PAYMENT_TIMEOUT, 0)]

  /** A confirmation whose EXPIRE is lost leaves a one-hour hold over a five-minute lock. */
  lemma LostExtensionDoubleBooks()
    ensures DoubleBooks(LOST_EXTENSION)
  {
    var a, b, c := Booked("a", 0, 0), PaidAt("a", 1, false), Booked("b", PAYMENT_TIMEOUT, 0);
    ThreeSteps(EMPTY, 0, a, b, c);
    HoldOverShortLock(a, b, c);
  }

  const DIRECT_CONFIRMATION: seq<Step> :=
    [Booked("a", 0, 0), DoConfirmDirect("a", DirectConfirmIo(1, 1, true, true, true)), Booked("b", PAYMENT_TIMEOUT, 0)]

  /** So does the reservation service's own ConfirmReservation whenever the lock is still held: SET NX cannot extend it,
      not even for its owner (DirectConfirmationBackedIff). */
  lemma DirectConfirmationDoubleBooks()
    ensures DoubleBooks(DIRECT_CONFIRMATION)
  {
    var a, b, c := Booked("a", 0, 0), DoConfirmDirect("a", DirectConfirmIo(1, 1, true, true, true)),
                   Booked("b", PAYMENT_TIMEOUT, 0);
    ThreeSteps(EMPTY, 0, a, b, c);
    HoldOverShortLock(a, b, c);
  }

  lemma HoldOverShortLock(a: Step, b: Step, c: Step)
    requires a == Booked("a", 0, 0) && c == Booked("b", PAYMENT_TIMEOUT, 0)
    requires b == PaidAt("a", 1, false) || b == DoConfirmDirect("a", DirectConfirmIo(1, 1, true, true, true))
    ensures var one := Apply(EMPTY, a);
            var two := Apply(one, b);
            var three := Apply(two, c);
            && CanStep(EMPTY, 0, a) && CanStep(one, End(a), b) && CanStep(two, End(b), c)
            && !Exclusive(three, End(c), 0)
  {
    var one := Apply(EMPTY, a);
    assert one.rows == map["a" := NewRow(a.q, SPOT, 0)];
    assert one.redis[LockKey(SPOT)] == Redis.Entry("a", PAYMENT_TIMEOUT);
    var two := Apply(one, b);
    assert two.rows["a"].status == Confirmed && two.rows["a"].expiresAt == 1 + HOLD_DURATION;
    assert two.redis == one.redis;
    var three := Apply(two, c);
    assert "a" in three.rows && "b" in three.rows;
  }

  // ---- Staying on ----

  const OVERSTAY: seq<Step> :=
    [Booked("a", 0, 0), PaidAt("a", 1, true), DoCheckIn("a", "a", "session", CheckInIo(2, 2, true, true)),
     Booked("b", 1 + HOUR, 0)]

  /** A driver parked for more than an hour loses the spot: the lock runs out with the hold and nothing renews it while
      the session goes on, so the spot is booked again under the parked car. */
  lemma OverstayDoubleBooks()
    ensures Legal(EMPTY, 0, OVERSTAY) && AllPrompt(EMPTY, OVERSTAY, 0)
    ensures var rows := Exec(EMPTY, OVERSTAY).rows;
            && rows.Keys == {"a", "b"} && rows["a"].spot == rows["b"].spot
            && rows["a"].status == Active && rows["b"].status == Pending
  {
    var a, b, c, e := OVERSTAY[0], OVERSTAY[1], OVERSTAY[2], OVERSTAY[3];
    assert OVERSTAY == [a, b] + [c, e];
    var one := Apply(EMPTY, a);
    assert one.rows == map["a" := NewRow(a.q, SPOT, 0)];
    assert one.redis == map[LockKey(SPOT) := Redis.Entry("a", PAYMENT_TIMEOUT)];
    var two := Apply(one, b);
    assert two.rows["a"].status == Confirmed && two.rows["a"].expiresAt == 1 + HOLD_DURATION;
    assert two.redis == map[LockKey(SPOT) := Redis.Entry("a", 1 + HOLD_DURATION)];
    ParkedOn(two, c, e);
    TwoSteps(EMPTY, 0, a, b, 0);
    TwoSteps(two, 1, c, e, 0);
    RunsAppend(EMPTY, 0, [a, b], [c, e], 0);
  }

  lemma ParkedOn(d: Desk, c: Step, e: Step)
    requires c == OVERSTAY[2] && e == OVERSTAY[3] && d.rows.Keys == {"a"} && d.rows["a"].key == "a"
    requires d.rows["a"].status == Confirmed && d.rows["a"].expiresAt == 1 + HOLD_DURATION
    requires d.rows["a"].driver == "a" && d.rows["a"].spot == SPOT
    requires d.redis == map[LockKey(SPOT) := Redis.Entry("a", 1 + HOLD_DURATION)]
    ensures CanStep(d, 1, c) && CanStep(Apply(d, c), 2, e) && Prompt(Apply(d, c), e, 0)
    ensures var rows := Apply(Apply(d, c), e).rows;
            && rows.Keys == {"a", "b"} && rows["a"].spot == rows["b"].spot
            && rows["a"].status == Active && rows["b"].status == Pending
  {
    var parked := Apply(d, c);
    assert parked.redis == d.redis && parked.rows.Keys == {"a"} && parked.rows["a"].status == Active;
  }

  lemma {:induction false} RunsAppend(d: Desk, clock: Time, first: seq<Step>, rest: seq<Step>, slack: int)
    ensures Exec(d, first + rest) == Exec(Exec(d, first), rest)
    ensures Legal(d, clock, first + rest) <==>
            Legal(d, clock, first) && Legal(Exec(d, first), ClockAfter(clock, first), rest)
    ensures AllPrompt(d, first + rest, slack) <==> AllPrompt(d, first, slack) && AllPrompt(Exec(d, first), rest, slack)
    decreases |first|
  {
    if first == [] {
      assert first + rest == rest;
    } else {
      assert (first + rest)[1..] == first[1..] + rest;
      RunsAppend(Apply(d, first[0]), End(first[0]), first[1..], rest, slack);
    }
  }

  /** Every call of a creation that has a spot and a fresh key goes through. */
  predicate Unhindered(d: Desk, q: CreateRequest, io: CreateIo) {
    && io.checkUp && io.lookupUp && io.acquireUp && io.insertUp
    && !Redis.Live(d.redis, Idempotency.CacheKey(q.key), io.checkAt) && !KeyUsed(d.rows, q.key)
  }

  /** Exactly when a spot in use is booked again: as soon as the lock of the reservation in hold has run out, whatever
      its status, and in a prompt run never while its deadline is ahead. */
  lemma HeldSpotTakenIff(d: Desk, clock: Time, q: CreateRequest, io: CreateIo, id: string, slack: int)
    requires HoldInv(d, clock, slack) && CanStep(d, clock, DoCreate(q, io)) && Unhindered(d, q, io)
    requires id in d.rows && InHold(d.rows[id]) && q.spot == Some(d.rows[id].spot)
    ensures Create(d, q, io).result.Ok? <==> !Redis.Live(d.redis, LockKey(d.rows[id].spot), io.acquireAt)
    ensures Create(d, q, io).result.Ok? ==>
              && io.acquireAt >= d.rows[id].expiresAt - slack
              && q.id in Create(d, q, io).desk.rows && Create(d, q, io).desk.rows[id] == d.rows[id]
              && Create(d, q, io).desk.rows[q.id].spot == d.rows[id].spot
  {
    if clock < d.rows[id].expiresAt - slack {
      assert Covered(d, id, slack);
    }
  }

  /** The spot's lock is the reservation's until at least the given instant. */
  predicate OwnLease(d: Desk, id: string, until: Time)
    requires id in d.rows
  {
    var key := LockKey(d.rows[id].spot);
    key in d.redis && d.redis[key].value == id && d.redis[key].deadline >= until
  }

  /** A confirmation that takes effect leaves the hold backed by its own lock exactly when that lock was the
      reservation's at an EXPIRE that went through, or its lease was an hour long already. */
  lemma ConfirmationBackedIff(d: Desk, id: string, io: ConfirmIo)
    requires id in d.rows && d.rows[id].status == Pending && d.rows[id].spot != ""
    requires io.updateUp && io.now <= io.expireAt
    ensures Covered(ConfirmPaid(d, id, io).desk, id, 0) <==>
            || OwnLease(d, id, io.now + HOLD_DURATION)
            || (io.selectUp && io.expireUp && Redis.Read(d.redis, LockKey(d.rows[id].spot), io.expireAt) == Some(id))
  {
    var after := ConfirmPaid(d, id, io).desk;
    assert after.rows[id].spot == d.rows[id].spot && after.rows[id].expiresAt == io.now + HOLD_DURATION;
  }

  /** The reservation service's own confirmation does so exactly when its SET NX went through on a free lock, or the
      lease was an hour long already. So to be backed it must come after the lock it means to extend has lapsed. */
  lemma DirectConfirmationBackedIff(d: Desk, id: string, io: DirectConfirmIo)
    requires ConfirmDirect(d, id, io).result.Ok? && io.now <= io.lockAt
    ensures Covered(ConfirmDirect(d, id, io).desk, id, 0) <==>
            || OwnLease(d, id, io.now + HOLD_DURATION)
            || (io.lockUp && !Redis.Live(d.redis, LockKey(d.rows[id].spot), io.lockAt))
  {
  }

  /** The calls that give a lock back all got through. */
  predicate GivesBack(s: Step, id: string) {
    match s
    case DoCancel(_, _, io) => io.releaseUp
    case DoCheckOut(_, _, _, io) => io.releaseUp
    case DoSweep(_, _, releaseFails) => id !in releaseFails
    case _ => false
  }

  /** A reservation that leaves takes its lock along: it holds its spot no more, and if its hold was still running
      the spot is free at once. Every other spot's lock is left alone. */
  lemma LeavingFreesTheSpot(d: Desk, clock: Time, s: Step, id: string, slack: int)
    requires HoldInv(d, clock, slack) && CanStep(d, clock, s) && !s.DoSweep? && id in d.rows && InHold(d.rows[id])
    requires !InHold(Apply(d, s).rows[id]) && GivesBack(s, id)
    ensures var key := LockKey(d.rows[id].spot);
            var after := Apply(d, s).redis;
            && (key in after ==> after[key].value != id)
            && (clock < d.rows[id].expiresAt - slack ==> key !in after)
            && (forall spot :: LockKey(spot) != key ==>
                  (LockKey(spot) in after <==> LockKey(spot) in d.redis)
                  && (LockKey(spot) in after ==> after[LockKey(spot)] == d.redis[LockKey(spot)]))
  {
    if clock < d.rows[id].expiresAt - slack {
      assert Covered(d, id, slack);
    }
  }

  /** The expiry job likewise, for each row it expires. */
  lemma SweepFreesTheSpots(d: Desk, now: Time, updateFails: set<string>, releaseFails: set<string>, id: string)
    requires id in d.rows && Lapsed(d.rows[id], now) && id !in updateFails && id !in releaseFails
    ensures var after := Sweep(d, now, updateFails, releaseFails);
            var key := LockKey(d.rows[id].spot);
            && after.rows[id] == d.rows[id].(status := Expired)
            && (key in after.redis ==> after.redis[key] == d.redis[key] && after.redis[key].value != id)
  {
    var key := LockKey(d.rows[id].spot);
    var listed := set i | i in d.rows && Lapsed(d.rows[i], now);
    assert id in listed;
    if key in d.redis && d.redis[key].value == id {
      assert key in FreedLocks(d, listed, updateFails, releaseFails);
    }
  }

  /** Creating with a key already used returns the first booking or fails, and either way leaves the table as it was;
      if the rollback's release goes through, no lock changes either. */
  lemma DuplicateCreateIsNoOp(d: Desk, q: CreateRequest, io: CreateIo, first: string)
    requires KeysUnique(d.rows) && first in d.rows && d.rows[first].key == q.key
    requires io.checkAt <= io.acquireAt <= io.stampAt
    ensures var out := Create(d, q, io);
            && out.desk.rows == d.rows
            && (io.releaseUp ==> Redis.SameFrom(out.desk.redis, d.redis, io.acquireAt))
            && (out.result.Ok? ==> out.result == Ok(Booking(first, d.rows[first])))
            && (out.result.Ok? <==> io.checkUp && io.readUp &&
                                    Redis.Live(d.redis, Idempotency.CacheKey(q.key), io.checkAt))
  {
    var out := Create(d, q, io);
    assert ByKey(d.rows, q.key) == Ok(Booking(first, d.rows[first]));
    if out.desk != d {
      var key := LockKey(q.spot.value);
      Redis.TakeAndGiveBack(d.redis, key, q.id, PAYMENT_TIMEOUT, io.acquireAt);
    }
  }
}
