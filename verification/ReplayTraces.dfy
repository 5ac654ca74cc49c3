/** Exactly when repeated payment notifications leave the state as if they had never come. */
module ReplayTraces {
  import opened Clock
  import opened Payments
  import opened WebhookReplay
  import Redis

  predicate Names(t: Till, id: string, orderId: string) {
    id in t.txs && t.txs[id].orderId == orderId
  }

  /** Arrivals leave other keys alone, and save in their own the transaction of their order. */
  lemma {:induction false} KeysSaved(t: Till, ds: seq<Arrival>, key: string)
    requires Unique(t.txs) && Unseen(t, ds)
    ensures var redis := Process(t, ds).redis;
            && (key in t.redis ==> key in redis && redis[key] == t.redis[key])
            && (key in redis && key !in t.redis ==>
                  exists d :: d in ds && KeyOf(d.notice) == key && Names(t, redis[key].value, d.notice.orderId))
  {
    if ds != [] {
      var front, last := ds[..|ds| - 1], ds[|ds| - 1];
      assert ds == front + [last];
      KeysSaved(t, front, key);
      RowsKeepIdentity(t, front);
      KeySaved(Process(t, front), last);
    }
  }

  /** If two sequences keep the same keys alive at all times, they save the same entries. */
  lemma SameEntry(t: Till, ds: seq<Arrival>, es: seq<Arrival>, key: string)
    requires Unique(t.txs) && Unseen(t, ds) && Unseen(t, es) && forall e | e in es :: e in ds
    requires forall d, now | d in ds && Known(t.txs, d.notice.orderId) ::
               Covers(Accepted(ds), d.notice, now) <==> Covers(Accepted(es), d.notice, now)
    ensures var a, b := Process(t, ds).redis, Process(t, es).redis;
            (key in a <==> key in b) && (key in a ==> a[key] == b[key])
  {
    KeysSaved(t, ds, key);
    KeysSaved(t, es, key);
    var a, b := Process(t, ds).redis, Process(t, es).redis;
    if (key in a || key in b) && key !in t.redis {
      var d: Arrival :| d in ds && KeyOf(d.notice) == key;
      forall now ensures Redis.Live(a, key, now) <==> Redis.Live(b, key, now) {
        SavedIff(t, ds, d.notice, now);
        SavedIff(t, es, d.notice, now);
      }
      if key in a { assert Redis.Live(a, key, a[key].deadline - 1) && !Redis.Live(a, key, a[key].deadline); }
      if key in b { assert Redis.Live(b, key, b[key].deadline - 1) && !Redis.Live(b, key, b[key].deadline); }
      assert a[key].deadline == b[key].deadline;
      SameOwner(t, ds, es, key);
    }
  }

  lemma SameOwner(t: Till, ds: seq<Arrival>, es: seq<Arrival>, key: string)
    requires Unique(t.txs) && Unseen(t, ds) && Unseen(t, es) && key !in t.redis
    requires key in Process(t, ds).redis && key in Process(t, es).redis
    ensures Process(t, ds).redis[key].value == Process(t, es).redis[key].value
  {
    KeysSaved(t, ds, key);
    KeysSaved(t, es, key);
    var d :| d in ds && KeyOf(d.notice) == key && Names(t, Process(t, ds).redis[key].value, d.notice.orderId);
    var e :| e in es && KeyOf(e.notice) == key && Names(t, Process(t, es).redis[key].value, e.notice.orderId);
    KeysTellNoticesApart(d.notice, e.notice);
  }

  /** No repeat for a known order both takes effect and saves its key. */
  predicate NoRepeatSaves(t: Till, ds: seq<Arrival>) {
    forall d | d in Accepted(ds) && d.io.saveUp && Known(t.txs, d.notice.orderId) :: d in FirstOnly(ds)
  }

  /** The two notices give a transaction the same status and paid date. */
  predicate SameEffect(d: Delivery, e: Delivery) {
    MapStatus(d.status, d.fraud) == MapStatus(e.status, e.fraud)
    && (MapStatus(d.status, d.fraud) == Settled ==> d.at == e.at)
  }

  /** For every order the last notice accepted has the effect of the last one to arrive first. */
  predicate SameLast(t: Till, ds: seq<Arrival>) {
    forall id | id in t.txs ::
      var accepted, first := LastFor(Accepted(ds), t.txs[id].orderId), LastFor(FirstOnly(ds), t.txs[id].orderId);
      accepted.Some? && first.Some? ==> SameEffect(accepted.value, first.value)
  }

  lemma {:induction false} LastForSome(ds: seq<Arrival>, order: string)
    ensures LastFor(ds, order).Some? <==> exists d :: d in ds && d.notice.orderId == order
  {
    if ds != [] {
      assert ds == ds[..|ds| - 1] + [ds[|ds| - 1]];
      LastForSome(ds[..|ds| - 1], order);
    }
  }

  /** An order has accepted arrivals exactly if it has first ones. */
  lemma BothSome(ds: seq<Arrival>, order: string)
    ensures LastFor(Accepted(ds), order).Some? <==> LastFor(FirstOnly(ds), order).Some?
  {
    LastForSome(Accepted(ds), order);
    LastForSome(FirstOnly(ds), order);
    if d :| d in Accepted(ds) && d.notice.orderId == order {
      AcceptedFrom(ds, d);
    }
    if d :| d in FirstOnly(ds) && d.notice.orderId == order {
      FirstOnlyFrom(ds, d);
    }
  }

  lemma RowsSameIff(t: Till, ds: seq<Arrival>)
    requires Unique(t.txs) && Unseen(t, ds)
    ensures Process(t, ds).txs == Process(t, FirstOnly(ds)).txs <==> SameLast(t, ds)
  {
    var a, b := Process(t, ds).txs, Process(t, FirstOnly(ds)).txs;
    FirstArrivals(t, ds);
    RowsKeepIdentity(t, ds);
    RowsKeepIdentity(t, FirstOnly(ds));
    forall id | id in t.txs
      ensures a[id] == b[id] <==>
              var x, y := LastFor(Accepted(ds), t.txs[id].orderId), LastFor(FirstOnly(ds), t.txs[id].orderId);
              x.Some? && y.Some? ==> SameEffect(x.value, y.value)
    {
      LastAcceptedPrevails(t, ds, id);
      LastAcceptedPrevails(t, FirstOnly(ds), id);
      BothSome(ds, t.txs[id].orderId);
    }
  }

  /** A repeat accepted after a saved first arrival comes a time to live later. */
  lemma {:induction false} RepeatsComeLater(ds: seq<Arrival>, first: Arrival, again: Arrival)
    requires first in FirstOnly(ds) && first.io.saveUp && again in Accepted(ds) && again != first
    requires SameNotice(first.notice, again.notice)
    ensures again.notice.at >= first.notice.at + DEFAULT_TTL
  {
    var front, last := ds[..|ds| - 1], ds[|ds| - 1];
    if again in Accepted(front) {
      AcceptedFrom(front, again);
    }
    if first in FirstOnly(front) {
      FirstOnlyFrom(front, first);
      if again in Accepted(front) {
        RepeatsComeLater(front, first, again);
      }
    }
  }

  lemma KeysSame(t: Till, ds: seq<Arrival>)
    requires Unique(t.txs) && Unseen(t, ds) && NoRepeatSaves(t, ds)
    ensures Process(t, ds).redis == Process(t, FirstOnly(ds)).redis
  {
    var kept := FirstOnly(ds);
    FirstArrivals(t, ds);
    forall d | d in kept ensures d in ds && d in Accepted(ds) {
      FirstOnlyFrom(ds, d);
    }
    forall d, now | d in ds && Known(t.txs, d.notice.orderId)
      ensures Covers(Accepted(ds), d.notice, now) <==> Covers(Accepted(kept), d.notice, now)
    {
    }
    forall key ensures var a, b := Process(t, ds).redis, Process(t, kept).redis;
                       (key in a <==> key in b) && (key in a ==> a[key] == b[key])
    {
      SameEntry(t, ds, kept, key);
    }
  }

  lemma OneFirst(ds: seq<Arrival>, d: Arrival, e: Arrival)
    requires Distinct(ds) && d in ds && e in ds && SameNotice(d.notice, e.notice)
    ensures d == e
  {
    var i :| 0 <= i < |ds| && ds[i] == d;
    var j :| 0 <= j < |ds| && ds[j] == e;
  }

  /** At some time the repeat's key is alive that the first arrivals alone would not have kept alive. */
  lemma SavingRepeatCovers(ds: seq<Arrival>, first: Arrival, again: Arrival) returns (now: Time)
    requires again in Accepted(ds) && again.io.saveUp && again !in FirstOnly(ds)
    requires first in FirstOnly(ds) && SameNotice(first.notice, again.notice)
    ensures Covers(Accepted(ds), again.notice, now) && !Covers(FirstOnly(ds), again.notice, now)
  {
    now := again.notice.at;
    if first.io.saveUp {
      now := first.notice.at + DEFAULT_TTL;
      RepeatsComeLater(ds, first, again);
    }
    FirstOnlyDistinct(ds);
    forall d | d in FirstOnly(ds) && SameNotice(d.notice, again.notice) ensures d == first {
      OneFirst(FirstOnly(ds), d, first);
    }
  }

  lemma SavingRepeatShows(t: Till, ds: seq<Arrival>, first: Arrival, again: Arrival)
    requires Unseen(t, ds) && again in Accepted(ds) && again.io.saveUp && Known(t.txs, again.notice.orderId)
    requires again !in FirstOnly(ds) && first in FirstOnly(ds) && SameNotice(first.notice, again.notice)
    ensures Process(t, ds).redis != Process(t, FirstOnly(ds)).redis
  {
    FirstArrivals(t, ds);
    AcceptedFrom(ds, again);
    var now := SavingRepeatCovers(ds, first, again);
    SavedIff(t, ds, again.notice, now);
    SavedIff(t, FirstOnly(ds), again.notice, now);
  }

  lemma KeysSameIff(t: Till, ds: seq<Arrival>)
    requires Unique(t.txs) && Unseen(t, ds)
    ensures Process(t, ds).redis == Process(t, FirstOnly(ds)).redis <==> NoRepeatSaves(t, ds)
  {
    if NoRepeatSaves(t, ds) {
      KeysSame(t, ds);
    } else {
      var again :| again in Accepted(ds) && again.io.saveUp && Known(t.txs, again.notice.orderId)
                   && again !in FirstOnly(ds);
      AcceptedFrom(ds, again);
      var first :| first in FirstOnly(ds) && SameNotice(first.notice, again.notice);
      SavingRepeatShows(t, ds, first, again);
    }
  }

  /** A sequence of arrivals, with any duplicates at any times and any failures, ends in the very state that its first
      arrivals alone end in (the same statuses, paid dates and saved keys) if and only if no repeat that takes effect
      saves its key and the last one taken for each order has the effect of the last to arrive first. */
  lemma ReplayIsIdempotentIff(t: Till, ds: seq<Arrival>)
    requires Unique(t.txs) && Unseen(t, ds)
    ensures Process(t, ds) == Process(t, FirstOnly(ds)) <==> NoRepeatSaves(t, ds) && SameLast(t, ds)
  {
    RowsSameIff(t, ds);
    KeysSameIff(t, ds);
  }

  /** So repeats that find a saved key alive are harmless, and nothing less will do where every save gets through. */
  lemma CoveredRepeatsHarmless(t: Till, ds: seq<Arrival>)
    requires Unique(t.txs) && Unseen(t, ds)
    ensures RepeatsCovered(t, ds) ==> Process(t, ds) == Process(t, FirstOnly(ds))
    ensures (forall d | d in ds :: d.io.saveUp) && Process(t, ds) == Process(t, FirstOnly(ds)) ==> RepeatsCovered(t, ds)
  {
    ReplayIsIdempotentIff(t, ds);
    CoveredAreFirst(t, ds);
    if forall d | d in ds :: d.io.saveUp {
      UncoveredSeen(t, ds);
    }
    if RepeatsCovered(t, ds) {
      forall d | d in Accepted(ds) && Known(t.txs, d.notice.orderId) ensures d in FirstOnly(ds) {
        InKnownOrders(t, Accepted(ds), d);
        InKnownOrders(t, FirstOnly(ds), d);
      }
      forall id | id in t.txs
        ensures LastFor(Accepted(ds), t.txs[id].orderId) == LastFor(FirstOnly(ds), t.txs[id].orderId)
      {
        LastKnown(t, Accepted(ds), t.txs[id].orderId);
        LastKnown(t, FirstOnly(ds), t.txs[id].orderId);
      }
    }
  }

  /** A repeat not covered is accepted without being a first arrival, if all saves get through. */
  lemma {:induction false} UncoveredSeen(t: Till, ds: seq<Arrival>)
    requires forall d | d in ds :: d.io.saveUp
    ensures !RepeatsCovered(t, ds) ==>
              exists d :: d in Accepted(ds) && d.io.saveUp && Known(t.txs, d.notice.orderId) && d !in FirstOnly(ds)
  {
    if !RepeatsCovered(t, ds) {
      var front, last := ds[..|ds| - 1], ds[|ds| - 1];
      assert ds == front + [last];
      if RepeatsCovered(t, front) {
        if last in FirstOnly(ds) {
          FirstOnlyFrom(front, last);
        }
      } else {
        UncoveredSeen(t, front);
        var d :| d in Accepted(front) && Known(t.txs, d.notice.orderId) && d !in FirstOnly(front);
        AcceptedFrom(front, d);
        assert d in Accepted(ds) && d.io.saveUp && d !in FirstOnly(ds);
      }
    }
  }
}
