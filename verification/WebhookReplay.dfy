/** Replays of payment notifications: exactly which arrivals take effect, and which notice prevails, whatever calls fail
    and whatever saves are lost. */
module WebhookReplay {
  import opened Clock
  import opened Wrappers
  import opened Payments
  import Idempotency
  import Redis

  /** A delivery of a notice together with which of its calls were answered. */
  datatype Arrival = Arrival(notice: Delivery, io: WebhookIo)

  /** The state after the arrivals, in this order. */
  ghost function Process(t: Till, ds: seq<Arrival>): Till {
    if ds == [] then t else Then(Process(t, ds[..|ds| - 1]), ds[|ds| - 1])
  }

  ghost function Then(t: Till, d: Arrival): Till {
    Notify(t, d.notice, d.io).till
  }

  /** Signed, and every call that the UPDATE depends on answered. The save afterwards may still be lost. */
  predicate GetsThrough(d: Arrival) {
    d.io.signed && d.io.checkUp && d.io.getUp && d.io.updateUp
  }

  predicate SameNotice(d: Delivery, e: Delivery) {
    d.orderId == e.orderId && d.status == e.status
  }

  predicate Has(ds: seq<Arrival>, notice: Delivery) {
    exists d :: d in ds && SameNotice(d.notice, notice)
  }

  /** The first arrival of each (order, status) that gets through, in order of arrival. */
  function FirstOnly(ds: seq<Arrival>): seq<Arrival> {
    if ds == [] then []
    else
      var front, last := FirstOnly(ds[..|ds| - 1]), ds[|ds| - 1];
      if GetsThrough(last) && !Has(front, last.notice) then front + [last] else front
  }

  /** One of the arrivals is of the notice, and the key it saved is still alive now. */
  predicate Covers(ds: seq<Arrival>, notice: Delivery, now: Time) {
    exists d :: d in ds && SameNotice(d.notice, notice) && d.io.saveUp && now < d.notice.at + DEFAULT_TTL
  }

  /** The arrivals that get through and that no accepted one before them covers, in order of arrival. */
  function Accepted(ds: seq<Arrival>): seq<Arrival> {
    if ds == [] then []
    else
      var front, last := Accepted(ds[..|ds| - 1]), ds[|ds| - 1];
      if GetsThrough(last) && !Covers(front, last.notice, last.notice.at) then front + [last] else front
  }

  predicate Known(txs: Ledger, orderId: string) {
    exists id :: id in txs && txs[id].orderId == orderId
  }

  /** Order numbers hold no colon (the provider is given "PP-" and eight hexadecimal digits). */
  predicate Plain(d: Delivery) {
    ':' !in d.orderId
  }

  function KeyOf(d: Delivery): string {
    Idempotency.WebhookKey(d.orderId, d.status)
  }

  /** Plain order numbers, and none of the notices' keys saved yet. */
  predicate Unseen(t: Till, ds: seq<Arrival>) {
    forall d | d in ds :: Plain(d.notice) && KeyOf(d.notice) !in t.redis
  }

  /** One delivery: rows keep their identity, other orders' rows are untouched, and only status and paid date move. */
  lemma TouchesOwnOrderOnly(t: Till, d: Delivery, io: WebhookIo, id: string)
    requires id in t.txs
    ensures var txs := Notify(t, d, io).till.txs;
            && txs.Keys == t.txs.Keys
            && txs[id] == t.txs[id].(status := txs[id].status, paidAt := txs[id].paidAt)
            && (t.txs[id].orderId != d.orderId ==> txs[id] == t.txs[id])
  {
  }

  // ---- Keys tell notices apart ----

  lemma FirstColon(a: string, s: string, b: string, t: string)
    requires a + ":" + s == b + ":" + t && ':' !in a && |a| <= |b|
    requires ':' !in b
    ensures a == b && s == t
  {
    var whole := a + ":" + s;
    assert whole[|a|] == ':';
    assert forall k | 0 <= k < |b| :: whole[k] == b[k] && b[k] != ':';
    assert whole[..|a|] == a && whole[|a| + 1..] == s;
    assert whole[..|b|] == b && whole[|b| + 1..] == t;
  }

  lemma KeysTellNoticesApart(d: Delivery, e: Delivery)
    requires Plain(d) && Plain(e) && KeyOf(d) == KeyOf(e)
    ensures SameNotice(d, e)
  {
    assert KeyOf(d)[8..] == d.orderId + ":" + d.status && KeyOf(e)[8..] == e.orderId + ":" + e.status;
    if |d.orderId| <= |e.orderId| {
      FirstColon(d.orderId, d.status, e.orderId, e.status);
    } else {
      FirstColon(e.orderId, e.status, d.orderId, d.status);
    }
  }

  // ---- One arrival ----

  /** The arrival finds its order and no live key, and nothing fails before its UPDATE. */
  predicate Applies(t: Till, d: Arrival) {
    GetsThrough(d) && Known(t.txs, d.notice.orderId) && !Redis.Live(t.redis, KeyOf(d.notice), d.notice.at)
  }

  /** Such an arrival saves its key anew, if that call gets through; any other changes nothing. */
  lemma KeySaved(t: Till, d: Arrival)
    ensures !Applies(t, d) ==> Then(t, d) == t
    ensures Applies(t, d) && !d.io.saveUp ==> Then(t, d).redis == t.redis
    ensures Applies(t, d) && d.io.saveUp ==>
              exists id :: id in t.txs && t.txs[id].orderId == d.notice.orderId
                           && Then(t, d).redis == Redis.Put(t.redis, KeyOf(d.notice), id, DEFAULT_TTL, d.notice.at)
  {
  }

  /** And sets its order's row, and no other. */
  lemma RowSet(t: Till, d: Arrival, id: string)
    requires Unique(t.txs) && id in t.txs && Applies(t, d)
    ensures var after := Then(t, d);
            && id in after.txs
            && after.txs[id] == if t.txs[id].orderId == d.notice.orderId then Told(t.txs[id], d.notice) else t.txs[id]
  {
    TouchesOwnOrderOnly(t, d.notice, d.io, id);
  }

  /** What a notice makes of a transaction. */
  function Told(tx: Transaction, d: Delivery): Transaction {
    var status := MapStatus(d.status, d.fraud);
    tx.(status := status, paidAt := if status == Settled then Some(d.at) else None)
  }

  /** Rows keep their identity, so orders stay known or unknown and unique. */
  lemma {:induction false} RowsKeepIdentity(t: Till, ds: seq<Arrival>)
    ensures var after := Process(t, ds).txs;
            && after.Keys == t.txs.Keys
            && (forall id | id in t.txs :: after[id].orderId == t.txs[id].orderId && after[id].key == t.txs[id].key)
  {
    if ds != [] {
      var before, last := Process(t, ds[..|ds| - 1]), ds[|ds| - 1];
      RowsKeepIdentity(t, ds[..|ds| - 1]);
      forall id | id in t.txs
        ensures id in Then(before, last).txs
        ensures Then(before, last).txs[id].orderId == before.txs[id].orderId
        ensures Then(before, last).txs[id].key == before.txs[id].key
      {
        TouchesOwnOrderOnly(before, last.notice, last.io, id);
      }
      assert Then(before, last).txs.Keys == before.txs.Keys;
    }
  }

  lemma OrdersStayKnown(t: Till, ds: seq<Arrival>, order: string)
    ensures Known(Process(t, ds).txs, order) <==> Known(t.txs, order)
    ensures Unique(t.txs) ==> Unique(Process(t, ds).txs)
  {
    RowsKeepIdentity(t, ds);
  }

  // ---- Which keys are alive after any arrivals ----

  lemma CoversOneMore(ds: seq<Arrival>, last: Arrival, notice: Delivery, now: Time)
    ensures Covers(ds + [last], notice, now) <==>
            || Covers(ds, notice, now)
            || (SameNotice(last.notice, notice) && last.io.saveUp && now < last.notice.at + DEFAULT_TTL)
  {
    assert last in ds + [last] && forall d | d in ds :: d in ds + [last];
  }

  /** After any arrivals, at whatever times and with whatever calls failing, a notice's key is alive exactly if its
      order is known and an accepted arrival of it saved the key less than a time to live ago. */
  lemma {:induction false} SavedIff(t: Till, ds: seq<Arrival>, notice: Delivery, now: Time)
    requires Unseen(t, ds) && Plain(notice) && KeyOf(notice) !in t.redis
    ensures Redis.Live(Process(t, ds).redis, KeyOf(notice), now) <==>
            Known(t.txs, notice.orderId) && Covers(Accepted(ds), notice, now)
    decreases |ds|, 0
  {
    if ds != [] {
      var front, last := ds[..|ds| - 1], ds[|ds| - 1];
      assert ds == front + [last];
      SavedIff(t, front, notice, now);
      AppliedIff(t, front, last);
      KeySaved(Process(t, front), last);
      CoversOneMore(Accepted(front), last, notice, now);
      if KeyOf(notice) == KeyOf(last.notice) {
        KeysTellNoticesApart(notice, last.notice);
      }
    }
  }

  /** An arrival takes effect exactly if it gets through, its order is known, and no key saved by an accepted arrival of
      its notice is alive. */
  lemma {:induction false} AppliedIff(t: Till, ds: seq<Arrival>, again: Arrival)
    requires Unseen(t, ds + [again])
    ensures Applies(Process(t, ds), again) <==>
            && GetsThrough(again) && Known(t.txs, again.notice.orderId)
            && !Covers(Accepted(ds), again.notice, again.notice.at)
    decreases |ds|, 1
  {
    assert again in ds + [again] && forall d | d in ds :: d in ds + [again];
    SavedIff(t, ds, again.notice, again.notice.at);
    OrdersStayKnown(t, ds, again.notice.orderId);
  }

  /** Any sequence of arrivals ends in the very state its accepted ones alone end in. */
  lemma {:induction false} AcceptedDecide(t: Till, ds: seq<Arrival>)
    requires Unseen(t, ds)
    ensures Process(t, ds) == Process(t, Accepted(ds))
  {
    if ds != [] {
      var front, last := ds[..|ds| - 1], ds[|ds| - 1];
      assert ds == front + [last];
      AcceptedDecide(t, front);
      AppliedIff(t, front, last);
      KeySaved(Process(t, front), last);
      assert (Accepted(front) + [last])[..|Accepted(front)|] == Accepted(front);
    }
  }

  // ---- First arrivals against accepted ones ----

  lemma {:induction false} AcceptedFrom(ds: seq<Arrival>, d: Arrival)
    requires d in Accepted(ds)
    ensures d in ds && GetsThrough(d) && Has(FirstOnly(ds), d.notice)
  {
    var front, last := ds[..|ds| - 1], ds[|ds| - 1];
    assert ds == front + [last];
    if d in Accepted(front) {
      AcceptedFrom(front, d);
    } else if !Has(FirstOnly(front), last.notice) {
      assert last in FirstOnly(ds);
    }
  }

  lemma {:induction false} FirstOnlyFrom(ds: seq<Arrival>, d: Arrival)
    requires d in FirstOnly(ds)
    ensures d in ds && GetsThrough(d) && d in Accepted(ds)
  {
    var front, last := ds[..|ds| - 1], ds[|ds| - 1];
    assert ds == front + [last];
    if d in FirstOnly(front) {
      FirstOnlyFrom(front, d);
    } else if Covers(Accepted(front), last.notice, last.notice.at) {
      var e :| e in Accepted(front) && SameNotice(e.notice, last.notice);
      AcceptedFrom(front, e);
    }
  }

  ghost predicate Distinct(ds: seq<Arrival>) {
    forall i, j | 0 <= i < j < |ds| :: !SameNotice(ds[i].notice, ds[j].notice)
  }

  lemma {:induction false} FirstOnlyDistinct(ds: seq<Arrival>)
    ensures Distinct(FirstOnly(ds))
  {
    if ds != [] {
      var front := FirstOnly(ds[..|ds| - 1]);
      FirstOnlyDistinct(ds[..|ds| - 1]);
      assert forall i | 0 <= i < |front| :: front[i] in front;
    }
  }

  lemma {:induction false} DistinctAccepted(ds: seq<Arrival>)
    requires Distinct(ds) && forall d | d in ds :: GetsThrough(d)
    ensures Accepted(ds) == ds
  {
    if ds != [] {
      var front := ds[..|ds| - 1];
      assert ds == front + [ds[|ds| - 1]];
      DistinctAccepted(front);
    }
  }

  /** The first arrivals, processed alone, are all accepted. */
  lemma FirstArrivals(t: Till, ds: seq<Arrival>)
    requires Unseen(t, ds)
    ensures Unseen(t, FirstOnly(ds)) && Accepted(FirstOnly(ds)) == FirstOnly(ds) && Distinct(FirstOnly(ds))
  {
    forall d | d in FirstOnly(ds) ensures d in ds && GetsThrough(d) {
      FirstOnlyFrom(ds, d);
    }
    FirstOnlyDistinct(ds);
    DistinctAccepted(FirstOnly(ds));
  }

  // ---- Exactly when no repeat takes effect ----

  /** The arrivals that take effect, in order. */
  ghost function Effective(t: Till, ds: seq<Arrival>): seq<Arrival> {
    if ds == [] then []
    else
      var front, last := Effective(t, ds[..|ds| - 1]), ds[|ds| - 1];
      if Applies(Process(t, ds[..|ds| - 1]), last) then front + [last] else front
  }

  /** Every repeat for a known order that gets through finds the saved key of an accepted arrival alive. */
  predicate RepeatsCovered(t: Till, ds: seq<Arrival>) {
    ds != [] ==>
      var front, last := ds[..|ds| - 1], ds[|ds| - 1];
      && RepeatsCovered(t, front)
      && (GetsThrough(last) && Known(t.txs, last.notice.orderId) && Has(FirstOnly(front), last.notice) ==>
            Covers(Accepted(front), last.notice, last.notice.at))
  }

  function OfKnownOrders(t: Till, ds: seq<Arrival>): seq<Arrival> {
    if ds == [] then []
    else
      var front, last := OfKnownOrders(t, ds[..|ds| - 1]), ds[|ds| - 1];
      if Known(t.txs, last.notice.orderId) then front + [last] else front
  }

  lemma {:induction false} InKnownOrders(t: Till, ds: seq<Arrival>, d: Arrival)
    ensures d in OfKnownOrders(t, ds) <==> d in ds && Known(t.txs, d.notice.orderId)
  {
    if ds != [] {
      assert ds == ds[..|ds| - 1] + [ds[|ds| - 1]];
      InKnownOrders(t, ds[..|ds| - 1], d);
    }
  }

  /** Exactly the accepted arrivals for known orders take effect. */
  lemma {:induction false} EffectiveAreAccepted(t: Till, ds: seq<Arrival>)
    requires Unseen(t, ds)
    ensures Effective(t, ds) == OfKnownOrders(t, Accepted(ds))
  {
    if ds != [] {
      var front, last := ds[..|ds| - 1], ds[|ds| - 1];
      assert ds == front + [last];
      EffectiveAreAccepted(t, front);
      AppliedIff(t, front, last);
      assert (Accepted(front) + [last])[..|Accepted(front)|] == Accepted(front);
    }
  }

  lemma {:induction false} CoveredAreFirst(t: Till, ds: seq<Arrival>)
    ensures |OfKnownOrders(t, FirstOnly(ds))| <= |OfKnownOrders(t, Accepted(ds))|
    ensures OfKnownOrders(t, Accepted(ds)) == OfKnownOrders(t, FirstOnly(ds)) <==> RepeatsCovered(t, ds)
    ensures !RepeatsCovered(t, ds) ==> |OfKnownOrders(t, FirstOnly(ds))| < |OfKnownOrders(t, Accepted(ds))|
  {
    if ds != [] {
      var front, last := ds[..|ds| - 1], ds[|ds| - 1];
      assert ds == front + [last];
      CoveredAreFirst(t, front);
      assert (Accepted(front) + [last])[..|Accepted(front)|] == Accepted(front);
      assert (FirstOnly(front) + [last])[..|FirstOnly(front)|] == FirstOnly(front);
      if Covers(Accepted(front), last.notice, last.notice.at) {
        var e :| e in Accepted(front) && SameNotice(e.notice, last.notice);
        AcceptedFrom(front, e);
      }
    }
  }

  /** The arrivals that take effect are those that would without the repeats, if and only if every repeat for a known
      order that gets through finds the saved key of an accepted arrival alive. */
  lemma NoRepeatTakesEffectIff(t: Till, ds: seq<Arrival>)
    requires Unseen(t, ds)
    ensures Effective(t, ds) == Effective(t, FirstOnly(ds)) <==> RepeatsCovered(t, ds)
  {
    FirstArrivals(t, ds);
    EffectiveAreAccepted(t, ds);
    EffectiveAreAccepted(t, FirstOnly(ds));
    CoveredAreFirst(t, ds);
  }

  // ---- Which notice prevails ----

  /** The last arrival for an order, if any. */
  function LastFor(ds: seq<Arrival>, order: string): Option<Delivery> {
    if ds == [] then None
    else if ds[|ds| - 1].notice.orderId == order then Some(ds[|ds| - 1].notice)
    else LastFor(ds[..|ds| - 1], order)
  }

  function AfterLast(tx: Transaction, last: Option<Delivery>): Transaction {
    if last.None? then tx else Told(tx, last.value)
  }

  /** What any storm of notifications leaves: each transaction stands as the last accepted notice of its order left
      it, paid on that notice's arrival if the notice settles it and unpaid otherwise. */
  lemma {:induction false} LastAcceptedPrevails(t: Till, ds: seq<Arrival>, id: string)
    requires Unique(t.txs) && id in t.txs && Unseen(t, ds)
    ensures id in Process(t, ds).txs
    ensures Process(t, ds).txs[id] == AfterLast(t.txs[id], LastFor(Accepted(ds), t.txs[id].orderId))
  {
    if ds != [] {
      var front, last := ds[..|ds| - 1], ds[|ds| - 1];
      assert ds == front + [last];
      var before := Process(t, front);
      LastAcceptedPrevails(t, front, id);
      OrdersStayKnown(t, front, last.notice.orderId);
      AppliedIff(t, front, last);
      KeySaved(before, last);
      assert (Accepted(front) + [last])[..|Accepted(front)|] == Accepted(front);
      if Applies(before, last) {
        RowSet(before, last, id);
      }
    }
  }

  /** The order is paid exactly if its last accepted notice is a settlement or an accepted capture. */
  lemma PaidIff(t: Till, ds: seq<Arrival>, id: string)
    requires Unique(t.txs) && id in t.txs && Unseen(t, ds)
    requires LastFor(Accepted(ds), t.txs[id].orderId).Some?
    ensures id in Process(t, ds).txs
    ensures Process(t, ds).txs[id].paidAt.Some? <==>
            var last := LastFor(Accepted(ds), t.txs[id].orderId).value;
            last.status == "settlement" || (last.status == "capture" && last.fraud == "accept")
  {
    LastAcceptedPrevails(t, ds, id);
  }

  /** And exactly which words leave which status. */
  lemma StatusIff(t: Till, ds: seq<Arrival>, id: string)
    requires Unique(t.txs) && id in t.txs && Unseen(t, ds)
    requires LastFor(Accepted(ds), t.txs[id].orderId).Some?
    ensures id in Process(t, ds).txs
    ensures var last, tx := LastFor(Accepted(ds), t.txs[id].orderId).value, Process(t, ds).txs[id];
            && (tx.status == Settled <==>
                last.status == "settlement" || (last.status == "capture" && last.fraud == "accept"))
            && (tx.status == Failed <==>
                last.status in {"deny", "cancel", "failure"} || (last.status == "capture" && last.fraud != "accept"))
            && (tx.status == TxExpired <==> last.status == "expire")
            && (tx.status == Refunded <==> last.status == "refund")
            && (tx.status == TxPending <==>
                last.status !in {"settlement", "capture", "deny", "cancel", "failure", "expire", "refund"})
            && tx.paidAt == (if tx.status == Settled then Some(last.at) else None)
  {
    LastAcceptedPrevails(t, ds, id);
  }

  /** An order without an accepted notice stands as it did. */
  lemma UntoldStays(t: Till, ds: seq<Arrival>, id: string)
    requires Unique(t.txs) && id in t.txs && Unseen(t, ds)
    requires LastFor(Accepted(ds), t.txs[id].orderId).None?
    ensures id in Process(t, ds).txs && Process(t, ds).txs[id] == t.txs[id]
  {
    LastAcceptedPrevails(t, ds, id);
  }

  /** What the answers tell. A notice is answered if it is signed and its key could be looked up, and found, or else its
      order was found and updated. The answer calls it a duplicate exactly if it took no effect, and names the
      transaction of its order with the status it now has, if the transaction could be read. */
  lemma AnswerTells(t: Till, d: Arrival)
    requires Unique(t.txs)
    ensures var out := Notify(t, d.notice, d.io);
            var live := Redis.Live(t.redis, KeyOf(d.notice), d.notice.at);
            && (out.result.Ok? <==>
                d.io.signed && d.io.checkUp
                && (live || (d.io.getUp && d.io.updateUp && Known(t.txs, d.notice.orderId))))
            && (out.result.Ok? ==>
                  var answer := out.result.value;
                  && (answer.isDuplicate <==> !Applies(t, d))
                  && (answer.tx.Some? <==> d.io.getUp && Known(t.txs, d.notice.orderId))
                  && (answer.tx.Some? <==> answer.status.Some?)
                  && (answer.tx.Some? ==>
                        var id := answer.tx.value;
                        && id in t.txs && t.txs[id].orderId == d.notice.orderId && id in out.till.txs
                        && answer.status == Some(out.till.txs[id].status)))
            && (!d.io.signed ==> out.result == Err(InvalidSignature))
  {
  }

  /** No repeat taking effect, the last of the order's first arrivals prevails. */
  lemma LastFirstArrivalPrevails(t: Till, ds: seq<Arrival>, id: string)
    requires Unique(t.txs) && id in t.txs && Unseen(t, ds) && RepeatsCovered(t, ds)
    ensures id in Process(t, ds).txs
    ensures Process(t, ds).txs[id] == AfterLast(t.txs[id], LastFor(FirstOnly(ds), t.txs[id].orderId))
  {
    CoveredAreFirst(t, ds);
    LastKnown(t, Accepted(ds), t.txs[id].orderId);
    LastKnown(t, FirstOnly(ds), t.txs[id].orderId);
    LastAcceptedPrevails(t, ds, id);
  }

  lemma {:induction false} LastKnown(t: Till, ds: seq<Arrival>, order: string)
    requires Known(t.txs, order)
    ensures LastFor(OfKnownOrders(t, ds), order) == LastFor(ds, order)
  {
    if ds != [] {
      var front := OfKnownOrders(t, ds[..|ds| - 1]);
      LastKnown(t, ds[..|ds| - 1], order);
      assert (front + [ds[|ds| - 1]])[..|front|] == front;
    }
  }

  // ---- Repeats in time, and repeats that are not ----

  /** Every repeat for a known order that gets through arrives less than a time to live after the notice's first arrival
      that got through, and that one saved its key. */
  predicate RepeatsInTime(t: Till, ds: seq<Arrival>) {
    ds != [] ==>
      var front, last := ds[..|ds| - 1], ds[|ds| - 1];
      && RepeatsInTime(t, front)
      && (GetsThrough(last) && Known(t.txs, last.notice.orderId) && Has(FirstOnly(front), last.notice) ==>
            Covers(FirstOnly(front), last.notice, last.notice.at))
  }

  /** It comes to the same: what covers a repeat can only be the first arrival, as long as no repeat took effect. */
  lemma {:induction false} CoveredIffInTime(t: Till, ds: seq<Arrival>)
    ensures RepeatsCovered(t, ds) <==> RepeatsInTime(t, ds)
  {
    if ds != [] {
      var front, last := ds[..|ds| - 1], ds[|ds| - 1];
      CoveredIffInTime(t, front);
      if RepeatsCovered(t, front) && Known(t.txs, last.notice.orderId) {
        CoveredAreFirst(t, front);
        forall d: Arrival | d.notice.orderId == last.notice.orderId
          ensures d in Accepted(front) <==> d in FirstOnly(front)
        {
          InKnownOrders(t, Accepted(front), d);
          InKnownOrders(t, FirstOnly(front), d);
        }
      }
    }
  }

  /** Take any two notices of one order under different status words, and the first again. The repeat is harmless
      exactly if the first arrival saved its key, less than a time to live before. Else it brings the first status
      back. */
  lemma OvertakenReplay(t: Till, id: string, first: Arrival, second: Arrival, again: Arrival)
    requires Unique(t.txs) && id in t.txs && t.txs[id].orderId == first.notice.orderId
    requires Unseen(t, [first, second, again])
    requires GetsThrough(first) && GetsThrough(second) && GetsThrough(again)
    requires second.notice.orderId == first.notice.orderId && second.notice.status != first.notice.status
    requires again.notice == first.notice.(at := again.notice.at)
    ensures var all := [first, second, again];
            && id in Process(t, all).txs
            && Process(t, all).txs[id] ==
               Told(t.txs[id], if first.io.saveUp && again.notice.at < first.notice.at + DEFAULT_TTL
                               then second.notice else again.notice)
            && id in Process(t, FirstOnly(all)).txs
            && Process(t, FirstOnly(all)).txs[id] == Told(t.txs[id], second.notice)
  {
    var all := [first, second, again];
    ThreeArrivals(first, second, again);
    LastAcceptedPrevails(t, all, id);
    LastAcceptedPrevails(t, [first, second], id);
  }

  lemma ThreeArrivals(first: Arrival, second: Arrival, again: Arrival)
    requires GetsThrough(first) && GetsThrough(second) && GetsThrough(again)
    requires second.notice.orderId == first.notice.orderId && second.notice.status != first.notice.status
    requires again.notice == first.notice.(at := again.notice.at)
    ensures Accepted([first, second]) == [first, second] && FirstOnly([first, second, again]) == [first, second]
    ensures Accepted([first, second, again]) ==
            if first.io.saveUp && again.notice.at < first.notice.at + DEFAULT_TTL
            then [first, second] else [first, second, again]
  {
    var all := [first, second, again];
    assert all[..2] == [first, second] && all[..2][..1] == [first] && all[..2][..1][..0] == [];
    assert Accepted([first]) == [first] && FirstOnly([first]) == [first];
    assert Accepted([first, second]) == [first, second] && FirstOnly([first, second]) == [first, second];
    assert first in [first, second];
  }
}
