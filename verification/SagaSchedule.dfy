/** The booking saga of module Gateway is one schedule of the statement-level machine of module ChargeChain. */
module SagaSchedule {
  import opened Wrappers
  import opened ChargeChain
  import opened Gateway
  import Billing
  import Idempotency
  import Payments
  import Redis
  import Reservation

  function RowColumns(rows: Reservation.Table): map<string, Reserved> {
    map id | id in rows :: Reserved(rows[id].key)
  }

  function InvoiceColumns(invoices: Billing.Invoices): map<string, Invoiced> {
    map id | id in invoices :: Invoiced(invoices[id].reservationId, invoices[id].key, invoices[id].totalAmount)
  }

  function ChargeColumns(txs: Payments.Ledger): map<string, Charged> {
    map id | id in txs :: Charged(txs[id].invoiceId, txs[id].key, txs[id].amount)
  }

  /** The machine's tables are the columns of the world's. */
  ghost predicate Mirrors(s: State, w: World) {
    s.rows == RowColumns(w.rows) && s.invoices == InvoiceColumns(w.invoices) && s.txs == ChargeColumns(w.txs)
  }

  ghost predicate Reaches(s: State, t: State) {
    exists actions :: (forall a | a in actions :: Foreign(a)) && Run(s, actions) == t
  }

  lemma ReachesItself(s: State)
    ensures Reaches(s, s)
  {
    assert Run(s, []) == s;
  }

  lemma OneMore(s: State, t: State, a: Action)
    requires Reaches(s, t) && Foreign(a)
    ensures Reaches(s, Do(t, a))
  {
    var actions :| (forall b | b in actions :: Foreign(b)) && Run(s, actions) == t;
    assert (actions + [a])[..|actions|] == actions;
    assert Run(s, actions + [a]) == Do(t, a);
  }

  ghost predicate At(s: State, h: nat, handler: Handler) {
    h in s.handlers && s.handlers[h] == handler
  }

  lemma Statement(s: State, t: State, h: nat, id: string, ok: bool)
    requires Reaches(s, t) && h in t.handlers
    ensures Reaches(s, StepHandler(t, h, id, ok))
  {
    OneMore(s, t, Advance(h, id, ok));
  }

  /** The INSERT of the reservation, and the save of its key. */
  lemma ReserveInserts(s: State, t: State, h: nat, w: World, k: string, id: string, row: Reservation.Row, ok: bool,
                       saved: bool)
    returns (u: State)
    requires Reaches(s, t) && t.rows == RowColumns(w.rows) && At(t, h, AtReserve(k)) && row.key == k
    requires ok ==> Reservation.CanInsert(w.rows, id, row)
    ensures Reaches(s, u) && u.invoices == t.invoices && u.txs == t.txs
    ensures u.rows == if ok then RowColumns(w.rows[id := row]) else t.rows
    ensures At(u, h, if ok then AtInvoiceSelect(k, id) else Failed(k))
    ensures forall other | other != k :: other in u.cache <==> other in t.cache
  {
    Statement(s, t, h, id, ok);
    u := StepHandler(t, h, id, ok);
    if ok {
      assert RowColumns(w.rows[id := row]) == RowColumns(w.rows)[id := Reserved(k)];
      Statement(s, u, h, "", saved);
      u := StepHandler(u, h, "", saved);
    }
  }

  /** The reservation call on a key the cache has: the machine reads the row the call answers with. */
  lemma ReserveHits(s: State, t: State, h: nat, w: World, q: Reservation.CreateRequest, io: Reservation.CreateIo)
    returns (u: State)
    requires Reaches(s, t) && t.rows == RowColumns(w.rows) && At(t, h, AtRead(q.key)) && Reservation.KeysUnique(w.rows)
    requires io.checkUp && Redis.Live(w.redis, Idempotency.CacheKey(q.key), io.checkAt)
    ensures Reaches(s, u) && SameTables(u, t)
    ensures var out := Reservation.Create(Desk(w), q, io);
            && out.desk == Desk(w)
            && At(u, h, if out.result.Ok? then AtInvoiceSelect(q.key, out.result.value.id) else Failed(q.key))
  {
    var out := Reservation.Create(Desk(w), q, io);
    var id := if out.result.Ok? then out.result.value.id else "";
    Statement(s, t, h, id, out.result.Ok?);
    u := StepHandler(t, h, id, out.result.Ok?);
  }

  ghost predicate SameTables(s: State, t: State) {
    s.rows == t.rows && s.invoices == t.invoices && s.txs == t.txs && s.cache == t.cache
  }

  /** And on a key it has not: the machine inserts what the call inserts. */
  lemma ReserveMisses(s: State, t: State, h: nat, w: World, q: Reservation.CreateRequest, io: Reservation.CreateIo)
    returns (u: State)
    requires Reaches(s, t) && Mirrors(t, w) && At(t, h, AtReserve(q.key)) && Reservation.KeysUnique(w.rows)
    requires io.checkUp && !Redis.Live(w.redis, Idempotency.CacheKey(q.key), io.checkAt)
    ensures Reaches(s, u)
    ensures var out := Reservation.Create(Desk(w), q, io);
            && Mirrors(u, WithDesk(w, out.desk))
            && At(u, h, if out.result.Ok? then AtInvoiceSelect(q.key, out.result.value.id) else Failed(q.key))
            && (PayKey(q.key) in u.cache <==> PayKey(q.key) in t.cache)
  {
    var out := Reservation.Create(Desk(w), q, io);
    assert |PayKey(q.key)| != |q.key|;
    var row := if out.result.Ok? then out.result.value.row else Reservation.NewRow(q, "", io.stampAt);
    u := ReserveInserts(s, t, h, w, q.key, q.id, row, out.result.Ok?, io.saveUp);
  }

  /** The reservation call. */
  lemma ReserveSchedule(s: State, t: State, h: nat, w: World, q: Reservation.CreateRequest, io: Reservation.CreateIo)
    returns (u: State)
    requires Reaches(s, t) && Mirrors(t, w) && At(t, h, AtCheck(q.key)) && Reservation.KeysUnique(w.rows)
    requires q.key in t.cache <==> Redis.Live(w.redis, Idempotency.CacheKey(q.key), io.checkAt)
    ensures Reaches(s, u)
    ensures var out := Reservation.Create(Desk(w), q, io);
            && Mirrors(u, WithDesk(w, out.desk))
            && At(u, h, if out.result.Ok? then AtInvoiceSelect(q.key, out.result.value.id) else Failed(q.key))
            && (PayKey(q.key) in u.cache <==> PayKey(q.key) in t.cache)
  {
    Statement(s, t, h, "", io.checkUp);
    u := StepHandler(t, h, "", io.checkUp);
    if io.checkUp && q.key in t.cache {
      u := ReserveHits(s, u, h, w, q, io);
    } else if io.checkUp {
      u := ReserveMisses(s, u, h, w, q, io);
    }
  }

  /** The INSERT of the booking invoice. */
  lemma InvoiceInserts(s: State, t: State, h: nat, w: World, k: string, rid: string, driver: string, id: string,
                       ok: bool)
    returns (u: State)
    requires Reaches(s, t) && t.rows == RowColumns(w.rows) && t.invoices == InvoiceColumns(w.invoices)
    requires At(t, h, AtInvoiceInsert(k, rid))
    requires ok ==>
             rid in w.rows && Billing.CanInsert(w.invoices, id, Billing.BookingInvoice(rid, driver, InvoiceKey(k)))
    ensures Reaches(s, u) && u.rows == t.rows && u.txs == t.txs && u.cache == t.cache
    ensures u.invoices ==
            if ok then InvoiceColumns(w.invoices[id := Billing.BookingInvoice(rid, driver, InvoiceKey(k))])
            else t.invoices
    ensures At(u, h, if ok then AtPayCheck(k, rid, id) else Failed(k))
  {
    Statement(s, t, h, id, ok);
    u := StepHandler(t, h, id, ok);
    if ok {
      assert InvoiceColumns(w.invoices[id := Billing.BookingInvoice(rid, driver, InvoiceKey(k))]) ==
             InvoiceColumns(w.invoices)[id := Invoiced(rid, InvoiceKey(k), 5_000)];
    }
  }

  /** The invoice call. */
  lemma InvoiceSchedule(s: State, t: State, h: nat, w: World, rid: string, driver: string, k: string, id: string,
                        io: BookingInvoiceIo)
    returns (u: State)
    requires Reaches(s, t) && Mirrors(t, w) && At(t, h, AtInvoiceSelect(k, rid)) && Billing.KeysUnique(w.invoices)
    ensures Reaches(s, u) && u.cache == t.cache
    ensures var out := BookingInvoice(w, rid, driver, InvoiceKey(k), id, io);
            && Mirrors(u, out.world)
            && At(u, h, if out.result.Ok? then AtPayCheck(k, rid, out.result.value) else Failed(k))
  {
    var found := if io.selectUp then Billing.ByKey(w.invoices, InvoiceKey(k)) else Err(StoreDown);
    var row := if found.Ok? then found.value.id else "";
    Statement(s, t, h, row, found.Ok?);
    u := StepHandler(t, h, row, found.Ok?);
    if found.Err? {
      u := InvoiceInserts(s, u, h, w, k, rid, driver, id,
                          BookingInvoice(w, rid, driver, InvoiceKey(k), id, io).result.Ok?);
    }
  }

  /** The INSERT of the payment, and the save of its key. */
  lemma PayInserts(s: State, t: State, h: nat, w: World, k: string, rid: string, iid: string, id: string,
                   tx: Payments.Transaction, ok: bool, saved: bool)
    returns (u: State)
    requires Reaches(s, t) && t.txs == ChargeColumns(w.txs) && t.invoices == InvoiceColumns(w.invoices)
    requires At(t, h, AtPayInsert(k, rid, iid))
    requires tx.key == PayKey(k) && tx.invoiceId == iid && tx.amount == 5_000
    requires ok ==> iid in w.invoices && Payments.CanInsert(w.txs, id, tx)
    ensures Reaches(s, u) && u.rows == t.rows && u.invoices == t.invoices
    ensures u.txs == if ok then ChargeColumns(w.txs[id := tx]) else t.txs
    ensures At(u, h, if ok then Answered(k, rid, iid, id) else Failed(k))
  {
    Statement(s, t, h, id, ok);
    u := StepHandler(t, h, id, ok);
    if ok {
      assert ChargeColumns(w.txs[id := tx]) == ChargeColumns(w.txs)[id := Charged(iid, PayKey(k), 5_000)];
      u := PaySaves(s, u, h, k, rid, iid, id, saved);
    }
  }

  lemma PaySaves(s: State, t: State, h: nat, k: string, rid: string, iid: string, id: string, saved: bool)
    returns (u: State)
    requires Reaches(s, t) && At(t, h, AtPaySave(k, rid, iid, id))
    ensures Reaches(s, u) && u.rows == t.rows && u.invoices == t.invoices && u.txs == t.txs
    ensures At(u, h, Answered(k, rid, iid, id))
  {
    Statement(s, t, h, "", saved);
    u := StepHandler(t, h, "", saved);
  }

  /** The payment call on a key the cache has. */
  lemma PayHits(s: State, t: State, h: nat, w: World, k: string, rid: string, q: Payments.TxRequest, io: Payments.TxIo)
    returns (u: State)
    requires Reaches(s, t) && t.txs == ChargeColumns(w.txs) && At(t, h, AtPayRead(k, rid, q.invoiceId))
    requires Payments.Unique(w.txs) && q.key == PayKey(k)
    requires io.checkUp && Redis.Live(w.redis, Idempotency.CacheKey(q.key), io.checkAt)
    ensures Reaches(s, u) && SameTables(u, t)
    ensures var out := Pay(w, q, io);
            && out.world == w
            && At(u, h, if out.result.Ok? then Answered(k, rid, q.invoiceId, out.result.value.id) else Failed(k))
  {
    var out := Pay(w, q, io);
    var id := if out.result.Ok? then out.result.value.id else "";
    Statement(s, t, h, id, out.result.Ok?);
    u := StepHandler(t, h, id, out.result.Ok?);
  }

  /** And on a key it has not. */
  lemma PayMisses(s: State, t: State, h: nat, w: World, k: string, rid: string, q: Payments.TxRequest,
                  io: Payments.TxIo)
    returns (u: State)
    requires Reaches(s, t) && Mirrors(t, w) && At(t, h, AtPayInsert(k, rid, q.invoiceId)) && Payments.Unique(w.txs)
    requires q.key == PayKey(k) && q.amount == 5_000
    requires io.checkUp && !Redis.Live(w.redis, Idempotency.CacheKey(q.key), io.checkAt)
    ensures Reaches(s, u)
    ensures var out := Pay(w, q, io);
            && Mirrors(u, out.world)
            && At(u, h, if out.result.Ok? then Answered(k, rid, q.invoiceId, out.result.value.id) else Failed(k))
  {
    var out := Pay(w, q, io);
    u := PayInserts(s, t, h, w, k, rid, q.invoiceId, q.id, Payments.NewTransaction(q), out.result.Ok?, io.saveUp);
  }

  /** The payment call. */
  lemma PaySchedule(s: State, t: State, h: nat, w: World, k: string, rid: string, q: Payments.TxRequest,
                    io: Payments.TxIo)
    returns (u: State)
    requires Reaches(s, t) && Mirrors(t, w) && At(t, h, AtPayCheck(k, rid, q.invoiceId)) && Payments.Unique(w.txs)
    requires q.key == PayKey(k) && q.amount == 5_000
    requires PayKey(k) in t.cache <==> Redis.Live(w.redis, Idempotency.CacheKey(PayKey(k)), io.checkAt)
    ensures Reaches(s, u)
    ensures var out := Pay(w, q, io);
            && Mirrors(u, out.world)
            && At(u, h, if out.result.Ok? then Answered(k, rid, q.invoiceId, out.result.value.id) else Failed(k))
  {
    Statement(s, t, h, "", io.checkUp);
    u := StepHandler(t, h, "", io.checkUp);
    if io.checkUp && PayKey(k) in t.cache {
      u := PayHits(s, u, h, w, k, rid, q, io);
    } else if io.checkUp {
      u := PayMisses(s, u, h, w, k, rid, q, io);
    }
  }

  lemma CompensationMirrored(t: State, w: World, id: string, driver: string, io: Reservation.CancelIo)
    requires Mirrors(t, w)
    ensures Mirrors(t, Compensated(w, id, driver, io))
  {
  }

  lemma InvoicingFrame(w: World, rid: string, driver: string, key: string, id: string, io: BookingInvoiceIo)
    ensures var after := BookingInvoice(w, rid, driver, key, id, io).world;
            after.rows == w.rows && after.txs == w.txs && after.redis == w.redis
  {
  }

  /** What the saga does once it has its reservation. */
  lemma ChargeSchedule(s: State, t: State, h: nat, w: World, booking: Reservation.Booking, q: Reservation.CreateRequest,
                       invoiceId: string, txId: string, io: SagaIo)
    returns (u: State)
    requires Reaches(s, t) && Mirrors(t, w) && At(t, h, AtInvoiceSelect(q.key, booking.id))
    requires Billing.KeysUnique(w.invoices) && Payments.Unique(w.txs)
    requires PayKey(q.key) in t.cache <==> Redis.Live(w.redis, Idempotency.CacheKey(PayKey(q.key)), io.pay.checkAt)
    ensures Reaches(s, u)
    ensures var out := Charge(w, booking, q, invoiceId, txId, io);
            && Mirrors(u, out.world)
            && At(u, h, if out.result.Ok?
                        then Answered(q.key, booking.id, out.result.value.invoiceId, out.result.value.payment.id)
                        else Failed(q.key))
            && (out.result.Ok? ==> out.result.value.booking == booking)
  {
    u := InvoiceSchedule(s, t, h, w, booking.id, q.driver, q.key, invoiceId, io.invoice);
    var invoiced := BookingInvoice(w, booking.id, q.driver, InvoiceKey(q.key), invoiceId, io.invoice);
    if invoiced.result.Err? {
      CompensationMirrored(u, invoiced.world, booking.id, q.driver, io.cancel);
    } else {
      var request := Payments.TxRequest(invoiced.result.value, q.driver, PayKey(q.key), "QRIS", 5_000, txId);
      InvoicingFrame(w, booking.id, q.driver, InvoiceKey(q.key), invoiceId, io.invoice);
      u := PaySchedule(s, u, h, invoiced.world, q.key, booking.id, request, io.pay);
      CompensationMirrored(u, Pay(invoiced.world, request, io.pay).world, booking.id, q.driver, io.cancel);
    }
  }

  /** Every outcome of the saga, compensation included, is an outcome of a schedule of the machine, with the same
      reservation, invoice and payment in the answer. So what holds of all schedules holds of the saga. */
  lemma SagaIsASchedule(s: State, h: nat, w: World, q: Reservation.CreateRequest, invoiceId: string, txId: string,
                        io: SagaIo)
    returns (u: State)
    requires Mirrors(s, w) && At(s, h, AtCheck(q.key))
    requires Reservation.KeysUnique(w.rows) && Billing.KeysUnique(w.invoices) && Payments.Unique(w.txs)
    requires q.key in s.cache <==> Redis.Live(w.redis, Idempotency.CacheKey(q.key), io.create.checkAt)
    requires PayKey(q.key) in s.cache <==>
             Redis.Live(Reservation.Create(Desk(w), q, io.create).desk.redis, Idempotency.CacheKey(PayKey(q.key)),
                        io.pay.checkAt)
    ensures Reaches(s, u)
    ensures var out := Book(w, q, invoiceId, txId, io);
            && Mirrors(u, out.world)
            && At(u, h, if out.result.Ok?
                        then Answered(q.key, out.result.value.booking.id, out.result.value.invoiceId,
                                      out.result.value.payment.id)
                        else Failed(q.key))
  {
    ReachesItself(s);
    u := ReserveSchedule(s, s, h, w, q, io.create);
    var created := Reservation.Create(Desk(w), q, io.create);
    if created.result.Ok? {
      u := ChargeSchedule(s, u, h, WithDesk(w, created.desk), created.result.value, q, invoiceId, txId, io);
    }
  }
}
