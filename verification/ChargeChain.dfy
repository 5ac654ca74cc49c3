/** Charging at most once: any number of booking requests, retried and interleaved statement by statement, over a
    cache that may lose anything at any time. */
module ChargeChain {
  import Gateway

  /** The columns the chain depends on. Rows are only ever inserted, and these columns never updated. */
  datatype Reserved = Reserved(key: string)

  datatype Invoiced = Invoiced(reservation: string, key: string, amount: int)

  datatype Charged = Charged(invoice: string, key: string, amount: int)

  /** Where a request handler stands between two statements. */
  datatype Handler =
    | AtCheck(key: string)
    | AtRead(key: string)
    | AtReserve(key: string)
    | AtSave(key: string, rid: string)
    | AtInvoiceSelect(key: string, rid: string)
    | AtInvoiceInsert(key: string, rid: string)
    | AtPayCheck(key: string, rid: string, iid: string)
    | AtPayRead(key: string, rid: string, iid: string)
    | AtPayInsert(key: string, rid: string, iid: string)
    | AtPaySave(key: string, rid: string, iid: string, tid: string)
    | Answered(key: string, rid: string, iid: string, tid: string)
    | Failed(key: string)

  datatype State = State(rows: map<string, Reserved>, invoices: map<string, Invoiced>, txs: map<string, Charged>,
                         cache: set<string>, handlers: map<nat, Handler>)

  /** One statement of one handler, a crash, the cache losing a key, a new request, or another service's insert. */
  datatype Action =
    | Arrive(h: nat, key: string)
    | Advance(h: nat, id: string, ok: bool)
    | Crash(h: nat)
    | Forget(cacheKey: string)
    | OtherCache(cacheKey: string)
    | OtherInvoice(id: string, invoice: Invoiced)
    | OtherCharge(id: string, tx: Charged)

  predicate InvoiceKeyFree(s: State, key: string) {
    forall i | i in s.invoices :: s.invoices[i].key != key
  }

  predicate PayKeyFree(s: State, key: string) {
    forall t | t in s.txs :: s.txs[t].key != key
  }

  ghost predicate RowWithKey(s: State, id: string, key: string) {
    id in s.rows && s.rows[id].key == key
  }

  ghost predicate InvoiceWithKey(s: State, id: string, key: string) {
    id in s.invoices && s.invoices[id].key == key
  }

  ghost predicate TxWithKey(s: State, id: string, key: string) {
    id in s.txs && s.txs[id].key == key
  }

  /** The statement a handler executes next. id is the row a query returns or the uuid an insert uses; ok tells whether
      a fallible call got through. A failing statement ends the request, but for the first SELECT of the invoice. */
  ghost function Next(s: State, h: Handler, id: string, ok: bool): (State, Handler) {
    match h
    case AtCheck(k) => (s, if !ok then Failed(k) else if k in s.cache then AtRead(k) else AtReserve(k))
    case AtRead(k) => (s, if ok && RowWithKey(s, id, k) then AtInvoiceSelect(k, id) else Failed(k))
    case AtReserve(k) =>
      if ok && id !in s.rows && (forall r | r in s.rows :: s.rows[r].key != k)
      then (s.(rows := s.rows[id := Reserved(k)]), AtSave(k, id))
      else (s, Failed(k))
    case AtSave(k, rid) => (if ok then s.(cache := s.cache + {k}) else s, AtInvoiceSelect(k, rid))
    case AtInvoiceSelect(k, rid) =>
      (s, if ok && InvoiceWithKey(s, id, Gateway.InvoiceKey(k)) then AtPayCheck(k, rid, id)
          else AtInvoiceInsert(k, rid))
    case AtInvoiceInsert(k, rid) =>
      if ok && id !in s.invoices && rid in s.rows && InvoiceKeyFree(s, Gateway.InvoiceKey(k))
      then (s.(invoices := s.invoices[id := Invoiced(rid, Gateway.InvoiceKey(k), 5_000)]), AtPayCheck(k, rid, id))
      else (s, Failed(k))
    case AtPayCheck(k, rid, iid) =>
      (s, if !ok then Failed(k)
          else if Gateway.PayKey(k) in s.cache then AtPayRead(k, rid, iid) else AtPayInsert(k, rid, iid))
    case AtPayRead(k, rid, iid) =>
      (s, if ok && TxWithKey(s, id, Gateway.PayKey(k)) then Answered(k, rid, iid, id) else Failed(k))
    case AtPayInsert(k, rid, iid) =>
      if ok && id !in s.txs && iid in s.invoices && PayKeyFree(s, Gateway.PayKey(k))
      then (s.(txs := s.txs[id := Charged(iid, Gateway.PayKey(k), 5_000)]), AtPaySave(k, rid, iid, id))
      else (s, Failed(k))
    case AtPaySave(k, rid, iid, tid) =>
      (if ok then s.(cache := s.cache + {Gateway.PayKey(k)}) else s, Answered(k, rid, iid, tid))
    case _ => (s, h)
  }

  ghost function StepHandler(s: State, h: nat, id: string, ok: bool): State
    requires h in s.handlers
  {
    var (tables, to) := Next(s, s.handlers[h], id, ok);
    tables.(handlers := s.handlers[h := to])
  }

  function Go(s: State, h: nat, to: Handler): State {
    s.(handlers := s.handlers[h := to])
  }

  ghost function Do(s: State, a: Action): State {
    match a
    case Arrive(h, key) => if h in s.handlers then s else Go(s, h, AtCheck(key))
    case Advance(h, id, ok) => if h in s.handlers then StepHandler(s, h, id, ok) else s
    case Crash(h) => if h in s.handlers then Go(s, h, Failed(s.handlers[h].key)) else s
    case Forget(key) => s.(cache := s.cache - {key})
    case OtherCache(key) => s.(cache := s.cache + {key})
    case OtherInvoice(id, invoice) =>
      if id !in s.invoices && invoice.reservation in s.rows && InvoiceKeyFree(s, invoice.key)
      then s.(invoices := s.invoices[id := invoice]) else s
    case OtherCharge(id, tx) =>
      if id !in s.txs && tx.invoice in s.invoices && PayKeyFree(s, tx.key)
      then s.(txs := s.txs[id := tx]) else s
  }

  /** Other inserts use keys outside the saga's two namespaces, as checkout's "inv-" keys do. */
  ghost predicate Foreign(a: Action) {
    match a
    case OtherInvoice(_, invoice) => forall k :: invoice.key != Gateway.InvoiceKey(k)
    case OtherCharge(_, tx) => forall k :: tx.key != Gateway.PayKey(k)
    case _ => true
  }

  /** An insert from elsewhere that is accepted and uses a key of the saga's makes the row the saga would have made. */
  ghost predicate Fits(s: State, a: Action) {
    match a
    case OtherInvoice(id, invoice) =>
      id !in s.invoices && invoice.reservation in s.rows && InvoiceKeyFree(s, invoice.key) ==>
        forall k :: invoice.key == Gateway.InvoiceKey(k) ==>
          RowWithKey(s, invoice.reservation, k) && invoice.amount == 5_000
    case OtherCharge(id, tx) =>
      id !in s.txs && tx.invoice in s.invoices && PayKeyFree(s, tx.key) ==>
        forall k :: tx.key == Gateway.PayKey(k) ==>
          InvoiceWithKey(s, tx.invoice, Gateway.InvoiceKey(k)) && tx.amount == 5_000
    case _ => true
  }

  ghost predicate AllFit(s: State, actions: seq<Action>) {
    actions != [] ==> AllFit(s, actions[..|actions| - 1])
                      && Fits(Run(s, actions[..|actions| - 1]), actions[|actions| - 1])
  }

  ghost function Run(s: State, actions: seq<Action>): State {
    if actions == [] then s else Do(Run(s, actions[..|actions| - 1]), actions[|actions| - 1])
  }

  const START: State := State(map[], map[], map[], {}, map[])

  // ---- The invariant ----

  ghost predicate RowKeysUnique(s: State) {
    forall i, j | i in s.rows && j in s.rows && s.rows[i].key == s.rows[j].key :: i == j
  }

  ghost predicate InvoiceKeysUnique(s: State) {
    forall i, j | i in s.invoices && j in s.invoices && s.invoices[i].key == s.invoices[j].key :: i == j
  }

  ghost predicate ChargeKeysUnique(s: State) {
    forall i, j | i in s.txs && j in s.txs && s.txs[i].key == s.txs[j].key :: i == j
  }

  ghost predicate UniqueKeys(s: State) {
    RowKeysUnique(s) && InvoiceKeysUnique(s) && ChargeKeysUnique(s)
  }

  /** The booking invoice of key k bills the reservation of key k, and its payment pays that invoice, 5000 each. */
  ghost predicate InvoiceLinked(s: State, iid: string, k: string) {
    InvoiceWithKey(s, iid, Gateway.InvoiceKey(k)) ==>
      RowWithKey(s, s.invoices[iid].reservation, k) && s.invoices[iid].amount == 5_000
  }

  ghost predicate ChargeLinked(s: State, tid: string, k: string) {
    TxWithKey(s, tid, Gateway.PayKey(k)) ==>
      InvoiceWithKey(s, s.txs[tid].invoice, Gateway.InvoiceKey(k)) && s.txs[tid].amount == 5_000
  }

  ghost predicate Linked(s: State) {
    && (forall iid, k :: InvoiceLinked(s, iid, k))
    && (forall tid, k :: ChargeLinked(s, tid, k))
  }

  /** What a handler carries in its local variables still is in the tables. */
  ghost predicate Carries(s: State, h: Handler) {
    match h
    case AtSave(k, rid) => RowWithKey(s, rid, k)
    case AtInvoiceSelect(k, rid) => RowWithKey(s, rid, k)
    case AtInvoiceInsert(k, rid) => RowWithKey(s, rid, k)
    case AtPayCheck(k, rid, iid) => RowWithKey(s, rid, k) && InvoiceWithKey(s, iid, Gateway.InvoiceKey(k))
    case AtPayRead(k, rid, iid) => RowWithKey(s, rid, k) && InvoiceWithKey(s, iid, Gateway.InvoiceKey(k))
    case AtPayInsert(k, rid, iid) => RowWithKey(s, rid, k) && InvoiceWithKey(s, iid, Gateway.InvoiceKey(k))
    case AtPaySave(k, rid, iid, tid) =>
      RowWithKey(s, rid, k) && InvoiceWithKey(s, iid, Gateway.InvoiceKey(k)) && TxWithKey(s, tid, Gateway.PayKey(k))
    case Answered(k, rid, iid, tid) =>
      RowWithKey(s, rid, k) && InvoiceWithKey(s, iid, Gateway.InvoiceKey(k)) && TxWithKey(s, tid, Gateway.PayKey(k))
    case _ => true
  }

  ghost predicate Inv(s: State) {
    && UniqueKeys(s) && Linked(s)
    && (forall h | h in s.handlers :: Carries(s, s.handlers[h]))
  }

  /** Tables only grow. */
  ghost predicate Extends(s: State, t: State) {
    && (forall i | i in s.rows :: i in t.rows && t.rows[i] == s.rows[i])
    && (forall i | i in s.invoices :: i in t.invoices && t.invoices[i] == s.invoices[i])
    && (forall i | i in s.txs :: i in t.txs && t.txs[i] == s.txs[i])
  }

  lemma RowsGrow(s: State, a: Action)
    ensures forall i | i in s.rows :: i in Do(s, a).rows && Do(s, a).rows[i] == s.rows[i]
  {
  }

  lemma InvoicesGrow(s: State, a: Action)
    ensures forall i | i in s.invoices :: i in Do(s, a).invoices && Do(s, a).invoices[i] == s.invoices[i]
  {
  }

  lemma ChargesGrow(s: State, a: Action)
    ensures forall i | i in s.txs :: i in Do(s, a).txs && Do(s, a).txs[i] == s.txs[i]
  {
  }

  lemma TablesGrow(s: State, a: Action)
    ensures Extends(s, Do(s, a))
  {
    RowsGrow(s, a);
    InvoicesGrow(s, a);
    ChargesGrow(s, a);
  }

  lemma CarriesOn(s: State, t: State, h: Handler)
    requires Extends(s, t) && Carries(s, h)
    ensures Carries(t, h)
  {
  }

  lemma InvoiceKeyInjective(a: string, b: string)
    requires Gateway.InvoiceKey(a) == Gateway.InvoiceKey(b)
    ensures a == b
  {
    assert a == Gateway.InvoiceKey(a)[8..] && b == Gateway.InvoiceKey(b)[8..];
  }

  lemma PayKeyInjective(a: string, b: string)
    requires Gateway.PayKey(a) == Gateway.PayKey(b)
    ensures a == b
  {
    assert a == Gateway.PayKey(a)[12..] && b == Gateway.PayKey(b)[12..];
  }

  lemma ActionKeepsRowKeys(s: State, a: Action)
    requires RowKeysUnique(s)
    ensures RowKeysUnique(Do(s, a))
  {
  }

  lemma ActionKeepsInvoiceKeys(s: State, a: Action)
    requires InvoiceKeysUnique(s)
    ensures InvoiceKeysUnique(Do(s, a))
  {
  }

  lemma ActionKeepsChargeKeys(s: State, a: Action)
    requires ChargeKeysUnique(s)
    ensures ChargeKeysUnique(Do(s, a))
  {
  }

  lemma ActionKeepsInvoiceLinks(s: State, a: Action, iid: string, k: string)
    requires Inv(s) && Fits(s, a)
    ensures InvoiceLinked(Do(s, a), iid, k)
  {
    var t := Do(s, a);
    TablesGrow(s, a);
    if InvoiceWithKey(t, iid, Gateway.InvoiceKey(k)) {
      if iid in s.invoices {
        assert InvoiceLinked(s, iid, k);
      } else if a.Advance? {
        assert Carries(s, s.handlers[a.h]);
        InvoiceKeyInjective(k, s.handlers[a.h].key);
      }
    }
  }

  lemma ActionKeepsChargeLinks(s: State, a: Action, tid: string, k: string)
    requires Inv(s) && Fits(s, a)
    ensures ChargeLinked(Do(s, a), tid, k)
  {
    var t := Do(s, a);
    TablesGrow(s, a);
    if TxWithKey(t, tid, Gateway.PayKey(k)) {
      if tid in s.txs {
        assert ChargeLinked(s, tid, k);
      } else if a.Advance? {
        assert Carries(s, s.handlers[a.h]);
        PayKeyInjective(k, s.handlers[a.h].key);
      }
    }
  }

  lemma BookingAdvanceCarries(s: State, h: nat, id: string, ok: bool)
    requires h in s.handlers && Carries(s, s.handlers[h])
    requires s.handlers[h].AtRead? || s.handlers[h].AtReserve? || s.handlers[h].AtSave?
             || s.handlers[h].AtInvoiceSelect? || s.handlers[h].AtInvoiceInsert?
    ensures var t := StepHandler(s, h, id, ok); h in t.handlers && Carries(t, t.handlers[h])
  {
  }

  lemma PaymentAdvanceCarries(s: State, h: nat, id: string, ok: bool)
    requires h in s.handlers && Carries(s, s.handlers[h])
    requires s.handlers[h].AtPayCheck? || s.handlers[h].AtPayRead?
             || s.handlers[h].AtPayInsert? || s.handlers[h].AtPaySave?
    ensures var t := StepHandler(s, h, id, ok); h in t.handlers && Carries(t, t.handlers[h])
  {
  }

  lemma OnlyOneHandlerMoves(s: State, a: Action, h: nat)
    requires h in s.handlers && !((a.Advance? || a.Crash?) && a.h == h)
    ensures h in Do(s, a).handlers && Do(s, a).handlers[h] == s.handlers[h]
  {
  }

  lemma ActionKeepsCarried(s: State, a: Action, h: nat)
    requires (forall g | g in s.handlers :: Carries(s, s.handlers[g])) && h in Do(s, a).handlers
    ensures Carries(Do(s, a), Do(s, a).handlers[h])
  {
    if h !in s.handlers {
      assert a.Arrive?;
    } else if a.Advance? && a.h == h {
      match s.handlers[h]
      case AtCheck(_) =>
      case Answered(_, _, _, _) =>
      case Failed(_) =>
      case AtPayCheck(_, _, _) => PaymentAdvanceCarries(s, h, a.id, a.ok);
      case AtPayRead(_, _, _) => PaymentAdvanceCarries(s, h, a.id, a.ok);
      case AtPayInsert(_, _, _) => PaymentAdvanceCarries(s, h, a.id, a.ok);
      case AtPaySave(_, _, _, _) => PaymentAdvanceCarries(s, h, a.id, a.ok);
      case _ => BookingAdvanceCarries(s, h, a.id, a.ok);
    } else if !(a.Crash? && a.h == h) {
      OnlyOneHandlerMoves(s, a, h);
      TablesGrow(s, a);
      CarriesOn(s, Do(s, a), s.handlers[h]);
    }
  }

  lemma ActionKeepsUniqueKeys(s: State, a: Action)
    requires UniqueKeys(s)
    ensures UniqueKeys(Do(s, a))
  {
    ActionKeepsRowKeys(s, a);
    ActionKeepsInvoiceKeys(s, a);
    ActionKeepsChargeKeys(s, a);
  }

  lemma ActionKeepsInv(s: State, a: Action)
    requires Inv(s) && Fits(s, a)
    ensures Inv(Do(s, a))
  {
    ActionKeepsUniqueKeys(s, a);
    forall iid, k ensures InvoiceLinked(Do(s, a), iid, k) {
      ActionKeepsInvoiceLinks(s, a, iid, k);
    }
    forall tid, k ensures ChargeLinked(Do(s, a), tid, k) {
      ActionKeepsChargeLinks(s, a, tid, k);
    }
    forall h | h in Do(s, a).handlers ensures Carries(Do(s, a), Do(s, a).handlers[h]) {
      ActionKeepsCarried(s, a, h);
    }
  }

  lemma {:induction false} RunKeepsInv(s: State, actions: seq<Action>)
    requires Inv(s) && AllFit(s, actions)
    ensures Inv(Run(s, actions))
  {
    if actions != [] {
      RunKeepsInv(s, actions[..|actions| - 1]);
      ActionKeepsInv(Run(s, actions[..|actions| - 1]), actions[|actions| - 1]);
    }
  }

  lemma {:induction false} RunKeepsUniqueKeys(s: State, actions: seq<Action>)
    requires UniqueKeys(s)
    ensures UniqueKeys(Run(s, actions))
  {
    if actions != [] {
      RunKeepsUniqueKeys(s, actions[..|actions| - 1]);
      ActionKeepsUniqueKeys(Run(s, actions[..|actions| - 1]), actions[|actions| - 1]);
    }
  }

  /** Keys outside the saga's namespaces fit. */
  lemma {:induction false} ForeignRunsFit(s: State, actions: seq<Action>)
    requires forall a | a in actions :: Foreign(a)
    ensures AllFit(s, actions)
  {
    if actions != [] {
      ForeignRunsFit(s, actions[..|actions| - 1]);
      assert Foreign(actions[|actions| - 1]);
    }
  }

  /** Whatever is retried, interleaved, crashed, unsaved, forgotten or inserted elsewhere: a client key has at most one
      reservation, one booking invoice and one booking payment. If what is inserted elsewhere fits, each points to the
      one before, for 5000. */
  lemma ChargedAtMostOnce(actions: seq<Action>, k: string)
    ensures var s := Run(START, actions);
            && (forall i, j | RowWithKey(s, i, k) && RowWithKey(s, j, k) :: i == j)
            && (forall i, j |
                  InvoiceWithKey(s, i, Gateway.InvoiceKey(k)) && InvoiceWithKey(s, j, Gateway.InvoiceKey(k)) :: i == j)
            && (forall i, j | TxWithKey(s, i, Gateway.PayKey(k)) && TxWithKey(s, j, Gateway.PayKey(k)) :: i == j)
    ensures var s := Run(START, actions);
            AllFit(START, actions) ==>
              forall tid | TxWithKey(s, tid, Gateway.PayKey(k)) ::
                && s.txs[tid].amount == 5_000
                && InvoiceWithKey(s, s.txs[tid].invoice, Gateway.InvoiceKey(k))
                && RowWithKey(s, s.invoices[s.txs[tid].invoice].reservation, k)
  {
    RunKeepsUniqueKeys(START, actions);
    var s := Run(START, actions);
    if AllFit(START, actions) {
      RunKeepsInv(START, actions);
      forall tid | TxWithKey(s, tid, Gateway.PayKey(k))
        ensures s.txs[tid].amount == 5_000 && InvoiceWithKey(s, s.txs[tid].invoice, Gateway.InvoiceKey(k))
                && RowWithKey(s, s.invoices[s.txs[tid].invoice].reservation, k)
      {
        assert ChargeLinked(s, tid, k);
        assert InvoiceLinked(s, s.txs[tid].invoice, k);
      }
    }
  }

  /** Two requests with one key that both got an answer got the same reservation, invoice and payment, and that
      payment is for that invoice of that reservation. */
  lemma AnswersAgree(actions: seq<Action>, g: nat, h: nat)
    requires AllFit(START, actions)
    requires g in Run(START, actions).handlers && h in Run(START, actions).handlers
    requires Run(START, actions).handlers[g].Answered? && Run(START, actions).handlers[h].Answered?
    requires Run(START, actions).handlers[g].key == Run(START, actions).handlers[h].key
    ensures var s := Run(START, actions);
            var answer := s.handlers[g];
            && s.handlers[h] == answer
            && answer.tid in s.txs && s.txs[answer.tid].invoice == answer.iid
            && answer.iid in s.invoices && s.invoices[answer.iid].reservation == answer.rid
  {
    RunKeepsInv(START, actions);
    var s := Run(START, actions);
    var answer := s.handlers[g];
    assert Carries(s, answer) && Carries(s, s.handlers[h]);
    assert ChargeLinked(s, answer.tid, answer.key) && InvoiceLinked(s, answer.iid, answer.key);
  }

  // ---- Exactly when the chain is linked ----

  /** The foreign keys hold. */
  ghost predicate Referenced(s: State) {
    && (forall i | i in s.invoices :: s.invoices[i].reservation in s.rows)
    && (forall t | t in s.txs :: s.txs[t].invoice in s.invoices)
  }

  lemma ActionKeepsReferences(s: State, a: Action)
    requires Referenced(s)
    ensures Referenced(Do(s, a))
  {
    TablesGrow(s, a);
    forall i | i in Do(s, a).invoices ensures Do(s, a).invoices[i].reservation in Do(s, a).rows {
      NewInvoiceReferenced(s, a, i);
    }
    forall t | t in Do(s, a).txs ensures Do(s, a).txs[t].invoice in Do(s, a).invoices {
      NewChargeReferenced(s, a, t);
    }
  }

  lemma NewInvoiceReferenced(s: State, a: Action, i: string)
    requires Referenced(s) && Extends(s, Do(s, a)) && i in Do(s, a).invoices
    ensures Do(s, a).invoices[i].reservation in Do(s, a).rows
  {
  }

  lemma NewChargeReferenced(s: State, a: Action, t: string)
    requires Referenced(s) && Extends(s, Do(s, a)) && t in Do(s, a).txs
    ensures Do(s, a).txs[t].invoice in Do(s, a).invoices
  {
  }

  /** A broken link stays broken: rows are never changed or removed. */
  lemma BrokenStays(s: State, a: Action)
    requires Referenced(s) && !Linked(s)
    ensures !Linked(Do(s, a))
  {
    var t := Do(s, a);
    TablesGrow(s, a);
    if iid, k :| !InvoiceLinked(s, iid, k) {
      assert !InvoiceLinked(t, iid, k);
    } else {
      var tid, k :| !ChargeLinked(s, tid, k);
      assert !ChargeLinked(t, tid, k);
    }
  }

  lemma MisfitBreaks(s: State, a: Action)
    requires !Fits(s, a)
    ensures !Linked(Do(s, a))
  {
    var t := Do(s, a);
    if a.OtherInvoice? {
      var k :| a.invoice.key == Gateway.InvoiceKey(k)
               && !(RowWithKey(s, a.invoice.reservation, k) && a.invoice.amount == 5_000);
      assert !InvoiceLinked(t, a.id, k);
    } else {
      var k :| a.tx.key == Gateway.PayKey(k)
               && !(InvoiceWithKey(s, a.tx.invoice, Gateway.InvoiceKey(k)) && a.tx.amount == 5_000);
      assert !ChargeLinked(t, a.id, k);
    }
  }

  /** An insert from elsewhere keeps the chain linked exactly if it fits. */
  lemma InsertKeepsInvIff(s: State, a: Action)
    requires Inv(s)
    ensures Inv(Do(s, a)) <==> Fits(s, a)
  {
    if Fits(s, a) {
      ActionKeepsInv(s, a);
    } else {
      MisfitBreaks(s, a);
    }
  }

  lemma {:induction false} LinkedIffAllFitFrom(s: State, actions: seq<Action>)
    requires Inv(s) && Referenced(s)
    ensures Referenced(Run(s, actions))
    ensures Linked(Run(s, actions)) <==> AllFit(s, actions)
  {
    if actions != [] {
      var front, last := actions[..|actions| - 1], actions[|actions| - 1];
      LinkedIffAllFitFrom(s, front);
      ActionKeepsReferences(Run(s, front), last);
      if AllFit(s, front) {
        RunKeepsInv(s, front);
        InsertKeepsInvIff(Run(s, front), last);
        if !Fits(Run(s, front), last) {
          MisfitBreaks(Run(s, front), last);
        }
      } else {
        BrokenStays(Run(s, front), last);
      }
    }
  }

  /** Over every interleaving the chain of every key is linked if and only if everything inserted elsewhere fits. */
  lemma LinkedIffAllFit(actions: seq<Action>)
    ensures Linked(Run(START, actions)) <==> AllFit(START, actions)
  {
    LinkedIffAllFitFrom(START, actions);
  }
}
