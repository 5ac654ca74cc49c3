/** Why the booking saga's key spaces matter: a run in which a payment made elsewhere becomes a booking's payment. */
module BorrowedKey {
  import opened ChargeChain
  import Gateway

  lemma {:induction false} RunsAppend(s: State, first: seq<Action>, rest: seq<Action>)
    ensures Run(s, first + rest) == Run(Run(s, first), rest)
  {
    if rest == [] {
      assert first + rest == first;
    } else {
      RunsAppend(s, first, rest[..|rest| - 1]);
      assert (first + rest)[..|first + rest| - 1] == first + rest[..|rest| - 1];
    }
  }

  lemma TwoActions(s: State, a: Action, b: Action)
    ensures Run(s, [a, b]) == Do(Do(s, a), b)
  {
    assert [a, b][..1] == [a] && [a][..0] == [];
    assert Run(s, [a]) == Do(s, a);
  }

  /** A request that gets as far as its reservation, and on to its invoice, saving nothing to the cache. */
  function Reserving(h: nat, key: string, rid: string): seq<Action> {
    [Arrive(h, key), Advance(h, "", true)] + [Advance(h, rid, true), Advance(h, "", false)]
  }

  function Invoicing(h: nat, iid: string): seq<Action> {
    [Advance(h, "", false), Advance(h, iid, true)]
  }

  lemma Arrives(s: State, h: nat, key: string)
    requires h !in s.handlers && key !in s.cache
    ensures Run(s, [Arrive(h, key), Advance(h, "", true)]) == s.(handlers := s.handlers[h := AtReserve(key)])
  {
    TwoActions(s, Arrive(h, key), Advance(h, "", true));
    assert s.handlers[h := AtCheck(key)][h := AtReserve(key)] == s.handlers[h := AtReserve(key)];
  }

  lemma Inserts(s: State, h: nat, key: string, rid: string)
    requires h in s.handlers && s.handlers[h] == AtReserve(key)
    requires rid !in s.rows && forall r | r in s.rows :: s.rows[r].key != key
    ensures Run(s, [Advance(h, rid, true), Advance(h, "", false)]) ==
            s.(rows := s.rows[rid := Reserved(key)], handlers := s.handlers[h := AtInvoiceSelect(key, rid)])
  {
    TwoActions(s, Advance(h, rid, true), Advance(h, "", false));
    assert s.handlers[h := AtSave(key, rid)][h := AtInvoiceSelect(key, rid)] ==
           s.handlers[h := AtInvoiceSelect(key, rid)];
  }

  lemma Reserves(s: State, h: nat, key: string, rid: string)
    requires h !in s.handlers && key !in s.cache && rid !in s.rows && forall r | r in s.rows :: s.rows[r].key != key
    ensures Run(s, Reserving(h, key, rid)) ==
            s.(rows := s.rows[rid := Reserved(key)], handlers := s.handlers[h := AtInvoiceSelect(key, rid)])
  {
    Arrives(s, h, key);
    var t := s.(handlers := s.handlers[h := AtReserve(key)]);
    Inserts(t, h, key, rid);
    RunsAppend(s, [Arrive(h, key), Advance(h, "", true)], [Advance(h, rid, true), Advance(h, "", false)]);
    assert t.handlers[h := AtInvoiceSelect(key, rid)] == s.handlers[h := AtInvoiceSelect(key, rid)];
  }

  lemma Invoices(s: State, h: nat, key: string, rid: string, iid: string)
    requires h in s.handlers && s.handlers[h] == AtInvoiceSelect(key, rid)
    requires rid in s.rows && iid !in s.invoices && InvoiceKeyFree(s, Gateway.InvoiceKey(key))
    ensures Run(s, Invoicing(h, iid)) ==
            s.(invoices := s.invoices[iid := Invoiced(rid, Gateway.InvoiceKey(key), 5_000)],
               handlers := s.handlers[h := AtPayCheck(key, rid, iid)])
  {
    TwoActions(s, Advance(h, "", false), Advance(h, iid, true));
    assert s.handlers[h := AtInvoiceInsert(key, rid)][h := AtPayCheck(key, rid, iid)] ==
           s.handlers[h := AtPayCheck(key, rid, iid)];
  }

  const OTHERS: Charged := Charged("ix", Gateway.PayKey("k"), 5_000)

  /** One driver books, and pays the invoice through CreatePayment under the payment key of another client's key. */
  const BORROWED: seq<Action> :=
    Reserving(0, "x", "rx") + Invoicing(0, "ix") + [OtherCharge("t", OTHERS), OtherCache(Gateway.PayKey("k"))]

  const INVOICE_X: Invoiced := Invoiced("rx", Gateway.InvoiceKey("x"), 5_000)

  lemma Borrowed()
    ensures Run(START, BORROWED) ==
            State(map["rx" := Reserved("x")], map["ix" := INVOICE_X], map["t" := OTHERS], {Gateway.PayKey("k")},
                  map[0 := AtPayCheck("x", "rx", "ix")])
  {
    Reserves(START, 0, "x", "rx");
    var a := Run(START, Reserving(0, "x", "rx"));
    Invoices(a, 0, "x", "rx", "ix");
    RunsAppend(START, Reserving(0, "x", "rx"), Invoicing(0, "ix"));
    var b := Run(a, Invoicing(0, "ix"));
    TwoActions(b, OtherCharge("t", OTHERS), OtherCache(Gateway.PayKey("k")));
    RunsAppend(START, Reserving(0, "x", "rx") + Invoicing(0, "ix"),
               [OtherCharge("t", OTHERS), OtherCache(Gateway.PayKey("k"))]);
  }

  /** A request with that other client key then gets as far as its payment. */
  const BILLED: seq<Action> := BORROWED + Reserving(1, "k", "rk") + Invoicing(1, "ik")

  lemma Billed()
    ensures var s := Run(START, BILLED);
            && s.txs == map["t" := OTHERS] && s.cache == {Gateway.PayKey("k")}
            && 1 in s.handlers && s.handlers[1] == AtPayCheck("k", "rk", "ik")
            && "ix" in s.invoices && s.invoices["ix"] == INVOICE_X
  {
    Borrowed();
    var b := Run(START, BORROWED);
    assert |Gateway.PayKey("k")| != |"k"|;
    Reserves(b, 1, "k", "rk");
    RunsAppend(START, BORROWED, Reserving(1, "k", "rk"));
    var c := Run(START, BORROWED + Reserving(1, "k", "rk"));
    assert Gateway.InvoiceKey("x")[8] != Gateway.InvoiceKey("k")[8];
    Invoices(c, 1, "k", "rk", "ik");
    RunsAppend(START, BORROWED + Reserving(1, "k", "rk"), Invoicing(1, "ik"));
  }

  const ANSWERED: seq<Action> := BILLED + [Advance(1, "", true), Advance(1, "t", true)]

  /** It is answered with the payment of the other driver's invoice. */
  lemma BorrowedPayKeyBreaksLink()
    ensures var s := Run(START, ANSWERED);
            && 1 in s.handlers && s.handlers[1] == Answered("k", "rk", "ik", "t")
            && s.txs == map["t" := Charged("ix", Gateway.PayKey("k"), 5_000)]
            && !Linked(s)
  {
    Billed();
    var b := Run(START, BILLED);
    TwoActions(b, Advance(1, "", true), Advance(1, "t", true));
    RunsAppend(START, BILLED, [Advance(1, "", true), Advance(1, "t", true)]);
    var s := Run(START, ANSWERED);
    assert Gateway.InvoiceKey("x")[8] != Gateway.InvoiceKey("k")[8];
    assert TxWithKey(s, "t", Gateway.PayKey("k")) && !ChargeLinked(s, "t", "k");
  }
}
