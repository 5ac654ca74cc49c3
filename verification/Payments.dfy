/** Payment transactions: creating them behind the idempotency cache, and applying the provider's notifications. */
module Payments {
  import opened Clock
  import opened Wrappers
  import Idempotency
  import Redis

  datatype TxStatus = TxPending | Settled | Failed | TxExpired | Refunded

  datatype Transaction = Transaction(invoiceId: string, driver: string, orderId: string, payMethod: string,
                                     status: TxStatus, amount: int, key: string, paidAt: Option<Time>)

  type Ledger = map<string, Transaction>

  /** Everything the payment operations read and write. */
  datatype Till = Till(txs: Ledger, redis: Redis.Keyspace)

  datatype Outcome<+T> = Outcome(till: Till, result: Result<T>)

  datatype Payment = Payment(id: string, tx: Transaction)

  /** The UNIQUE constraints on idempotency_key and gateway_tx_id. */
  ghost predicate Unique(txs: Ledger) {
    && (forall i, j | i in txs && j in txs && txs[i].key == txs[j].key :: i == j)
    && (forall i, j | i in txs && j in txs && txs[i].orderId == txs[j].orderId :: i == j)
  }

  predicate CanInsert(txs: Ledger, id: string, tx: Transaction) {
    id !in txs && forall i | i in txs :: txs[i].key != tx.key && txs[i].orderId != tx.orderId
  }

  ghost function ByKey(txs: Ledger, key: string): Result<Payment> {
    if id :| id in txs && txs[id].key == key then Ok(Payment(id, txs[id])) else Err(NotFound)
  }

  ghost function ByOrder(txs: Ledger, orderId: string): Result<Payment> {
    if id :| id in txs && txs[id].orderId == orderId then Ok(Payment(id, txs[id])) else Err(NotFound)
  }

  function SetStatus(txs: Ledger, id: string, status: TxStatus, paidAt: Option<Time>): Ledger {
    if id in txs then txs[id := txs[id].(status := status, paidAt := paidAt)] else txs
  }

  /** The provider's order number: eight characters of the transaction's uuid. */
  function OrderId(id: string): string {
    "PP-" + if |id| < 8 then id else id[..8]
  }

  predicate Supported(payMethod: string) {
    payMethod in {"QRIS", "GOPAY", "OVO", "DANA", "VA_BCA", "VA_BNI", "VA_BRI", "VA_MANDIRI"}
  }

  datatype TxRequest = TxRequest(invoiceId: string, driver: string, key: string, payMethod: string, amount: int,
                                 id: string)

  datatype TxIo = TxIo(checkAt: Time, saveAt: Time, checkUp: bool, readUp: bool, providerUp: bool, insertUp: bool,
                       saveUp: bool)

  function NewTransaction(q: TxRequest): Transaction {
    Transaction(q.invoiceId, q.driver, OrderId(q.id), q.payMethod, TxPending, q.amount, q.key, None)
  }

  /** The invoices that exist bound the INSERT by its foreign key. */
  ghost function CreateTx(t: Till, invoices: set<string>, q: TxRequest, io: TxIo): Outcome<Payment> {
    if !io.checkUp then Outcome(t, Err(StoreDown))
    else if Redis.Live(t.redis, Idempotency.CacheKey(q.key), io.checkAt) then
      Outcome(t, if io.readUp then ByKey(t.txs, q.key) else Err(StoreDown))
    else if !Supported(q.payMethod) then Outcome(t, Err(UnsupportedMethod))
    else if !io.providerUp then Outcome(t, Err(StoreDown))
    else
      var tx := NewTransaction(q);
      if !io.insertUp || q.invoiceId !in invoices || !CanInsert(t.txs, q.id, tx) then Outcome(t, Err(InsertFailed))
      else
        var saved := if io.saveUp
                     then Redis.Put(t.redis, Idempotency.CacheKey(q.key), q.id, DEFAULT_TTL, io.saveAt) else t.redis;
        Outcome(Till(t.txs[q.id := tx], saved), Ok(Payment(q.id, tx)))
  }

  function MapStatus(status: string, fraud: string): TxStatus {
    if status == "capture" then (if fraud == "accept" then Settled else Failed)
    else if status == "settlement" then Settled
    else if status in {"deny", "cancel", "failure"} then Failed
    else if status == "expire" then TxExpired
    else if status == "refund" then Refunded
    else TxPending
  }

  /** One notification: the order it names, the provider's status words, and when it is processed. */
  datatype Delivery = Delivery(orderId: string, status: string, fraud: string, at: Time)

  datatype WebhookIo = WebhookIo(signed: bool, checkUp: bool, getUp: bool, updateUp: bool, saveUp: bool)

  datatype Answer = Answer(isDuplicate: bool, tx: Option<string>, status: Option<TxStatus>)

  ghost function Notify(t: Till, d: Delivery, io: WebhookIo): Outcome<Answer> {
    var key := Idempotency.WebhookKey(d.orderId, d.status);
    var found := if io.getUp then ByOrder(t.txs, d.orderId) else Err(StoreDown);
    if !io.signed then Outcome(t, Err(InvalidSignature))
    else if !io.checkUp then Outcome(t, Err(StoreDown))
    else if Redis.Live(t.redis, key, d.at) then
      Outcome(t, Ok(if found.Ok? then Answer(true, Some(found.value.id), Some(found.value.tx.status))
                    else Answer(true, None, None)))
    else if found.Err? then Outcome(t, Err(found.error))
    else if !io.updateUp then Outcome(t, Err(StoreDown))
    else
      var id := found.value.id;
      var status := MapStatus(d.status, d.fraud);
      var txs := SetStatus(t.txs, id, status, if status == Settled then Some(d.at) else None);
      var saved := if io.saveUp then Redis.Put(t.redis, key, id, DEFAULT_TTL, d.at) else t.redis;
      Outcome(Till(txs, saved), Ok(Answer(false, Some(id), Some(status))))
  }

  /** The transactions table. */
  class Repository {
    var txs: Ledger

    ghost predicate Valid()
      reads this
    {
      Unique(txs)
    }

    constructor ()
      ensures Valid() && txs == map[]
    {
      txs := map[];
    }

    method InsertTransaction(id: string, tx: Transaction, invoices: set<string>, up: bool) returns (ok: bool)
      requires Valid()
      modifies this
      ensures Valid()
      ensures ok == (up && tx.invoiceId in invoices && CanInsert(old(txs), id, tx))
      ensures txs == if ok then old(txs)[id := tx] else old(txs)
    {
      if !up || tx.invoiceId !in invoices || id in txs
         || exists i :: i in txs && (txs[i].key == tx.key || txs[i].orderId == tx.orderId) {
        return false;
      }
      txs := txs[id := tx];
      return true;
    }

    method GetByIdempotencyKey(key: string, up: bool) returns (r: Result<Payment>)
      requires Valid()
      ensures r == if up then ByKey(txs, key) else Err(StoreDown)
    {
      if !up {
        return Err(StoreDown);
      }
      if id :| id in txs && txs[id].key == key {
        return Ok(Payment(id, txs[id]));
      }
      return Err(NotFound);
    }

    method GetByGatewayTxID(orderId: string, up: bool) returns (r: Result<Payment>)
      requires Valid()
      ensures r == if up then ByOrder(txs, orderId) else Err(StoreDown)
    {
      if !up {
        return Err(StoreDown);
      }
      if id :| id in txs && txs[id].orderId == orderId {
        return Ok(Payment(id, txs[id]));
      }
      return Err(NotFound);
    }

    method UpdateStatus(id: string, status: TxStatus, paidAt: Option<Time>, up: bool) returns (ok: bool)
      requires Valid()
      modifies this
      ensures Valid() && ok == up
      ensures txs == if up then SetStatus(old(txs), id, status, paidAt) else old(txs)
    {
      if up && id in txs {
        txs := txs[id := txs[id].(status := status, paidAt := paidAt)];
      }
      return up;
    }
  }

  class Usecase {
    const repo: Repository
    const idempotency: Idempotency.Store

    constructor (repo: Repository, idempotency: Idempotency.Store)
      ensures this.repo == repo && this.idempotency == idempotency
    {
      this.repo := repo;
      this.idempotency := idempotency;
    }

    ghost function View(): Till
      reads repo, idempotency.rdb
    {
      Till(repo.txs, idempotency.rdb.keys)
    }

    method CreateTransaction(q: TxRequest, invoices: set<string>, io: TxIo) returns (r: Result<Payment>)
      requires repo.Valid()
      modifies repo, idempotency.rdb
      ensures repo.Valid()
      ensures Outcome(View(), r) == CreateTx(old(View()), invoices, q, io)
    {
      var hit := idempotency.Check(Idempotency.CacheKey(q.key), io.checkAt, io.checkUp);
      if hit.Err? {
        return Err(hit.error);
      }
      if hit.value.Some? {
        r := repo.GetByIdempotencyKey(q.key, io.readUp);
        return;
      }

      if !Supported(q.payMethod) {
        return Err(UnsupportedMethod);
      }
      if !io.providerUp {
        return Err(StoreDown);
      }

      var tx := NewTransaction(q);
      var inserted := repo.InsertTransaction(q.id, tx, invoices, io.insertUp);
      if !inserted {
        return Err(InsertFailed);
      }
      var _ := idempotency.Save(Idempotency.CacheKey(q.key), q.id, DEFAULT_TTL, io.saveAt, io.saveUp);
      return Ok(Payment(q.id, tx));
    }

    method HandleWebhook(d: Delivery, io: WebhookIo) returns (r: Result<Answer>)
      requires repo.Valid()
      modifies repo, idempotency.rdb
      ensures repo.Valid()
      ensures Outcome(View(), r) == Notify(old(View()), d, io)
    {
      if !io.signed {
        return Err(Error.InvalidSignature);
      }
      var key := Idempotency.WebhookKey(d.orderId, d.status);
      var hit := idempotency.Check(key, d.at, io.checkUp);
      if hit.Err? {
        return Err(hit.error);
      }
      var found := repo.GetByGatewayTxID(d.orderId, io.getUp);
      if hit.value.Some? {
        if found.Ok? {
          return Ok(Answer(true, Some(found.value.id), Some(found.value.tx.status)));
        }
        return Ok(Answer(true, None, None));
      }
      if found.Err? {
        return Err(found.error);
      }

      var status := MapStatus(d.status, d.fraud);
      var paidAt := None;
      if status == Settled {
        paidAt := Some(d.at);
      }
      var updated := repo.UpdateStatus(found.value.id, status, paidAt, io.updateUp);
      if !updated {
        return Err(StoreDown);
      }
      var _ := idempotency.Save(key, found.value.id, DEFAULT_TTL, d.at, io.saveUp);
      return Ok(Answer(false, Some(found.value.id), Some(status)));
    }
  }
}
