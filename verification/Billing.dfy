/** Invoices: generating them behind the idempotency cache and marking them paid. */
module Billing {
  import opened Clock
  import opened Wrappers
  import Idempotency
  import Pricing
  import Redis

  datatype Kind = BookingFee | ParkingSession

  datatype InvoiceStatus = PendingPayment | Paid

  datatype Invoice = Invoice(kind: Kind, session: Option<string>, reservationId: string, driver: string,
                             bookingFee: int, parkingFee: int, overnightFee: int, totalAmount: int,
                             billedHours: int, isOvernight: bool, durationMins: int,
                             status: InvoiceStatus, gatewayTxId: Option<string>, payMethod: Option<string>,
                             key: string, paidAt: Option<Time>)

  type Invoices = map<string, Invoice>

  datatype Folder = Folder(invoices: Invoices, redis: Redis.Keyspace)

  datatype Issued = Issued(id: string, invoice: Invoice)

  datatype Outcome<+T> = Outcome(folder: Folder, result: Result<T>)

  ghost predicate KeysUnique(invoices: Invoices) {
    forall i, j | i in invoices && j in invoices && invoices[i].key == invoices[j].key :: i == j
  }

  predicate CanInsert(invoices: Invoices, id: string, invoice: Invoice) {
    id !in invoices && forall i | i in invoices :: invoices[i].key != invoice.key
  }

  ghost function ByKey(invoices: Invoices, key: string): Result<Issued> {
    if id :| id in invoices && invoices[id].key == key then Ok(Issued(id, invoices[id])) else Err(NotFound)
  }

  function SetPaid(invoices: Invoices, id: string, gatewayTxId: string, payMethod: string, at: Time): Invoices {
    if id in invoices
    then invoices[id := invoices[id].(status := Paid, gatewayTxId := Some(gatewayTxId), payMethod := Some(payMethod),
                                      paidAt := Some(at))]
    else invoices
  }

  /** The UPDATE that settles every booking-fee invoice of a reservation. */
  function SetBookingPaid(invoices: Invoices, reservationId: string, at: Time): Invoices {
    map id | id in invoices ::
      if invoices[id].reservationId == reservationId && invoices[id].kind == BookingFee
      then invoices[id].(status := Paid, paidAt := Some(at)) else invoices[id]
  }

  function BookingInvoice(reservationId: string, driver: string, key: string): Invoice {
    Invoice(BookingFee, None, reservationId, driver, 5_000, 0, 0, 5_000, 0, false, 0,
            PendingPayment, None, None, key, None)
  }

  datatype InvoiceRequest = InvoiceRequest(session: string, reservationId: string, driver: string, key: string,
                                           checkIn: Time, checkOut: Time, id: string)

  datatype InvoiceIo = InvoiceIo(checkAt: Time, saveAt: Time, checkUp: bool, readUp: bool, insertUp: bool, saveUp: bool)

  function NewInvoice(q: InvoiceRequest): Invoice {
    var bill := Pricing.Calculate(q.checkIn, q.checkOut);
    Invoice(ParkingSession, if q.session == "" then None else Some(q.session), q.reservationId, q.driver,
            bill.bookingFee, bill.parkingFee, bill.overnightFee, bill.totalAmount, bill.billedHours, bill.isOvernight,
            Pricing.WholeMinutes(q.checkOut - q.checkIn), PendingPayment, None, None, q.key, None)
  }

  /** The reservations that exist bound the INSERT by its foreign key. */
  ghost function Generate(f: Folder, reservations: set<string>, q: InvoiceRequest, io: InvoiceIo): Outcome<Issued> {
    if !io.checkUp then Outcome(f, Err(StoreDown))
    else if Redis.Live(f.redis, Idempotency.CacheKey(q.key), io.checkAt) then
      Outcome(f, if io.readUp then ByKey(f.invoices, q.key) else Err(StoreDown))
    else
      var invoice := NewInvoice(q);
      if !io.insertUp || q.reservationId !in reservations || !CanInsert(f.invoices, q.id, invoice) then
        Outcome(f, Err(InsertFailed))
      else
        var saved := if io.saveUp
                     then Redis.Put(f.redis, Idempotency.CacheKey(q.key), q.id, DEFAULT_TTL, io.saveAt) else f.redis;
        Outcome(Folder(f.invoices[q.id := invoice], saved), Ok(Issued(q.id, invoice)))
  }

  /** The invoices table. */
  class Repository {
    var invoices: Invoices

    ghost predicate Valid()
      reads this
    {
      KeysUnique(invoices)
    }

    constructor ()
      ensures Valid() && invoices == map[]
    {
      invoices := map[];
    }

    method InsertInvoice(id: string, invoice: Invoice, reservations: set<string>, up: bool) returns (ok: bool)
      requires Valid()
      modifies this
      ensures Valid()
      ensures ok == (up && invoice.reservationId in reservations && CanInsert(old(invoices), id, invoice))
      ensures invoices == if ok then old(invoices)[id := invoice] else old(invoices)
    {
      if !up || invoice.reservationId !in reservations || id in invoices
         || exists i :: i in invoices && invoices[i].key == invoice.key {
        return false;
      }
      invoices := invoices[id := invoice];
      return true;
    }

    method GetByIdempotencyKey(key: string, up: bool) returns (r: Result<Issued>)
      requires Valid()
      ensures r == if up then ByKey(invoices, key) else Err(StoreDown)
    {
      if !up {
        return Err(StoreDown);
      }
      if id :| id in invoices && invoices[id].key == key {
        return Ok(Issued(id, invoices[id]));
      }
      return Err(NotFound);
    }

    method MarkPaid(id: string, gatewayTxId: string, payMethod: string, paidAt: Time, up: bool) returns (ok: bool)
      requires Valid()
      modifies this
      ensures Valid() && ok == up
      ensures invoices == if up then SetPaid(old(invoices), id, gatewayTxId, payMethod, paidAt) else old(invoices)
    {
      if up && id in invoices {
        invoices := invoices[id := invoices[id].(status := Paid, gatewayTxId := Some(gatewayTxId),
                                                 payMethod := Some(payMethod), paidAt := Some(paidAt))];
      }
      return up;
    }
  }

  class Usecase {
    const repo: Repository
    const idempotency: Idempotency.Store

    constructor (repo: Repository, idempotency: Idempotency.Store)
      ensures this.repo == repo && this.idempotency == idempotency
    {
      this.repo := repo;
      this.idempotency := idempotency;
    }

    ghost function View(): Folder
      reads repo, idempotency.rdb
    {
      Folder(repo.invoices, idempotency.rdb.keys)
    }

    method GenerateInvoice(q: InvoiceRequest, reservations: set<string>, io: InvoiceIo) returns (r: Result<Issued>)
      requires repo.Valid()
      modifies repo, idempotency.rdb
      ensures repo.Valid()
      ensures Outcome(View(), r) == Generate(old(View()), reservations, q, io)
    {
      var hit := idempotency.Check(Idempotency.CacheKey(q.key), io.checkAt, io.checkUp);
      if hit.Err? {
        return Err(hit.error);
      }
      if hit.value.Some? {
        r := repo.GetByIdempotencyKey(q.key, io.readUp);
        return;
      }

      var bill := Pricing.Calculate(q.checkIn, q.checkOut);
      var session := if q.session == "" then None else Some(q.session);
      var invoice := Invoice(ParkingSession, session, q.reservationId, q.driver,
                             bill.bookingFee, bill.parkingFee, bill.overnightFee, bill.totalAmount,
                             bill.billedHours, bill.isOvernight, Pricing.WholeMinutes(q.checkOut - q.checkIn),
                             PendingPayment, None, None, q.key, None);
      var inserted := repo.InsertInvoice(q.id, invoice, reservations, io.insertUp);
      if !inserted {
        return Err(InsertFailed);
      }
      var _ := idempotency.Save(Idempotency.CacheKey(q.key), q.id, DEFAULT_TTL, io.saveAt, io.saveUp);
      return Ok(Issued(q.id, invoice));
    }
  }
}
