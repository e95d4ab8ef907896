/** The tables, the constraints the ledger rests on, and the one write transaction. */
module Store {
  import opened Wrappers
  import opened Model
  import opened Dlq

  type Bytes = seq<bv8>

  datatype Provider = Stripe | Adyen

  datatype DeliveryState = Claimed | Applied | Duplicate | Parked | DeadLettered

  /** One row of the inbox. Attempts start at zero and are only ever raised, so they are a natural
      number. */
  datatype Delivery = Delivery(
    provider: Provider, raw: Bytes, receivedAt: Time, state: DeliveryState, attempts: nat,
    nextAttemptAt: Option<Time>, leaseExpiresAt: Option<Time>, parkedUntil: Option<Time>,
    reasonCode: Option<Code>)

  /** One row of the append-only effects table. */
  datatype Effect = Effect(deliveryId: string, event: Event)

  datatype PaymentRow = PaymentRow(state: PaymentState, updatedAt: Time)

  /** The money tables: effects in insertion order, and the payments they index. */
  datatype Books = Books(effects: seq<Effect>, payments: map<string, PaymentRow>)

  datatype Counter = AppliedCount | DedupedCount | ParkedCount | DeadLetteredCount | BudgetMinute | BudgetUsed

  datatype Tables = Tables(deliveries: map<string, Delivery>, books: Books, counters: map<Counter, int>)

  /** The columns of the unique index on effects. */
  datatype Key = Key(paymentId: string, kind: Kind, providerRef: string)

  function KeyOf(e: Event): Key {
    Key(e.paymentId, e.kind, e.providerRef)
  }

  predicate HasKey(effects: seq<Effect>, key: Key) {
    exists x <- effects :: KeyOf(x.event) == key
  }

  function Find<V>(m: map<string, V>, key: string): Option<V> {
    if key in m then Some(m[key]) else None
  }

  /** The primary key of a payment row is its own payment_id column. */
  ghost predicate RowsKeyed(b: Books) {
    forall p <- b.payments :: b.payments[p].state.paymentId == p
  }

  function CountOf(counters: map<Counter, int>, name: Counter): int {
    if name in counters then counters[name] else 0
  }

  function Bumped(counters: map<Counter, int>, name: Counter): map<Counter, int> {
    counters[name := CountOf(counters, name) + 1]
  }

  const EMPTY := Tables(map[], Books([], map[]), map[])

  /** A connection: the tables as this connection sees them, what a rollback restores, and what the
      savepoint restores. */
  class Connection {
    var tables: Tables
    var begun: Option<Tables>
    var marked: Option<Tables>

    constructor ()
      ensures tables == EMPTY && begun == None && marked == None
    {
      tables := EMPTY;
      begun, marked := None, None;
    }

    /** What survives a crash at this moment. */
    function Committed(): Tables
      reads this
    {
      begun.GetOr(tables)
    }

    /** Opening a second transaction is refused rather than flattened into the first. */
    method Begin() returns (ok: bool)
      modifies this`begun
      ensures ok <==> old(begun) == None
      ensures begun == if ok then Some(tables) else old(begun)
      ensures Committed() == old(Committed())
    {
      ok := begun.None?;
      if ok {
        begun := Some(tables);
      }
    }

    method Commit()
      requires begun.Some?
      modifies this`begun
      ensures begun == None && Committed() == tables
    {
      begun := None;
    }

    method Rollback()
      requires begun.Some?
      modifies this`begun, this`tables
      ensures begun == None && tables == old(Committed()) && Committed() == old(Committed())
    {
      tables := begun.value;
      begun := None;
    }

    method Savepoint()
      requires marked == None
      modifies this`marked
      ensures marked == Some(tables)
    {
      marked := Some(tables);
    }

    method RollbackToSavepoint()
      requires marked.Some?
      modifies this`tables
      ensures tables == marked.value
    {
      tables := marked.value;
    }

    method ReleaseSavepoint()
      requires marked.Some?
      modifies this`marked
      ensures marked == None
    {
      marked := None;
    }

    /** Refused when the delivery is unknown (foreign key) or the business key is taken (unique). */
    method InsertEffect(x: Effect) returns (ok: bool)
      modifies this`tables
      ensures ok <==> x.deliveryId in old(tables).deliveries && !HasKey(old(tables).books.effects, KeyOf(x.event))
      ensures tables ==
              if ok then old(tables).(books := old(tables).books.(effects := old(tables).books.effects + [x]))
              else old(tables)
    {
      ok := x.deliveryId in tables.deliveries && !HasKey(tables.books.effects, KeyOf(x.event));
      if ok {
        tables := tables.(books := tables.books.(effects := tables.books.effects + [x]));
      }
    }

    /** Insert the payment, or overwrite every column but the identity, the currency and the provider
        time, which only moves forward. */
    method UpsertPayment(updated: PaymentState, occurredAt: Time)
      modifies this`tables
      ensures tables == old(tables).(books := old(tables).books.(payments := old(tables).books.payments[
                updated.paymentId := Upserted(Find(old(tables).books.payments, updated.paymentId), updated, occurredAt)]))
    {
      var row := Upserted(Find(tables.books.payments, updated.paymentId), updated, occurredAt);
      tables := tables.(books := tables.books.(payments := tables.books.payments[updated.paymentId := row]));
    }

    method InsertDelivery(id: string, d: Delivery) returns (ok: bool)
      modifies this`tables
      ensures ok <==> id !in old(tables).deliveries
      ensures tables == if ok then old(tables).(deliveries := old(tables).deliveries[id := d]) else old(tables)
    {
      ok := id !in tables.deliveries;
      if ok {
        tables := tables.(deliveries := tables.deliveries[id := d]);
      }
    }

    method UpdateDelivery(id: string, d: Delivery)
      requires id in tables.deliveries
      modifies this`tables
      ensures tables == old(tables).(deliveries := old(tables).deliveries[id := d])
    {
      tables := tables.(deliveries := tables.deliveries[id := d]);
    }

    method Bump(name: Counter)
      modifies this`tables
      ensures tables == old(tables).(counters := Bumped(old(tables).counters, name))
    {
      tables := tables.(counters := Bumped(tables.counters, name));
    }

    method SetCounter(name: Counter, value: int)
      modifies this`tables
      ensures tables == old(tables).(counters := old(tables).counters[name := value])
    {
      tables := tables.(counters := tables.counters[name := value]);
    }
  }

  function Upserted(row: Option<PaymentRow>, updated: PaymentState, occurredAt: Time): PaymentRow {
    match row
    case None => PaymentRow(updated, occurredAt)
    case Some(r) => PaymentRow(updated.(currency := r.state.currency), MaxReal(r.updatedAt, occurredAt))
  }
}
