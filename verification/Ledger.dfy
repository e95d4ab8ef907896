/** One event applied to the books: the effect row and the aggregate it folds into, or nothing. */
module Ledger {
  import opened Wrappers
  import opened Model
  import opened Store

  datatype Posting = Posted(books: Books) | NoopDuplicate | Waits | Raised(rejection: Rejection)

  function StateBefore(b: Books, e: Event): Option<PaymentState> {
    if e.paymentId in b.payments then Some(b.payments[e.paymentId].state)
    else if e.amount.None? then None
    else Some(Fresh(e.paymentId, e.amount.value.currency))
  }

  /** What applying e on behalf of a delivery does to the books. The effect row goes in before the
      fold, so a repeat is decided by the unique index and never by the state machine. */
  function Post(b: Books, known: bool, deliveryId: string, e: Event): Posting {
    match StateBefore(b, e)
    case None => Waits
    case Some(state) =>
      if !known || HasKey(b.effects, KeyOf(e)) then NoopDuplicate
      else
        match ApplyEffect(state, e)
        case Premature => Waits
        case Refused(reason) => Raised(reason)
        case Folded(updated) =>
          var row := Upserted(Find(b.payments, e.paymentId), updated, e.occurredAt);
          Posted(Books(b.effects + [Effect(deliveryId, e)], b.payments[e.paymentId := row]))
  }

  function BooksAfter(b: Books, p: Posting): Books {
    if p.Posted? then p.books else b
  }

  datatype Outcome = AppliedOutcome | DuplicateOutcome | ParkedOutcome | RaisedOutcome(rejection: Rejection)

  function OutcomeOf(p: Posting): Outcome {
    match p
    case Posted(_) => AppliedOutcome
    case NoopDuplicate => DuplicateOutcome
    case Waits => ParkedOutcome
    case Raised(r) => RaisedOutcome(r)
  }

  lemma IdentityKept(s: PaymentState, e: Event)
    requires ApplyEffect(s, e).Folded?
    ensures ApplyEffect(s, e).state.paymentId == s.paymentId && ApplyEffect(s, e).state.currency == s.currency
  {
  }

  /** Posting inside a transaction the caller has open. The row is written first and the fold comes
      second; whichever of the two turns the event away, the savepoint takes the row out again. */
  method ApplyDelivery(conn: Connection, deliveryId: string, e: Event) returns (outcome: Outcome)
    requires conn.marked == None && RowsKeyed(conn.tables.books)
    modifies conn`tables, conn`marked
    ensures conn.marked == None && RowsKeyed(conn.tables.books)
    ensures
      var p := Post(old(conn.tables).books, deliveryId in old(conn.tables).deliveries, deliveryId, e);
      outcome == OutcomeOf(p)
      && conn.tables == old(conn.tables).(books := BooksAfter(old(conn.tables).books, p))
  {
    var before := StateBefore(conn.tables.books, e);
    if before.None? {
      return ParkedOutcome;
    }
    conn.Savepoint();
    var inserted := conn.InsertEffect(Effect(deliveryId, e));
    var verdict := ApplyEffect(before.value, e);
    if verdict.Folded? {
      IdentityKept(before.value, e);
    }
    if !inserted || !verdict.Folded? {
      conn.RollbackToSavepoint();
      conn.ReleaseSavepoint();
      return if !inserted then DuplicateOutcome
             else if verdict.Premature? then ParkedOutcome
             else RaisedOutcome(verdict.reason);
    }
    conn.ReleaseSavepoint();
    conn.UpsertPayment(verdict.state, e.occurredAt);
    return AppliedOutcome;
  }

  // ---------------------------------------------------------- the books invariant

  /** The events folded into one payment, in insertion order. */
  function Own(effects: seq<Effect>, paymentId: string): seq<Event> {
    if effects == [] then []
    else
      var last := effects[|effects| - 1].event;
      Own(effects[..|effects| - 1], paymentId) + (if last.paymentId == paymentId then [last] else [])
  }

  /** The left fold that accepts every event or has no value. */
  function StrictFold(s: PaymentState, events: seq<Event>): Option<PaymentState>
    decreases |events|
  {
    if events == [] then Some(s)
    else
      match StrictFold(s, events[..|events| - 1])
      case None => None
      case Some(before) =>
        match ApplyEffect(before, events[|events| - 1])
        case Folded(after) => Some(after)
        case _ => None
  }

  function Latest(events: seq<Event>): Time
    requires events != []
  {
    if |events| == 1 then events[0].occurredAt
    else MaxReal(Latest(events[..|events| - 1]), events[|events| - 1].occurredAt)
  }

  function NewestSequence(events: seq<Event>): int {
    if events == [] then -1 else Max(NewestSequence(events[..|events| - 1]), events[|events| - 1].sequence)
  }

  /** The payment row a list of its events amounts to. */
  function RowOf(paymentId: string, events: seq<Event>): Option<PaymentRow> {
    if events == [] || events[0].amount.None? then None
    else
      match StrictFold(Fresh(paymentId, events[0].amount.value.currency), events)
      case None => None
      case Some(state) => Some(PaymentRow(state, Latest(events)))
  }

  ghost predicate KeysUnique(effects: seq<Effect>) {
    forall i, j :: 0 <= i < j < |effects| ==> KeyOf(effects[i].event) != KeyOf(effects[j].event)
  }

  /** The payments table is exactly an index over the effects table. */
  ghost predicate Indexed(b: Books) {
    forall p: string :: Find(b.payments, p) == RowOf(p, Own(b.effects, p)) && (Own(b.effects, p) != [] ==> p in b.payments)
  }

  ghost predicate BooksSound(b: Books) {
    KeysUnique(b.effects) && Indexed(b)
  }

  lemma {:induction false} OwnSnoc(effects: seq<Effect>, x: Effect, paymentId: string)
    ensures Own(effects + [x], paymentId) ==
            Own(effects, paymentId) + (if x.event.paymentId == paymentId then [x.event] else [])
  {
    assert (effects + [x])[..|effects|] == effects;
  }

  lemma RowSnoc(paymentId: string, events: seq<Event>, e: Event, updated: PaymentState)
    requires events == [] ==> e.amount.Some? && ApplyEffect(Fresh(paymentId, e.amount.value.currency), e) == Folded(updated)
    requires events != [] ==> RowOf(paymentId, events).Some? && ApplyEffect(RowOf(paymentId, events).value.state, e) == Folded(updated)
    ensures RowOf(paymentId, events + [e]) == Some(Upserted(RowOf(paymentId, events), updated, e.occurredAt))
  {
    assert (events + [e])[..|events|] == events;
    if events != [] {
      assert (events + [e])[0] == events[0];
    } else {
      assert StrictFold(Fresh(paymentId, e.amount.value.currency), []) == Some(Fresh(paymentId, e.amount.value.currency));
    }
  }

  /** Posting keeps the payments table an index of the effects table, with unique keys. */
  lemma PostKeepsBooks(b: Books, known: bool, deliveryId: string, e: Event)
    requires BooksSound(b)
    ensures BooksSound(BooksAfter(b, Post(b, known, deliveryId, e)))
  {
    var posting := Post(b, known, deliveryId, e);
    if posting.Posted? {
      var x := Effect(deliveryId, e);
      forall i, j | 0 <= i < j < |b.effects| + 1
        ensures KeyOf((b.effects + [x])[i].event) != KeyOf((b.effects + [x])[j].event)
      {
        if j == |b.effects| {
          assert b.effects[i] in b.effects;
        }
      }
      forall p: string
        ensures Find(posting.books.payments, p) == RowOf(p, Own(posting.books.effects, p))
        ensures Own(posting.books.effects, p) != [] ==> p in posting.books.payments
      {
        OwnSnoc(b.effects, x, p);
        if p == e.paymentId {
          RowSnoc(p, Own(b.effects, p), e, ApplyEffect(StateBefore(b, e).value, e).state);
        } else {
          assert Own(posting.books.effects, p) == Own(b.effects, p);
        }
      }
    }
  }
}
