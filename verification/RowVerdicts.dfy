/** How a row of a pass ends, for every row: from its payload, the books it meets and what befalls it. */
module RowVerdicts {
  import opened Wrappers
  import opened Model
  import opened Dlq
  import opened Store
  import opened Ledger
  import opened LedgerTheorems
  import opened Inbox
  import opened Drain

  // ---------------------------------------------------------------------- the posting

  /** Nothing says which currency the payment is in: the ledger does not hold it and the event names none. */
  predicate Nameless(b: Books, e: Event) {
    e.paymentId !in b.payments && e.amount.None?
  }

  /** The aggregate the event meets. */
  function Aggregate(b: Books, e: Event): PaymentState
    requires !Nameless(b, e)
  {
    if e.paymentId in b.payments then b.payments[e.paymentId].state else Fresh(e.paymentId, e.amount.value.currency)
  }

  /** The ledger holds an effect of this kind and reference for the payment. */
  predicate Seen(b: Books, e: Event) {
    exists x <- b.effects ::
      x.event.paymentId == e.paymentId && x.event.kind == e.kind && x.event.providerRef == e.providerRef
  }

  lemma SeenByKey(b: Books, e: Event)
    ensures Seen(b, e) <==> HasKey(b.effects, KeyOf(e))
  {
  }

  predicate WrongCurrency(s: PaymentState, e: Event) {
    NeedsAmount(e.kind) && e.amount.Some? && e.amount.value.currency != s.currency
  }

  lemma AggregateSound(b: Books, e: Event)
    requires BooksSound(b) && !Nameless(b, e)
    ensures Sound(Aggregate(b, e)) && Aggregate(b, e).paymentId == e.paymentId
  {
    hide BooksSound;
    PaymentAccounted(b, e.paymentId);
  }

  /** Exactly what posting answers: a repeat is recognised before anything is decided; of what is new, some is
      folded, some waits, and every refusal is raised with its own reason. */
  lemma PostVerdict(b: Books, id: string, e: Event)
    requires BooksSound(b)
    ensures Nameless(b, e) ==> Post(b, true, id, e) == Waits
    ensures !Nameless(b, e) ==>
      var s, unseen, posting := Aggregate(b, e), !Seen(b, e), Post(b, true, id, e);
      && (posting == NoopDuplicate <==> !unseen)
      && (posting.Posted? <==> unseen && Accepts(s, e))
      && (posting == Waits <==> unseen && Awaits(s, e))
      && (posting == Raised(AmountInvariant) <==> unseen && BreaksAmounts(s, e))
      && (posting == Raised(CurrencyMismatch) <==> unseen && WrongCurrency(s, e))
      && (posting == Raised(IllegalTransition) <==>
            unseen && !Accepts(s, e) && !Awaits(s, e) && !BreaksAmounts(s, e) && !WrongCurrency(s, e))
  {
    SeenByKey(b, e);
    hide ApplyEffect, BooksSound, HasKey, Seen, Accepts, Awaits, BreaksAmounts, Sound;
    if !Nameless(b, e) {
      AggregateSound(b, e);
      VerdictTable(Aggregate(b, e), e);
      var verdict := ApplyEffect(Aggregate(b, e), e);
      if verdict.Refused? {
        match verdict.reason
        case IllegalTransition =>
        case AmountInvariant =>
        case CurrencyMismatch =>
      }
    }
  }

  /** A delivery the store does not hold books nothing: its event is answered as a repeat, or waits if it has no
      payment to go to. */
  lemma UnknownDelivery(b: Books, id: string, e: Event)
    ensures Post(b, false, id, e) == if Nameless(b, e) then Waits else NoopDuplicate
  {
  }

  // --------------------------------------------------------------------------- the row

  /** A readable row without a fault: how it ends, and with which reason code if it is dead lettered. */
  lemma RowVerdict(cfg: Config, t: Tables, now: Time, budgetUsed: int, row: Snapshot, delay: Time, e: Event)
    requires BooksSound(t.books) && row.id in t.deliveries && cfg.decode(row.provider, row.raw) == Readable(e)
    ensures row.id in DrainRow(cfg, t, now, budgetUsed, row, None, delay).tables.deliveries
    ensures Nameless(t.books, e) ==>
              DrainRow(cfg, t, now, budgetUsed, row, None, delay).tables.deliveries[row.id].state == Parked
    ensures !Nameless(t.books, e) ==>
      var s, unseen := Aggregate(t.books, e), !Seen(t.books, e);
      var d := DrainRow(cfg, t, now, budgetUsed, row, None, delay).tables.deliveries[row.id];
      && (d.state == Duplicate <==> !unseen)
      && (d.state == Applied <==> unseen && Accepts(s, e))
      && (d.state == Parked <==> unseen && Awaits(s, e))
      && (d.state == DeadLettered <==> unseen && !Accepts(s, e) && !Awaits(s, e))
      && (d.state == DeadLettered ==>
            && (d.reasonCode == Some(AmountInvariantCode) <==> BreaksAmounts(s, e))
            && (d.reasonCode == Some(CurrencyMismatchCode) <==> WrongCurrency(s, e))
            && (d.reasonCode == Some(IllegalTransitionCode) <==> !BreaksAmounts(s, e) && !WrongCurrency(s, e)))
  {
    hide ApplyEffect, BooksSound, Seen, Accepts, Awaits, BreaksAmounts, Sound, WrongCurrency, Post;
    PostVerdict(t.books, row.id, e);
  }

  /** What is left standing on such a row: a settled one waits for nothing, a parked one for one base delay,
      and one dead lettered has used an attempt and left the books alone. */
  lemma RowLeft(cfg: Config, t: Tables, now: Time, budgetUsed: int, row: Snapshot, delay: Time, e: Event)
    requires row.id in t.deliveries && cfg.decode(row.provider, row.raw) == Readable(e)
    ensures
      var r, d := DrainRow(cfg, t, now, budgetUsed, row, None, delay), t.deliveries[row.id];
      && row.id in r.tables.deliveries && r.tables.deliveries == t.deliveries[row.id := r.tables.deliveries[row.id]]
      && r.budgetUsed == budgetUsed
      && var after := r.tables.deliveries[row.id];
         && after.leaseExpiresAt == None && after.state != Claimed
         && (after.state in {Applied, Duplicate, DeadLettered} ==> after.nextAttemptAt == None)
         && (after.state == Parked ==> after.nextAttemptAt == d.nextAttemptAt)
         && after.parkedUntil ==
              (match after.state
               case Applied => None
               case Parked => Some(now + cfg.policy.baseSeconds)
               case _ => d.parkedUntil)
         && (after.state != DeadLettered ==> after.attempts == d.attempts && after.reasonCode == d.reasonCode)
         && (after.state == DeadLettered ==> after.attempts == row.attempts + 1 && r.tables.books == t.books)
         && after.provider == d.provider && after.raw == d.raw && after.receivedAt == d.receivedAt
  {
    hide Post;
  }

  /** A row whose handler escapes with an exception, or whose payload cannot be read: retried while its kind,
      the policy's cap and the budget allow, else dead lettered, with its reason in either case. */
  lemma FailedRow(
    cfg: Config, t: Tables, now: Time, budgetUsed: int, row: Snapshot, fault: Option<Error>, delay: Time, error: Error)
    requires row.id in t.deliveries
    requires fault == Some(error) || (fault == None && cfg.decode(row.provider, row.raw) == Unreadable(error))
    ensures
      var r := DrainRow(cfg, t, now, budgetUsed, row, fault, delay);
      var retried := budgetUsed < cfg.policy.budgetPerMinute && row.attempts + 1 < cfg.policy.maxAttempts
                     && row.attempts + 1 < Allowance(error);
      var d := t.deliveries[row.id];
      && r.tables.books == t.books
      && r.tables.deliveries == t.deliveries[row.id := d.(
           state := if retried then Claimed else DeadLettered, attempts := row.attempts + 1,
           nextAttemptAt := if retried then Some(now + delay) else None,
           reasonCode := Some(Classify(error).code), leaseExpiresAt := None)]
      && r.budgetUsed == budgetUsed + (if retried then 1 else 0)
  {
    RetriedExactly(cfg.policy, error, row.attempts + 1, budgetUsed);
    hide Classify, ShouldRetry, Post;
  }
}
