/** What an indexed ledger says about a payment: conservation against its own child rows. */
module LedgerTheorems {
  import opened Sums
  import opened Model
  import opened Store
  import opened Ledger

  function CaptureMinor(e: Event): int { if e.kind == Capture then Minor(e) else 0 }
  function CaptureFailMinor(e: Event): int { if e.kind == CaptureFail then Minor(e) else 0 }
  function RefundMinor(e: Event): int { if e.kind == Refund then Minor(e) else 0 }
  function CorrectionMinor(e: Event): int { if Regressive(e.kind) then Minor(e) else 0 }

  predicate PositiveCapture(e: Event) {
    CaptureMinor(e) > 0
  }

  ghost predicate AtMostOneCapture(events: seq<Event>) {
    forall i, j :: 0 <= i < j < |events| ==> !(PositiveCapture(events[i]) && PositiveCapture(events[j]))
  }

  /** The aggregate s is accounted for by its child events. */
  ghost predicate AccountedFor(s: PaymentState, events: seq<Event>) {
    && s.captured == Sum(events, CaptureMinor)
    && s.captureFailed == Sum(events, CaptureFailMinor)
    && s.refundFailed == Sum(events, CorrectionMinor)
    && s.refunded + s.refundFailed == Sum(events, RefundMinor)
    && AtMostOneCapture(events)
    && ((exists e <- events :: PositiveCapture(e)) ==> s.captured > 0)
    && s.lastSequence == NewestSequence(events)
    && (forall e <- events :: NeedsAmount(e.kind) ==> e.amount.Some? && e.amount.value.currency == s.currency && Minor(e) >= 0)
  }

  lemma OneMoreCapture(events: seq<Event>, e: Event)
    requires AtMostOneCapture(events) && (PositiveCapture(e) ==> forall x <- events :: !PositiveCapture(x))
    ensures AtMostOneCapture(events + [e])
  {
    hide PositiveCapture;
    forall i, j | 0 <= i < j < |events| + 1
      ensures !(PositiveCapture((events + [e])[i]) && PositiveCapture((events + [e])[j]))
    {
      if j == |events| {
        assert events[i] in events;
      }
    }
  }

  lemma AccountStep(s: PaymentState, events: seq<Event>, e: Event)
    requires Sound(s) && AccountedFor(s, events) && ApplyEffect(s, e).Folded?
    ensures AccountedFor(ApplyEffect(s, e).state, events + [e])
  {
    VerdictTable(s, e);
    FoldedDeltas(s, e);
    StepSound(s, e);
    hide ApplyEffect, Sound, AtMostOneCapture;
    SumSnoc(events, e, CaptureMinor);
    SumSnoc(events, e, CaptureFailMinor);
    SumSnoc(events, e, RefundMinor);
    SumSnoc(events, e, CorrectionMinor);
    OneMoreCapture(events, e);
    assert (events + [e])[..|events|] == events;
  }

  lemma {:induction false} FoldAccounted(paymentId: string, currency: string, events: seq<Event>)
    requires StrictFold(Fresh(paymentId, currency), events).Some?
    ensures
      var s := StrictFold(Fresh(paymentId, currency), events).value;
      Sound(s) && s.paymentId == paymentId && s.currency == currency && AccountedFor(s, events)
    decreases |events|
  {
    if events != [] {
      var front, last := events[..|events| - 1], events[|events| - 1];
      assert events == front + [last];
      FoldAccounted(paymentId, currency, front);
      var s := StrictFold(Fresh(paymentId, currency), front).value;
      StepSound(s, last);
      AccountStep(s, front, last);
    }
  }

  lemma {:induction false} LatestIsMaximum(events: seq<Event>)
    requires events != []
    ensures forall e <- events :: e.occurredAt <= Latest(events)
    ensures exists e <- events :: e.occurredAt == Latest(events)
    decreases |events|
  {
    var front, last := events[..|events| - 1], events[|events| - 1];
    assert events == front + [last];
    if front != [] {
      LatestIsMaximum(front);
      var e :| e in front && e.occurredAt == Latest(front);
      assert e in events;
    }
    assert last in events;
  }

  lemma {:induction false} NewestIsMaximum(events: seq<Event>)
    ensures forall e <- events :: e.sequence <= NewestSequence(events)
    ensures NewestSequence(events) == -1 || exists e <- events :: e.sequence == NewestSequence(events)
    ensures NewestSequence(events) >= -1
    decreases |events|
  {
    if events != [] {
      var front, last := events[..|events| - 1], events[|events| - 1];
      assert events == front + [last];
      NewestIsMaximum(front);
      assert last in events;
    }
  }

  /** In sound books every payment row is a sound aggregate, accounted for by its own effect rows,
      stamped with the newest provider time among them; and it exists exactly when one exists. */
  lemma {:induction false} PaymentAccounted(b: Books, p: string)
    requires BooksSound(b)
    ensures p in b.payments <==> exists x <- b.effects :: x.event.paymentId == p
    ensures p in b.payments ==>
      var row := b.payments[p];
      && Sound(row.state) && row.state.paymentId == p
      && AccountedFor(row.state, Own(b.effects, p))
      && (forall x <- b.effects :: x.event.paymentId == p ==>
            x.event.occurredAt <= row.updatedAt && x.event.sequence <= row.state.lastSequence)
      && (exists x <- b.effects :: x.event.paymentId == p && x.event.occurredAt == row.updatedAt)
  {
    OwnMembers(b.effects, p);
    var own := Own(b.effects, p);
    assert Find(b.payments, p) == RowOf(p, own);
    if own != [] {
      assert own[0] in own;
      FoldAccounted(p, own[0].amount.value.currency, own);
      LatestIsMaximum(own);
      NewestIsMaximum(own);
    }
  }

  lemma {:induction false} OwnMembers(effects: seq<Effect>, p: string)
    ensures forall e :: e in Own(effects, p) <==> exists x <- effects :: x.event == e && e.paymentId == p
    decreases |effects|
  {
    if effects != [] {
      var front, last := effects[..|effects| - 1], effects[|effects| - 1];
      assert effects == front + [last];
      OwnMembers(front, p);
      assert last in effects;
      forall e | e in Own(effects, p) ensures exists x <- effects :: x.event == e && e.paymentId == p {
        if e in Own(front, p) {
          var x :| x in front && x.event == e && e.paymentId == p;
          assert x in effects;
        }
      }
    }
  }

  lemma SoundBooksKeyed(b: Books)
    requires BooksSound(b)
    ensures RowsKeyed(b)
  {
    forall p | p in b.payments ensures b.payments[p].state.paymentId == p {
      PaymentAccounted(b, p);
    }
  }
}
