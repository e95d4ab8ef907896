/** The payment aggregate: ten effect kinds, the guards in the order the program runs them, and
    the rank ratchet that tolerates out of order delivery. */
module Model {
  import opened Wrappers

  type Time = real

  datatype Kind =
    | Authorize | AuthorizeFail | AdjustAuth | Capture | CaptureFail
    | Void | Expire | Refund | RefundFail | RefundReverse

  datatype Money = Money(minor: int, currency: string)

  /** A canonical event. The provider's verbatim amount strings travel with it in the program and
      are never read by the aggregate, so they have no field here. */
  datatype Event = Event(
    paymentId: string, kind: Kind, providerRef: string, amount: Option<Money>,
    occurredAt: Time, sequence: int)

  datatype PaymentState = PaymentState(
    paymentId: string, currency: string,
    authorized: int, captured: int, captureFailed: int, refunded: int, refundFailed: int,
    voided: bool, expired: bool, rank: int, lastSequence: int)

  datatype Rejection = IllegalTransition | AmountInvariant | CurrencyMismatch

  datatype Verdict = Folded(state: PaymentState) | Premature | Refused(reason: Rejection)

  datatype Status =
    | Pending | Authorized | CaptureFailed | Voided | Expired
    | PartiallyCaptured | Captured | PartiallyRefunded | Refunded

  function Fresh(paymentId: string, currency: string): PaymentState {
    PaymentState(paymentId, currency, 0, 0, 0, 0, 0, false, false, 0, -1)
  }

  function StatusRank(status: Status): int {
    match status
    case Pending => 0
    case Authorized => 10
    case CaptureFailed => 20
    case Voided => 30
    case Expired => 30
    case PartiallyCaptured => 40
    case Captured => 50
    case PartiallyRefunded => 60
    case Refunded => 70
  }

  function KindRank(kind: Kind): int {
    match kind
    case AuthorizeFail => 0
    case Authorize => 10
    case AdjustAuth => 10
    case CaptureFail => 20
    case Void => 30
    case Expire => 30
    case Capture => 40
    case Refund => 60
    case RefundFail => 60
    case RefundReverse => 60
  }

  function PrerequisiteRank(kind: Kind): Option<int> {
    match kind
    case AdjustAuth => Some(10)
    case Capture => Some(10)
    case CaptureFail => Some(10)
    case Void => Some(10)
    case Expire => Some(10)
    case Refund => Some(40)
    case RefundFail => Some(60)
    case RefundReverse => Some(60)
    case Authorize => None
    case AuthorizeFail => None
  }

  predicate Regressive(kind: Kind) {
    kind == RefundFail || kind == RefundReverse
  }

  predicate NeedsAmount(kind: Kind) {
    kind != AuthorizeFail && kind != Void && kind != Expire
  }

  predicate MovesMoney(kind: Kind) {
    kind == Capture || kind == Refund
  }

  function DeriveStatus(s: PaymentState): Status {
    if s.captured > 0 then
      if s.refunded >= s.captured then Refunded
      else if s.refunded > 0 then PartiallyRefunded
      else if s.captured >= s.authorized then Captured
      else PartiallyCaptured
    else if s.expired then Expired
    else if s.voided then Voided
    else if s.captureFailed > 0 then CaptureFailed
    else if s.authorized > 0 then Authorized
    else Pending
  }

  function Minor(e: Event): int {
    if e.amount.Some? then e.amount.value.minor else 0
  }

  function AmountMinor(e: Event, s: PaymentState): Result<int, Rejection> {
    match e.amount
    case None => Failure(IllegalTransition)
    case Some(money) =>
      if money.currency != s.currency then Failure(CurrencyMismatch)
      else if money.minor < 0 then Failure(AmountInvariant)
      else Success(money.minor)
  }

  function ApplyEffect(s: PaymentState, e: Event): Verdict {
    var amount := if NeedsAmount(e.kind) then AmountMinor(e, s) else Success(0);
    match amount
    case Failure(reason) => Refused(reason)
    case Success(minor) => Transition(s, e, minor)
  }

  /** The guards below the amount check. Their order decides which reason a caller sees. */
  function Transition(s: PaymentState, e: Event, minor: int): Verdict {
    var kind := e.kind;
    var captureRuledOut := s.captureFailed > 0 || s.voided || s.expired;
    if MovesMoney(kind) && (s.voided || s.expired) then Refused(IllegalTransition)
    else if kind == Refund && s.captured == 0 && captureRuledOut then Refused(IllegalTransition)
    else if PrerequisiteRank(kind).Some? && s.rank < PrerequisiteRank(kind).value then Premature
    else if kind == AdjustAuth && e.sequence < s.lastSequence then Folded(s)
    else if kind == Capture && s.captured + minor > s.authorized then Refused(AmountInvariant)
    else if kind == Refund && s.refunded + minor > s.captured then Refused(AmountInvariant)
    else if Regressive(kind) && minor > s.refunded then Refused(AmountInvariant)
    else if kind == AdjustAuth && minor < s.captured then Refused(AmountInvariant)
    else if kind == Capture && s.captured > 0 then Refused(IllegalTransition)
    else if kind == Authorize && s.authorized > 0 then Refused(IllegalTransition)
    else if !Regressive(kind) && KindRank(kind) < s.rank then Refused(IllegalTransition)
    else
      var updated := Fold(s, kind, minor);
      var floor := Max(KindRank(kind), StatusRank(DeriveStatus(updated)));
      var rank := if Regressive(kind) then floor else Max(s.rank, floor);
      Folded(updated.(rank := rank, lastSequence := Max(s.lastSequence, e.sequence)))
  }

  function Fold(s: PaymentState, kind: Kind, minor: int): PaymentState {
    match kind
    case Authorize => s.(authorized := minor)
    case AdjustAuth => s.(authorized := minor)
    case AuthorizeFail => s
    case Capture => s.(captured := s.captured + minor)
    case CaptureFail => s.(captureFailed := s.captureFailed + minor)
    case Void => s.(voided := true)
    case Expire => s.(expired := true)
    case Refund => s.(refunded := s.refunded + minor)
    case RefundFail => s.(refunded := s.refunded - minor, refundFailed := s.refundFailed + minor)
    case RefundReverse => s.(refunded := s.refunded - minor, refundFailed := s.refundFailed + minor)
  }

  /** What a stream leaves behind: a premature or refused effect changes nothing. */
  function Replay(s: PaymentState, events: seq<Event>): PaymentState
    decreases |events|
  {
    if events == [] then s
    else
      var before := Replay(s, events[..|events| - 1]);
      match ApplyEffect(before, events[|events| - 1])
      case Folded(after) => after
      case Premature => before
      case Refused(_) => before
  }

  // ------------------------------------------------------------------ invariant

  /** The inductive invariant of every reachable aggregate. */
  predicate Sound(s: PaymentState) {
    && 0 <= s.refunded <= s.captured <= s.authorized
    && 0 <= s.captureFailed
    && 0 <= s.refundFailed
    && s.rank in {0, 10, 20, 30, 40, 50, 60, 70}
    && s.rank >= StatusRank(DeriveStatus(s))
    && (s.captured > 0 ==> s.rank >= 40)
    && (s.rank == 70 <==> 0 < s.captured == s.refunded)
    && (s.voided || s.expired <==> s.rank == 30)
    && (s.rank == 30 ==> s.captured == 0)
    && s.lastSequence >= -1
  }

  /** What one folded effect keeps of an aggregate. */
  predicate StepKeeps(s: PaymentState, kind: Kind, t: PaymentState) {
    && Sound(t)
    && t.paymentId == s.paymentId && t.currency == s.currency
    && (s.voided ==> t.voided) && (s.expired ==> t.expired)
    && (t.rank < s.rank <==> Regressive(kind) && s.rank == 70 && t.refunded < s.refunded)
    && (t.rank < s.rank ==> t.rank == 60)
  }

  lemma MoneyStepSound(s: PaymentState, e: Event)
    requires Sound(s) && ApplyEffect(s, e).Folded? && e.kind in {Capture, Refund, RefundFail, RefundReverse}
    ensures StepKeeps(s, e.kind, ApplyEffect(s, e).state)
  {
  }

  lemma HoldStepSound(s: PaymentState, e: Event)
    requires Sound(s) && ApplyEffect(s, e).Folded? && e.kind !in {Capture, Refund, RefundFail, RefundReverse}
    ensures StepKeeps(s, e.kind, ApplyEffect(s, e).state)
  {
  }

  /** One step keeps the invariant, never undoes a cancellation, and moves the rank down exactly when
      money comes back to the merchant on a payment refunded in full, from 70 to 60. */
  lemma StepSound(s: PaymentState, e: Event)
    requires Sound(s) && ApplyEffect(s, e).Folded?
    ensures
      var t := ApplyEffect(s, e).state;
      && Sound(t)
      && t.paymentId == s.paymentId && t.currency == s.currency
      && (s.voided ==> t.voided) && (s.expired ==> t.expired)
      && (t.rank < s.rank <==> Regressive(e.kind) && s.rank == 70 && t.refunded < s.refunded)
      && (t.rank < s.rank ==> t.rank == 60)
  {
    if e.kind in {Capture, Refund, RefundFail, RefundReverse} {
      MoneyStepSound(s, e);
    } else {
      HoldStepSound(s, e);
    }
    hide ApplyEffect, Sound;
  }

  predicate Regressed(s: PaymentState, t: PaymentState) {
    StatusRank(DeriveStatus(t)) < StatusRank(DeriveStatus(s))
  }

  /** Refund corrections apart, the status of a payment moves back exactly when a hold is adjusted to
      nothing: the rank stays, and the payment reads as pending again. */
  lemma StatusMovesBack(s: PaymentState, e: Event)
    requires Sound(s) && ApplyEffect(s, e).Folded? && !Regressive(e.kind)
    ensures
      var t := ApplyEffect(s, e).state;
      Regressed(s, t) <==>
      e.kind == AdjustAuth && e.sequence >= s.lastSequence && s.authorized > 0 && e.amount.value.minor == 0
  {
    StepSound(s, e);
    FoldedDeltas(s, e);
    VerdictTable(s, e);
    hide ApplyEffect;
  }

  /** Every reachable aggregate is sound, whatever the stream. */
  lemma {:induction false} ReachableSound(paymentId: string, currency: string, events: seq<Event>)
    ensures Sound(Replay(Fresh(paymentId, currency), events))
    ensures Replay(Fresh(paymentId, currency), events).paymentId == paymentId
    ensures Replay(Fresh(paymentId, currency), events).currency == currency
    decreases |events|
  {
    if events != [] {
      var front := events[..|events| - 1];
      ReachableSound(paymentId, currency, front);
      var s := Replay(Fresh(paymentId, currency), front);
      if ApplyEffect(s, events[|events| - 1]).Folded? {
        StepSound(s, events[|events| - 1]);
      }
    }
  }

  /** A voided or expired payment carries no money and stays at rank 30 under any later stream. */
  lemma {:induction false} CancelledForever(s: PaymentState, later: seq<Event>)
    requires Sound(s) && (s.voided || s.expired)
    ensures
      var t := Replay(s, later);
      Sound(t) && (s.voided ==> t.voided) && (s.expired ==> t.expired)
      && t.captured == 0 && t.refunded == 0 && t.rank == 30 && t.authorized == s.authorized
    decreases |later|
  {
    if later != [] {
      var front := later[..|later| - 1];
      CancelledForever(s, front);
      var t := Replay(s, front);
      if ApplyEffect(t, later[|later| - 1]).Folded? {
        StepSound(t, later[|later| - 1]);
      }
    }
  }

  // ------------------------------------------------------------ what is decided

  predicate Priced(s: PaymentState, e: Event) {
    e.amount.Some? && e.amount.value.currency == s.currency && e.amount.value.minor >= 0
  }

  /** The lifecycle table: which effect a sound aggregate takes, read off its phase. */
  predicate Accepts(s: PaymentState, e: Event) {
    match e.kind
    case Authorize => Priced(s, e) && s.rank <= 10 && s.authorized == 0
    case AuthorizeFail => s.rank == 0
    case AdjustAuth => Priced(s, e) && s.rank >= 10 && (s.rank == 10 || e.sequence < s.lastSequence)
    case Capture =>
      Priced(s, e) && s.rank in {10, 20, 40} && s.captured == 0 && e.amount.value.minor <= s.authorized
    case CaptureFail => Priced(s, e) && s.rank in {10, 20}
    case Void => s.rank in {10, 20, 30}
    case Expire => s.rank in {10, 20, 30}
    case Refund =>
      && Priced(s, e) && s.rank in {40, 50, 60} && s.refunded + e.amount.value.minor <= s.captured
      && (s.captured > 0 || s.captureFailed == 0)
    case RefundFail => Priced(s, e) && s.rank >= 60 && e.amount.value.minor <= s.refunded
    case RefundReverse => Priced(s, e) && s.rank >= 60 && e.amount.value.minor <= s.refunded
  }

  /** When an effect waits: its prerequisite may still arrive. */
  predicate Awaits(s: PaymentState, e: Event) {
    && (NeedsAmount(e.kind) ==> Priced(s, e))
    && PrerequisiteRank(e.kind).Some? && s.rank < PrerequisiteRank(e.kind).value
    && (e.kind == Refund ==> s.rank != 30 && s.captureFailed == 0)
  }

  /** When the refusal names the amount: a negative amount, or a ceiling broken by an effect that
      is otherwise due and not stale. */
  predicate BreaksAmounts(s: PaymentState, e: Event) {
    && NeedsAmount(e.kind) && e.amount.Some? && e.amount.value.currency == s.currency
    && var minor := e.amount.value.minor;
       || minor < 0
       || match e.kind
          case Capture => s.rank >= 10 && s.rank != 30 && s.captured + minor > s.authorized
          case Refund => s.rank >= 40 && (s.captured > 0 || s.captureFailed == 0) && s.refunded + minor > s.captured
          case RefundFail => s.rank >= 60 && minor > s.refunded
          case RefundReverse => s.rank >= 60 && minor > s.refunded
          case AdjustAuth => s.rank >= 10 && e.sequence >= s.lastSequence && minor < s.captured
          case _ => false
  }

  /** Guard order read as a decision: for every sound aggregate and every event, the verdict and
      its reason follow from the phase alone. */
  lemma VerdictTable(s: PaymentState, e: Event)
    requires Sound(s)
    ensures ApplyEffect(s, e).Folded? <==> Accepts(s, e)
    ensures ApplyEffect(s, e).Premature? <==> Awaits(s, e)
    ensures ApplyEffect(s, e) == Refused(AmountInvariant) <==> BreaksAmounts(s, e)
    ensures ApplyEffect(s, e) == Refused(CurrencyMismatch) <==>
            NeedsAmount(e.kind) && e.amount.Some? && e.amount.value.currency != s.currency
  {
  }

  /** The rank an accepted effect leaves, from the amounts it leaves. */
  function RankLeft(kind: Kind, t: PaymentState): int {
    match kind
    case AuthorizeFail => 0
    case Authorize => 10
    case AdjustAuth => 10
    case CaptureFail => 20
    case Void => 30
    case Expire => 30
    case Capture => if 0 < t.captured == t.authorized then 50 else 40
    case _ => if 0 < t.captured == t.refunded then 70 else 60
  }

  predicate Stale(s: PaymentState, e: Event) {
    e.kind == AdjustAuth && e.sequence < s.lastSequence
  }

  /** What an accepted effect does to each amount, flag and rank, kind by kind. */
  lemma FoldedDeltas(s: PaymentState, e: Event)
    requires Sound(s) && ApplyEffect(s, e).Folded?
    ensures
      var t := ApplyEffect(s, e).state;
      var minor := Minor(e);
      && t.captured == s.captured + (if e.kind == Capture then minor else 0)
      && t.captureFailed == s.captureFailed + (if e.kind == CaptureFail then minor else 0)
      && t.refunded == s.refunded + (if e.kind == Refund then minor else 0) - (if Regressive(e.kind) then minor else 0)
      && t.refundFailed == s.refundFailed + (if Regressive(e.kind) then minor else 0)
      && t.authorized ==
           (if e.kind == Authorize || (e.kind == AdjustAuth && e.sequence >= s.lastSequence) then minor
            else s.authorized)
      && (t.voided <==> s.voided || e.kind == Void)
      && (t.expired <==> s.expired || e.kind == Expire)
      && t.lastSequence == Max(s.lastSequence, e.sequence)
      && t.rank == (if Stale(s, e) then s.rank else RankLeft(e.kind, t))
      && (Stale(s, e) ==> t == s)
  {
  }

  /** Money that comes back reopens a payment: after a correction of some of its refunds every refund the
      capture has room for is accepted. */
  lemma CorrectionReopens(s: PaymentState, e: Event, refund: Event)
    requires Sound(s) && Regressive(e.kind) && ApplyEffect(s, e).Folded? && Minor(e) > 0
    requires refund.kind == Refund && Priced(ApplyEffect(s, e).state, refund)
    requires ApplyEffect(s, e).state.refunded + Minor(refund) <= s.captured
    ensures ApplyEffect(s, e).state.rank == 60
    ensures ApplyEffect(ApplyEffect(s, e).state, refund).Folded?
  {
    StepSound(s, e);
    FoldedDeltas(s, e);
    VerdictTable(s, e);
    VerdictTable(ApplyEffect(s, e).state, refund);
    hide ApplyEffect;
  }

  /** What each status says of a sound aggregate. */
  lemma StatusMeans(s: PaymentState)
    requires Sound(s)
    ensures
      var status, cancelled := DeriveStatus(s), s.voided || s.expired;
      && (status == Refunded <==> 0 < s.captured == s.refunded)
      && (status == PartiallyRefunded <==> 0 < s.refunded < s.captured)
      && (status == Captured <==> 0 == s.refunded < s.captured == s.authorized)
      && (status == PartiallyCaptured <==> 0 == s.refunded < s.captured < s.authorized)
      && (status == Expired <==> s.expired)
      && (status == Voided <==> s.voided && !s.expired)
      && (status == CaptureFailed <==> s.captured == 0 < s.captureFailed && !cancelled)
      && (status == Authorized <==> s.captured == s.captureFailed == 0 < s.authorized && !cancelled)
      && (status == Pending <==> s.captured == s.captureFailed == s.authorized == 0 && !cancelled)
  {
  }

  /** The lifecycle the ranks stand for: every status is later than the one before it, but for the two ways
      of being cancelled. */
  lemma StatusesInOrder()
    ensures StatusRank(Pending) < StatusRank(Authorized) < StatusRank(CaptureFailed) < StatusRank(Voided)
    ensures StatusRank(Voided) == StatusRank(Expired) < StatusRank(PartiallyCaptured) < StatusRank(Captured)
    ensures StatusRank(Captured) < StatusRank(PartiallyRefunded) < StatusRank(Refunded)
  {
  }
}
