/** Poison message rules: every failure has a reason, every reason says whether and how often to
    retry, and a budget bounds the retries of all deliveries together. */
module Dlq {
  import opened Wrappers
  import opened Model

  /** The exceptions a handler can end in, as the classifier tells them apart. */
  datatype Error =
    | StaleTimestamp | BadSignature | MalformedHeader | OtherSignatureError
    | UnknownEventType | MalformedEvent | JsonDecodeError | UnicodeDecodeError
    | Rejected(rejection: Rejection)
    | OperationalError | OtherError

  datatype Code =
    | SignatureInvalid | StaleTimestampCode | SchemaInvalid | IllegalTransitionCode | AmountInvariantCode
    | CurrencyMismatchCode | UnknownEventTypeCode | DownstreamUnavailable | Unknown

  datatype Reason = Reason(code: Code, retryable: bool, maxAttempts: Option<int>)

  function Classify(error: Error): Reason {
    match error
    case StaleTimestamp => Reason(StaleTimestampCode, false, None)
    case BadSignature => Reason(SignatureInvalid, false, None)
    case MalformedHeader => Reason(SignatureInvalid, false, None)
    case OtherSignatureError => Reason(SignatureInvalid, false, None)
    case UnknownEventType => Reason(UnknownEventTypeCode, true, Some(3))
    case MalformedEvent => Reason(SchemaInvalid, false, None)
    case JsonDecodeError => Reason(SchemaInvalid, false, None)
    case UnicodeDecodeError => Reason(SchemaInvalid, false, None)
    case Rejected(CurrencyMismatch) => Reason(CurrencyMismatchCode, false, None)
    case Rejected(AmountInvariant) => Reason(AmountInvariantCode, false, None)
    case Rejected(IllegalTransition) => Reason(IllegalTransitionCode, false, None)
    case OperationalError => Reason(DownstreamUnavailable, true, Some(5))
    case OtherError => Reason(Unknown, true, Some(3))
  }

  datatype RetryPolicy = RetryPolicy(baseSeconds: Time, maxSeconds: Time, maxAttempts: int, budgetPerMinute: int)

  function Pow2(n: nat): nat {
    if n == 0 then 1 else 2 * Pow2(n - 1)
  }

  /** The longest wait full jitter may draw for this attempt. */
  function Ceiling(policy: RetryPolicy, attempt: nat): Time {
    var backoff := policy.baseSeconds * Pow2(attempt) as real;
    if policy.maxSeconds <= backoff then policy.maxSeconds else backoff
  }

  /** A delay full jitter can draw: any value between zero and the ceiling. */
  predicate Drawable(policy: RetryPolicy, attempt: nat, delay: Time) {
    var ceiling := Ceiling(policy, attempt);
    0.0 <= delay <= ceiling || ceiling <= delay <= 0.0
  }

  predicate ShouldRetry(policy: RetryPolicy, reason: Reason, attempt: int, budgetUsed: int) {
    && reason.retryable
    && budgetUsed < policy.budgetPerMinute
    && attempt < (match reason.maxAttempts
                  case None => policy.maxAttempts
                  case Some(cap) => if cap < policy.maxAttempts then cap else policy.maxAttempts)
  }

  /** A permanent failure is never retried; a transient one is retried below both caps and within
      the budget, at most four times over whatever the policy says. */
  lemma RetryBounds(policy: RetryPolicy, error: Error, attempt: int, budgetUsed: int)
    requires ShouldRetry(policy, Classify(error), attempt, budgetUsed)
    ensures error in {UnknownEventType, OperationalError, OtherError}
    ensures attempt < policy.maxAttempts && attempt < 5 && budgetUsed < policy.budgetPerMinute
    ensures error != OperationalError ==> attempt < 3
  {
  }

  /** How many attempts a kind of failure is given, the policy aside: none beyond the first for a failure that
      cannot mend itself. */
  function Allowance(error: Error): int {
    match error
    case UnknownEventType => 3
    case OtherError => 3
    case OperationalError => 5
    case _ => 0
  }

  /** Exactly when a failure is tried again. */
  lemma RetriedExactly(policy: RetryPolicy, error: Error, attempt: nat, budgetUsed: int)
    ensures ShouldRetry(policy, Classify(error), attempt, budgetUsed) <==>
            budgetUsed < policy.budgetPerMinute && attempt < policy.maxAttempts && attempt < Allowance(error)
  {
  }

  /** Which failures share a reason code: a signature is wrong in three ways, a payload in three, and
      everything else has a code of its own. */
  lemma CodesTell(error: Error)
    ensures
      var code := Classify(error).code;
      && (code == SignatureInvalid <==> error in {BadSignature, MalformedHeader, OtherSignatureError})
      && (code == StaleTimestampCode <==> error == StaleTimestamp)
      && (code == SchemaInvalid <==> error in {MalformedEvent, JsonDecodeError, UnicodeDecodeError})
      && (code == UnknownEventTypeCode <==> error == UnknownEventType)
      && (code == IllegalTransitionCode <==> error == Rejected(IllegalTransition))
      && (code == AmountInvariantCode <==> error == Rejected(AmountInvariant))
      && (code == CurrencyMismatchCode <==> error == Rejected(CurrencyMismatch))
      && (code == DownstreamUnavailable <==> error == OperationalError)
      && (code == Unknown <==> error == OtherError)
  {
  }

  lemma {:induction false} Pow2Grows(n: nat)
    ensures Pow2(n) >= 1
  {
    if n > 0 {
      Pow2Grows(n - 1);
    }
  }

  /** The longest wait is the base for attempt zero and doubles with every attempt until the maximum. */
  lemma BackoffDoubles(policy: RetryPolicy, attempt: nat)
    ensures Ceiling(policy, 0) ==
            if policy.maxSeconds <= policy.baseSeconds then policy.maxSeconds else policy.baseSeconds
    ensures Ceiling(policy, attempt + 1) <= policy.maxSeconds
    ensures Ceiling(policy, attempt) < policy.maxSeconds && Ceiling(policy, attempt + 1) < policy.maxSeconds ==>
              Ceiling(policy, attempt + 1) == 2.0 * Ceiling(policy, attempt)
  {
    assert Pow2(attempt + 1) as real == 2.0 * Pow2(attempt) as real;
  }

  /** Full jitter may draw every delay from nothing to the longest wait, and no other. */
  lemma {:induction false} DelayExact(policy: RetryPolicy, attempt: nat, delay: Time)
    requires policy.baseSeconds >= 0.0 && policy.maxSeconds >= 0.0
    ensures Drawable(policy, attempt, delay) <==>
            0.0 <= delay <= policy.maxSeconds && delay <= policy.baseSeconds * Pow2(attempt) as real
  {
    Pow2Grows(attempt);
    assert policy.baseSeconds * Pow2(attempt) as real >= 0.0;
  }
}
