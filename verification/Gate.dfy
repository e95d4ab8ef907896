/** The gate: which ids may not move money out, given an exception report. */
module Gate {
  import opened Wrappers
  import opened Ordering
  import opened Sums
  import opened Model
  import opened Reconcile

  datatype GateDecision = GateDecision(
    outboundBlocked: bool, ingestBlocked: bool, blockedIds: seq<string>, suppressedBy: Option<BreakGlass>)

  // ---------------------------------------------------------------- materiality

  /** A finding that adds to a currency's exposure: it has a currency and a delta that is not zero. */
  predicate Measured(f: Finding) {
    f.delta.Some? && f.delta.value != 0 && f.currency.Some? && f.currency.value != ""
  }

  function AbsIn(currency: string): Finding -> int {
    (f: Finding) => if Measured(f) && f.currency.value == currency then Magnitude(f.delta.value) else 0
  }

  function Exposure(findings: seq<Finding>, currency: string): int {
    Sum(findings, AbsIn(currency))
  }

  predicate Material(policy: GatePolicy, breaks: seq<Finding>) {
    || |breaks| >= policy.materialityCount
    || exists f <- breaks :: Measured(f) && Exposure(breaks, f.currency.value) >= policy.materialityValue
  }

  method ExposureByCurrency(breaks: seq<Finding>) returns (totals: map<string, int>)
    ensures forall c :: c in totals <==> exists f <- breaks :: Measured(f) && f.currency.value == c
    ensures forall c <- totals :: totals[c] == Exposure(breaks, c)
  {
    totals := map[];
    for i := 0 to |breaks|
      invariant forall c :: c in totals <==> exists f <- breaks[..i] :: Measured(f) && f.currency.value == c
      invariant forall c :: Exposure(breaks[..i], c) == if c in totals then totals[c] else 0
    {
      var f := breaks[i];
      assert breaks[..i + 1] == breaks[..i] + [f];
      forall c ensures Exposure(breaks[..i + 1], c) == Exposure(breaks[..i], c) + AbsIn(c)(f) {
        SumSnoc(breaks[..i], f, AbsIn(c));
      }
      if Measured(f) {
        var c := f.currency.value;
        totals := totals[c := (if c in totals then totals[c] else 0) + Magnitude(f.delta.value)];
      }
    }
    assert breaks[..|breaks|] == breaks;
  }

  // ------------------------------------------------------------------- the ids

  /** The findings that block: every critical one, and the breaks when they are material. */
  function Effective(policy: GatePolicy, findings: seq<Finding>): seq<Finding> {
    var breaks := OfSeverity(findings, Break);
    OfSeverity(findings, Critical) + (if Material(policy, breaks) then breaks else [])
  }

  function Texts(findings: seq<Finding>, field: Finding -> Option<string>): seq<string> {
    if findings == [] then []
    else
      var last := field(findings[|findings| - 1]);
      Texts(findings[..|findings| - 1], field) + (if last.GetOr("") != "" then [last.GetOr("")] else [])
  }

  function PaymentOf(f: Finding): Option<string> {
    f.paymentId
  }

  function CurrencyOf(f: Finding): Option<string> {
    f.currency
  }

  function RefOf(f: Finding): Option<string> {
    f.providerRef
  }

  const EVERYTHING: seq<string> := ["*"]

  function ScopeIds(scope: Scope, effective: seq<Finding>): seq<string> {
    match scope
    case BatchScope => if effective == [] then [] else EVERYTHING
    case CurrencyScope => SortedSet(Texts(effective, CurrencyOf))
    case PaymentScope => SortedSet(Texts(effective, PaymentOf))
  }

  /** What stands in for ids when the blocking findings carry none of the scope's. */
  function FallbackIds(effective: seq<Finding>): seq<string> {
    var refs := SortedSet(Texts(effective, RefOf));
    if refs == [] then EVERYTHING else refs
  }

  function GateIds(scope: Scope, effective: seq<Finding>): seq<string> {
    if effective != [] && ScopeIds(scope, effective) == [] then FallbackIds(effective) else ScopeIds(scope, effective)
  }

  function Outside(ids: seq<string>, scopeIds: seq<string>): seq<string> {
    if ids == [] then []
    else
      var last := ids[|ids| - 1];
      Outside(ids[..|ids| - 1], scopeIds) + (if last in scopeIds then [] else [last])
  }

  predicate Live(glass: Option<BreakGlass>, now: Time) {
    glass.Some? && glass.value.expiresAt > now
  }

  function Decide(findings: seq<Finding>, policy: GatePolicy, now: Time): GateDecision {
    var effective := Effective(policy, findings);
    var ids := GateIds(policy.scope, effective);
    var remaining := if Live(policy.breakGlass, now) then Outside(ids, policy.breakGlass.value.scopeIds) else ids;
    GateDecision(effective != [] && remaining != [], false, remaining,
        if remaining != ids then policy.breakGlass else None)
  }

  method DecideGate(findings: seq<Finding>, policy: GatePolicy, now: Time) returns (decision: GateDecision)
    ensures decision == Decide(findings, policy, now)
  {
    var criticals, breaks := OfSeverity(findings, Critical), OfSeverity(findings, Break);
    var exposure := ExposureByCurrency(breaks);
    var material := |breaks| >= policy.materialityCount || exists c <- exposure :: exposure[c] >= policy.materialityValue;
    assert material <==> Material(policy, breaks);
    var effective := criticals + (if material then breaks else []);
    var ids := ScopeIds(policy.scope, effective);
    if effective != [] && ids == [] {
      ids := FallbackIds(effective);
    }
    var suppressed := None;
    if policy.breakGlass.Some? && policy.breakGlass.value.expiresAt > now && ids != [] {
      var remaining := Outside(ids, policy.breakGlass.value.scopeIds);
      if remaining != ids {
        suppressed, ids := policy.breakGlass, remaining;
      }
    }
    decision := GateDecision(effective != [] && ids != [], false, ids, suppressed);
  }
}
