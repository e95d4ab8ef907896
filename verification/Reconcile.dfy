/** Two source reconciliation: the provider's list joined on the payment id, the settlement file
    joined on the psp reference, and every disagreement classified. */
module Reconcile {
  import opened Wrappers
  import opened Ordering
  import opened Model

  datatype Severity = Info | Warn | Break | Critical

  datatype Direction = NoDirection | LocalAhead | RemoteAhead

  datatype DriftKind =
    | MissingLocally | MissingRemotely | DuplicateLocal | DuplicateRemote | AmountMismatch
    | PartialStateDivergence | StatusMismatch | CurrencyDrift | InFlight | UnknownRemoteRow
    | FeeGrossNet | UnsettledPastSla | ParkedStale

  function KindName(kind: DriftKind): string {
    match kind
    case MissingLocally => "missing_locally"
    case MissingRemotely => "missing_remotely"
    case DuplicateLocal => "duplicate_local"
    case DuplicateRemote => "duplicate_remote"
    case AmountMismatch => "amount_mismatch"
    case PartialStateDivergence => "partial_state_divergence"
    case StatusMismatch => "status_mismatch"
    case CurrencyDrift => "currency_mismatch"
    case InFlight => "in_flight"
    case UnknownRemoteRow => "unknown_remote_row"
    case FeeGrossNet => "fee_gross_net"
    case UnsettledPastSla => "unsettled_past_sla"
    case ParkedStale => "parked_stale"
  }

  function DefaultSeverity(kind: DriftKind): Severity {
    match kind
    case MissingLocally => Critical
    case MissingRemotely => Break
    case DuplicateLocal => Break
    case DuplicateRemote => Critical
    case AmountMismatch => Break
    case PartialStateDivergence => Warn
    case StatusMismatch => Break
    case CurrencyDrift => Critical
    case InFlight => Info
    case UnknownRemoteRow => Warn
    case FeeGrossNet => Info
    case UnsettledPastSla => Break
    case ParkedStale => Break
  }

  function SeverityOrder(s: Severity): int {
    match s
    case Info => 0
    case Warn => 1
    case Break => 2
    case Critical => 3
  }

  datatype RemotePayment = RemotePayment(
    paymentId: string, providerRef: string, currency: string,
    authorized: int, captured: int, refunded: int, status: string, createdAt: Time)

  datatype SettlementRow = SettlementRow(pspReference: string, gross: int, fee: int, net: int, currency: string)

  datatype ParkedDelivery = ParkedDelivery(paymentId: string, receivedAt: Time)

  datatype BreakGlass = BreakGlass(approver: string, reason: string, expiresAt: Time, scopeIds: seq<string>)

  datatype Scope = PaymentScope | CurrencyScope | BatchScope

  datatype GatePolicy = GatePolicy(
    inFlightGrace: Time, settlementSla: Time, parkMaxAge: Time, feeToleranceBps: int,
    materialityCount: int, materialityValue: int, scope: Scope, breakGlass: Option<BreakGlass>,
    overrides: map<DriftKind, Severity>)

  /** A finding; the vectors and the prose it carries for a reader are not part of this model. */
  datatype Finding = Finding(
    kind: DriftKind, severity: Severity, direction: Direction, paymentId: Option<string>, providerRef: Option<string>,
    delta: Option<int>, currency: Option<string>, age: Option<Time>)

  function Graded(policy: GatePolicy, kind: DriftKind, base: Severity): Severity {
    if kind in policy.overrides then policy.overrides[kind] else base
  }

  function Drift(policy: GatePolicy, kind: DriftKind): Finding {
    Finding(kind, Graded(policy, kind, DefaultSeverity(kind)), NoDirection, None, None, None, None, None)
  }

  // ------------------------------------------------------------------- statuses

  function StatusName(status: Status): string {
    match status
    case Pending => "pending"
    case Authorized => "authorized"
    case CaptureFailed => "capture_failed"
    case Voided => "voided"
    case Expired => "expired"
    case PartiallyCaptured => "partially_captured"
    case Captured => "captured"
    case PartiallyRefunded => "partially_refunded"
    case Refunded => "refunded"
  }

  const STATUSES: seq<Status> :=
    [Pending, Authorized, CaptureFailed, Voided, Expired, PartiallyCaptured, Captured, PartiallyRefunded, Refunded]

  /** The status of that name, if there is one. */
  function NamedStatus(name: string, candidates: seq<Status>): Option<Status> {
    if candidates == [] then None
    else if StatusName(candidates[0]) == name then Some(candidates[0])
    else NamedStatus(name, candidates[1..])
  }

  function RankOrNone(name: string): Option<int> {
    match NamedStatus(name, STATUSES)
    case None => None
    case Some(status) => Some(StatusRank(status))
  }

  function DirectionOf(local: string, remote: string): Direction {
    var l, r := RankOrNone(local), RankOrNone(remote);
    if l.None? || r.None? || l.value == r.value then NoDirection
    else if l.value > r.value then LocalAhead
    else RemoteAhead
  }

  // --------------------------------------------------------------- the event side

  predicate SameVector(l: PaymentState, r: RemotePayment) {
    l.authorized == r.authorized && l.captured == r.captured && l.refunded == r.refunded
  }

  predicate SameStatus(l: PaymentState, r: RemotePayment) {
    StatusName(DeriveStatus(l)) == r.status
  }

  function PairFindings(policy: GatePolicy, l: PaymentState, r: RemotePayment, age: Time): seq<Finding> {
    var drift := (kind: DriftKind) => Drift(policy, kind).(
        paymentId := Some(l.paymentId), providerRef := Some(r.providerRef), currency := Some(l.currency), age := Some(age));
    if l.currency != r.currency then [drift(CurrencyDrift)]
    else if SameVector(l, r) && SameStatus(l, r) then []
    else if age < policy.inFlightGrace then [drift(InFlight)]
    else
      var netGap := (l.captured - l.refunded) - (r.captured - r.refunded);
      var amounts :=
        if SameVector(l, r) then []
        else if netGap == 0 && l.authorized == r.authorized then [drift(PartialStateDivergence).(delta := Some(0))]
        else [drift(AmountMismatch).(delta := Some(netGap))];
      var statuses :=
        if SameStatus(l, r) then []
        else [drift(StatusMismatch).(direction := DirectionOf(StatusName(DeriveStatus(l)), r.status))];
      amounts + statuses
  }

  function DuplicateFindings(policy: GatePolicy, id: string, ls: seq<PaymentState>, rs: seq<RemotePayment>, now: Time):
      seq<Finding> {
    var twoLocals :=
      if |ls| > 1 then
        [Drift(policy, DuplicateLocal).(paymentId := Some(id), currency := Some(ls[0].currency),
           providerRef := if rs == [] then None else Some(rs[0].providerRef))]
      else [];
    var twoRemotes :=
      if |rs| > 1 then
        [Drift(policy, DuplicateRemote).(paymentId := Some(id), currency := Some(rs[0].currency),
           providerRef := Some(rs[0].providerRef), age := Some(now - rs[0].createdAt))]
      else [];
    twoLocals + twoRemotes
  }

  function FirstFindings(policy: GatePolicy, id: string, ls: seq<PaymentState>, rs: seq<RemotePayment>, now: Time):
      seq<Finding> {
    if rs == [] then
      if ls == [] then []
      else [Drift(policy, MissingRemotely).(paymentId := Some(id), currency := Some(ls[0].currency),
              delta := Some(ls[0].captured - ls[0].refunded))]
    else
      var age := now - rs[0].createdAt;
      if ls == [] then
        [Drift(policy, if age < policy.inFlightGrace then InFlight else MissingLocally).(
           paymentId := Some(id), providerRef := Some(rs[0].providerRef), currency := Some(rs[0].currency),
           delta := Some(rs[0].captured - rs[0].refunded), age := Some(age))]
      else PairFindings(policy, ls[0], rs[0], age)
  }

  /** The findings of one payment id, from the records each side holds for it. */
  function EventFindings(policy: GatePolicy, id: string, ls: seq<PaymentState>, rs: seq<RemotePayment>, now: Time):
      seq<Finding> {
    DuplicateFindings(policy, id, ls, rs, now) + FirstFindings(policy, id, ls, rs, now)
  }

  // ----------------------------------------------------------------- the two joins

  function LocalsOf(local: seq<PaymentState>, id: string): seq<PaymentState> {
    if local == [] then []
    else
      var last := local[|local| - 1];
      LocalsOf(local[..|local| - 1], id) + (if last.paymentId == id then [last] else [])
  }

  /** A provider row without a payment id joins to nothing. */
  function RemotesOf(remote: seq<RemotePayment>, id: string): seq<RemotePayment> {
    if remote == [] then []
    else
      var last := remote[|remote| - 1];
      RemotesOf(remote[..|remote| - 1], id) + (if last.paymentId == id && id != "" then [last] else [])
  }

  function LocalIds(local: seq<PaymentState>): seq<string> {
    seq(|local|, i requires 0 <= i < |local| => local[i].paymentId)
  }

  function RemoteIds(remote: seq<RemotePayment>): seq<string> {
    if remote == [] then []
    else
      var last := remote[|remote| - 1];
      RemoteIds(remote[..|remote| - 1]) + (if last.paymentId != "" then [last.paymentId] else [])
  }

  function PaymentIds(local: seq<PaymentState>, remote: seq<RemotePayment>): seq<string> {
    SortedSet(LocalIds(local) + RemoteIds(remote))
  }

  /** The provider rows payment by payment, in the order payments first appear. */
  function Grouped(remote: seq<RemotePayment>, ids: seq<string>): seq<RemotePayment> {
    if ids == [] then []
    else Grouped(remote, ids[..|ids| - 1]) + RemotesOf(remote, ids[|ids| - 1])
  }

  /** Later rows overwrite earlier ones in the lookup by reference; an empty reference is no key. */
  function LastWithRef(rows: seq<RemotePayment>, ref: string): Option<RemotePayment> {
    if rows == [] || ref == "" then None
    else if rows[|rows| - 1].providerRef == ref then Some(rows[|rows| - 1])
    else LastWithRef(rows[..|rows| - 1], ref)
  }

  function ByRef(remote: seq<RemotePayment>, ref: string): Option<RemotePayment> {
    LastWithRef(Grouped(remote, Distinct(RemoteIds(remote))), ref)
  }

  /** The ledger payment a settlement reference joins to. */
  function Joined(local: seq<PaymentState>, remote: seq<RemotePayment>, ref: string): Option<PaymentState> {
    match ByRef(remote, ref)
    case None => None
    case Some(r) =>
      var ls := LocalsOf(local, r.paymentId);
      if ls == [] then None else Some(ls[0])
  }

  // ----------------------------------------------------------- the settlement side

  /** n / d to the nearest integer, ties to the even one. */
  function RoundHalfEven(n: nat, d: nat): nat
    requires d > 0
  {
    var q, r := n / d, n % d;
    if 2 * r < d then q
    else if 2 * r > d then q + 1
    else if q % 2 == 0 then q else q + 1
  }

  function Magnitude(n: int): nat {
    if n < 0 then -n else n
  }

  function FeeBps(net: int, gross: int): nat {
    if gross <= 0 then 10000 else RoundHalfEven(Magnitude(net - gross) * 10000, gross)
  }

  function SettlementFinding(policy: GatePolicy, target: Option<PaymentState>, row: SettlementRow): Finding {
    match target
    case None => Drift(policy, UnknownRemoteRow).(providerRef := Some(row.pspReference), currency := Some(row.currency))
    case Some(l) =>
      if row.currency != l.currency then
        Drift(policy, CurrencyDrift).(
          paymentId := Some(l.paymentId), providerRef := Some(row.pspReference), currency := Some(l.currency))
      else
        var base := if FeeBps(row.net, l.captured) <= policy.feeToleranceBps then Info else Break;
        Drift(policy, FeeGrossNet).(
          severity := Graded(policy, FeeGrossNet, base), paymentId := Some(l.paymentId),
          providerRef := Some(row.pspReference), delta := Some(row.net - l.captured), currency := Some(l.currency))
  }

  predicate ByReference(a: SettlementRow, b: SettlementRow) {
    AtMost(a.pspReference, b.pspReference)
  }

  lemma ByReferencePreorder()
    ensures Preorder(ByReference)
  {
    AtMostPreorder();
    forall a, b ensures ByReference(a, b) || ByReference(b, a) {
      assert AtMost(a.pspReference, b.pspReference) || AtMost(b.pspReference, a.pspReference);
    }
    forall a, b, c | ByReference(a, b) && ByReference(b, c) ensures ByReference(a, c) {
    }
  }

  function SettlementFindings(
    policy: GatePolicy, local: seq<PaymentState>, remote: seq<RemotePayment>, rows: seq<SettlementRow>): seq<Finding>
  {
    if rows == [] then []
    else
      var last := rows[|rows| - 1];
      SettlementFindings(policy, local, remote, rows[..|rows| - 1]) +
      [SettlementFinding(policy, Joined(local, remote, last.pspReference), last)]
  }

  /** The reference is in the file and the row that carries it joined to a ledger payment. */
  predicate SettledRef(local: seq<PaymentState>, remote: seq<RemotePayment>, settlement: seq<SettlementRow>,
      ref: string) {
    Joined(local, remote, ref).Some? && exists row <- settlement :: row.pspReference == ref
  }

  function UnsettledFinding(
    policy: GatePolicy, id: string, ls: seq<PaymentState>, rs: seq<RemotePayment>, settled: bool,
        now: Time): seq<Finding>
  {
    if ls == [] || rs == [] || ls[0].captured <= 0 || settled || now - rs[0].createdAt <= policy.settlementSla then []
    else
      [Drift(policy, UnsettledPastSla).(
         paymentId := Some(id), providerRef := Some(rs[0].providerRef), delta := Some(ls[0].captured),
         currency := Some(ls[0].currency), age := Some(now - rs[0].createdAt))]
  }

  // -------------------------------------------------------------------- the report

  /** What a run compares. */
  datatype Inputs = Inputs(
    local: seq<PaymentState>, remote: seq<RemotePayment>, settlement: seq<SettlementRow>, parked: seq<ParkedDelivery>,
        now: Time)

  function UnknownFindings(policy: GatePolicy, remote: seq<RemotePayment>, now: Time): seq<Finding> {
    if remote == [] then []
    else
      var last := remote[|remote| - 1];
      UnknownFindings(policy, remote[..|remote| - 1], now) +
      (if last.paymentId == "" then
         [Drift(policy, UnknownRemoteRow).(
            providerRef := Some(last.providerRef), currency := Some(last.currency), age := Some(now - last.createdAt))]
       else [])
  }

  function EventSide(policy: GatePolicy, x: Inputs, ids: seq<string>): seq<Finding> {
    if ids == [] then []
    else
      var last := ids[|ids| - 1];
      EventSide(policy, x, ids[..|ids| - 1]) +
      EventFindings(policy, last, LocalsOf(x.local, last), RemotesOf(x.remote, last), x.now)
  }

  function UnsettledOf(policy: GatePolicy, x: Inputs, id: string): seq<Finding> {
    var rs := RemotesOf(x.remote, id);
    UnsettledFinding(policy, id, LocalsOf(x.local, id), rs,
                     rs != [] && SettledRef(x.local, x.remote, x.settlement, rs[0].providerRef), x.now)
  }

  function UnsettledSide(policy: GatePolicy, x: Inputs, ids: seq<string>): seq<Finding> {
    if ids == [] then []
    else UnsettledSide(policy, x, ids[..|ids| - 1]) + UnsettledOf(policy, x, ids[|ids| - 1])
  }

  function ParkedFinding(policy: GatePolicy, p: ParkedDelivery, now: Time): Finding {
    var age := now - p.receivedAt;
    Drift(policy, if age > policy.parkMaxAge then ParkedStale else InFlight).(paymentId := Some(p.paymentId),
        age := Some(age))
  }

  function ParkedFindings(policy: GatePolicy, parked: seq<ParkedDelivery>, now: Time): seq<Finding> {
    if parked == [] then []
    else ParkedFindings(policy, parked[..|parked| - 1], now) + [ParkedFinding(policy, parked[|parked| - 1], now)]
  }

  predicate ParkedOrder(a: ParkedDelivery, b: ParkedDelivery) {
    Less(a.paymentId, b.paymentId) || (a.paymentId == b.paymentId && a.receivedAt <= b.receivedAt)
  }

  /** Every finding, in the order the run meets them. */
  function RawFindings(policy: GatePolicy, x: Inputs): seq<Finding> {
    UnknownFindings(policy, x.remote, x.now)
    + EventSide(policy, x, PaymentIds(x.local, x.remote))
    + SettlementFindings(policy, x.local, x.remote, Sort(x.settlement, ByReference))
    + UnsettledSide(policy, x, SortedSet(LocalIds(x.local)))
    + ParkedFindings(policy, Sort(x.parked, ParkedOrder), x.now)
  }

  function OrEmpty(s: Option<string>): string {
    s.GetOr("")
  }

  predicate ReportOrder(a: Finding, b: Finding) {
    if SeverityOrder(a.severity) != SeverityOrder(b.severity) then SeverityOrder(a.severity) > SeverityOrder(b.severity)
    else if KindName(a.kind) != KindName(b.kind) then Less(KindName(a.kind), KindName(b.kind))
    else if OrEmpty(a.paymentId) != OrEmpty(b.paymentId) then Less(OrEmpty(a.paymentId), OrEmpty(b.paymentId))
    else AtMost(OrEmpty(a.providerRef), OrEmpty(b.providerRef))
  }

  /** The exception report: the findings, worst first. */
  function Findings(policy: GatePolicy, x: Inputs): seq<Finding> {
    Sort(RawFindings(policy, x), ReportOrder)
  }

  function OfSeverity(findings: seq<Finding>, s: Severity): seq<Finding> {
    if findings == [] then []
    else
      var last := findings[|findings| - 1];
      OfSeverity(findings[..|findings| - 1], s) + (if last.severity == s then [last] else [])
  }
}
