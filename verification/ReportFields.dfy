/** What the findings of a report say, field by field, and the order they stand in. */
module ReportFields {
  import opened Wrappers
  import opened Ordering
  import opened Sums
  import opened Model
  import opened Reconcile
  import opened ReconcileTheorems
  import opened EndToEnd

  // ----------------------------------------------------------------- which kinds, and when

  /** Both sides know the payment, in one currency. */
  predicate Comparable(ls: seq<PaymentState>, rs: seq<RemotePayment>) {
    ls != [] && rs != [] && ls[0].currency == rs[0].currency
  }

  predicate Settling(policy: GatePolicy, rs: seq<RemotePayment>, now: Time) {
    rs != [] && now - rs[0].createdAt < policy.inFlightGrace
  }

  /** When the records of a payment call for a finding of this kind. */
  predicate CalledFor(policy: GatePolicy, kind: DriftKind, ls: seq<PaymentState>, rs: seq<RemotePayment>, now: Time) {
    match kind
    case DuplicateLocal => |ls| > 1
    case DuplicateRemote => |rs| > 1
    case MissingRemotely => ls != [] && rs == []
    case MissingLocally => ls == [] && rs != [] && !Settling(policy, rs, now)
    case CurrencyDrift => ls != [] && rs != [] && ls[0].currency != rs[0].currency
    case InFlight =>
      Settling(policy, rs, now) && (ls == [] || (Comparable(ls, rs) && !Agrees(ls[0], rs[0])))
    case AmountMismatch => Comparable(ls, rs) && !Settling(policy, rs, now) && !SameNet(ls[0], rs[0])
    case PartialStateDivergence =>
      Comparable(ls, rs) && !Settling(policy, rs, now) && SameNet(ls[0], rs[0]) && !SameVector(ls[0], rs[0])
    case StatusMismatch => Comparable(ls, rs) && !Settling(policy, rs, now) && !SameStatus(ls[0], rs[0])
    case _ => false
  }

  ghost predicate Draws(findings: seq<Finding>, kind: DriftKind) {
    exists f <- findings :: f.kind == kind
  }

  lemma FewDrawn(findings: seq<Finding>, kind: DriftKind)
    requires |findings| <= 2
    ensures Draws(findings, kind) <==>
            (findings != [] && findings[0].kind == kind) || (|findings| == 2 && findings[1].kind == kind)
  {
    assert findings != [] ==> findings[0] in findings;
    assert |findings| == 2 ==> findings[1] in findings;
  }

  ghost predicate OnceEach(findings: seq<Finding>) {
    forall i, j :: 0 <= i < j < |findings| ==> findings[i].kind != findings[j].kind
  }

  lemma PairKinds(policy: GatePolicy, l: PaymentState, r: RemotePayment, now: Time, kind: DriftKind)
    requires kind !in {DuplicateLocal, DuplicateRemote}
    ensures
      var fs := PairFindings(policy, l, r, now - r.createdAt);
      && (Draws(fs, kind) <==> CalledFor(policy, kind, [l], [r], now))
      && (forall f <- fs :: f.kind !in {DuplicateLocal, DuplicateRemote}) && OnceEach(fs)
  {
    var fs := PairFindings(policy, l, r, now - r.createdAt);
    hide DeriveStatus, StatusName, Graded, DefaultSeverity, DirectionOf, Draws;
    FewDrawn(fs, kind);
  }

  lemma DuplicateKinds(policy: GatePolicy, id: string, ls: seq<PaymentState>, rs: seq<RemotePayment>, now: Time)
    ensures
      var fs := DuplicateFindings(policy, id, ls, rs, now);
      && (Draws(fs, DuplicateLocal) <==> |ls| > 1)
      && (Draws(fs, DuplicateRemote) <==> |rs| > 1)
      && (forall f <- fs :: f.kind in {DuplicateLocal, DuplicateRemote}) && OnceEach(fs)
  {
    var fs := DuplicateFindings(policy, id, ls, rs, now);
    assert fs != [] ==> fs[0] in fs;
    assert |fs| > 1 ==> fs[1] in fs;
  }

  lemma FirstKinds(
    policy: GatePolicy, id: string, ls: seq<PaymentState>, rs: seq<RemotePayment>, now: Time, kind: DriftKind)
    requires kind !in {DuplicateLocal, DuplicateRemote}
    ensures
      var fs := FirstFindings(policy, id, ls, rs, now);
      && (Draws(fs, kind) <==> CalledFor(policy, kind, ls, rs, now))
      && (forall f <- fs :: f.kind !in {DuplicateLocal, DuplicateRemote}) && OnceEach(fs)
  {
    var fs := FirstFindings(policy, id, ls, rs, now);
    hide PairFindings, Agrees, SameNet, SameVector, SameStatus;
    if ls != [] && rs != [] {
      PairKinds(policy, ls[0], rs[0], now, kind);
    } else {
      assert fs != [] ==> fs[0] in fs;
    }
  }

  /** Exactly which kinds of finding the records of a payment draw, each of them once. */
  lemma KindsExact(
    policy: GatePolicy, id: string, ls: seq<PaymentState>, rs: seq<RemotePayment>, now: Time, kind: DriftKind)
    ensures Draws(EventFindings(policy, id, ls, rs, now), kind) <==> CalledFor(policy, kind, ls, rs, now)
    ensures OnceEach(EventFindings(policy, id, ls, rs, now))
  {
    var a, b := DuplicateFindings(policy, id, ls, rs, now), FirstFindings(policy, id, ls, rs, now);
    DuplicateKinds(policy, id, ls, rs, now);
    FirstKinds(policy, id, ls, rs, now, if kind in {DuplicateLocal, DuplicateRemote} then InFlight else kind);
    hide DuplicateFindings, FirstFindings;
    assert EventFindings(policy, id, ls, rs, now) == a + b;
    assert forall f :: f in a + b <==> f in a || f in b;
    var both: seq<Finding> := a + b;
    forall i, j | 0 <= i < j < |both| ensures both[i].kind != both[j].kind {
      assert i < |a| ==> both[i] in a;
      assert j >= |a| ==> both[j] in b;
    }
  }

  // --------------------------------------------------------------------- what they say

  /** The status named is known, and earlier than the ledger's. */
  ghost predicate BehindLedger(l: PaymentState, name: string) {
    exists s: Status :: StatusName(s) == name && StatusRank(s) < StatusRank(DeriveStatus(l))
  }

  ghost predicate AheadOfLedger(l: PaymentState, name: string) {
    exists s: Status :: StatusName(s) == name && StatusRank(s) > StatusRank(DeriveStatus(l))
  }

  /** A finding points at the side that is ahead, if it is about statuses and one is. */
  ghost predicate PointsRight(f: Finding, ls: seq<PaymentState>, rs: seq<RemotePayment>) {
    && (f.direction == LocalAhead <==>
          f.kind == StatusMismatch && ls != [] && rs != [] && BehindLedger(ls[0], rs[0].status))
    && (f.direction == RemoteAhead <==>
          f.kind == StatusMismatch && ls != [] && rs != [] && AheadOfLedger(ls[0], rs[0].status))
  }

  lemma PairDirections(policy: GatePolicy, l: PaymentState, r: RemotePayment, age: Time)
    ensures forall f <- PairFindings(policy, l, r, age) :: PointsRight(f, [l], [r])
  {
    DirectionExact(DeriveStatus(l), r.status);
    hide DirectionOf, DeriveStatus, StatusName, StatusRank, Graded;
  }

  /** The kinds of finding that measure a gap. */
  predicate Measures(kind: DriftKind, ls: seq<PaymentState>) {
    kind in {MissingRemotely, MissingLocally, AmountMismatch, PartialStateDivergence} || (kind == InFlight && ls == [])
  }

  /** The fields of an event-side finding, from the records it is about. */
  predicate Describes(f: Finding, id: string, ls: seq<PaymentState>, rs: seq<RemotePayment>, now: Time) {
    && (ls != [] || rs != [])
    && f.paymentId == Some(id)
    && f.providerRef == (if rs == [] then None else Some(rs[0].providerRef))
    && (f.kind == DuplicateRemote ==> rs != [])
    && f.currency ==
         Some(if ls == [] || (f.kind == DuplicateRemote && rs != []) then rs[0].currency else ls[0].currency)
    && f.age == (if rs == [] || f.kind == DuplicateLocal then None else Some(now - rs[0].createdAt))
    && f.delta == (if !Measures(f.kind, ls) then None
                   else if ls == [] then Some(RemoteNet(rs))
                   else Some(LocalNet(ls) - RemoteNet(rs)))
  }

  lemma PairDescribed(policy: GatePolicy, l: PaymentState, r: RemotePayment, now: Time)
    ensures forall f <- PairFindings(policy, l, r, now - r.createdAt) :: Describes(f, l.paymentId, [l], [r], now)
  {
    hide DirectionOf, DeriveStatus, StatusName, Graded;
  }

  lemma DuplicatesDescribed(policy: GatePolicy, id: string, ls: seq<PaymentState>, rs: seq<RemotePayment>, now: Time)
    ensures forall f <- DuplicateFindings(policy, id, ls, rs, now) ::
              Describes(f, id, ls, rs, now) && f.direction == NoDirection
  {
  }

  lemma FirstsDecide(f: Finding, id: string, ls: seq<PaymentState>, rs: seq<RemotePayment>, now: Time)
    requires ls != [] && rs != []
    ensures Describes(f, id, ls, rs, now) <==> Describes(f, id, [ls[0]], [rs[0]], now)
    ensures PointsRight(f, ls, rs) <==> PointsRight(f, [ls[0]], [rs[0]])
  {
    hide BehindLedger, AheadOfLedger;
  }

  lemma FirstDescribed(policy: GatePolicy, id: string, ls: seq<PaymentState>, rs: seq<RemotePayment>, now: Time)
    requires ls != [] ==> ls[0].paymentId == id
    ensures forall f <- FirstFindings(policy, id, ls, rs, now) ::
              Describes(f, id, ls, rs, now) && PointsRight(f, ls, rs)
  {
    hide PairFindings, BehindLedger, AheadOfLedger;
    if ls != [] && rs != [] {
      PairDescribed(policy, ls[0], rs[0], now);
      PairDirections(policy, ls[0], rs[0], now - rs[0].createdAt);
      forall f | f in PairFindings(policy, ls[0], rs[0], now - rs[0].createdAt)
        ensures Describes(f, id, ls, rs, now) && PointsRight(f, ls, rs)
      {
        FirstsDecide(f, id, ls, rs, now);
      }
    } else {
      var fs := FirstFindings(policy, id, ls, rs, now);
      assert |fs| <= 1 && (fs != [] ==> Describes(fs[0], id, ls, rs, now) && PointsRight(fs[0], ls, rs));
    }
  }

  /** Every event-side finding says what its records say, and points at the side that is ahead. */
  lemma EventFields(policy: GatePolicy, id: string, ls: seq<PaymentState>, rs: seq<RemotePayment>, now: Time)
    requires ls != [] ==> ls[0].paymentId == id
    ensures forall f <- EventFindings(policy, id, ls, rs, now) ::
              Describes(f, id, ls, rs, now) && PointsRight(f, ls, rs)
  {
    DuplicatesDescribed(policy, id, ls, rs, now);
    FirstDescribed(policy, id, ls, rs, now);
    DuplicateKinds(policy, id, ls, rs, now);
    hide DuplicateFindings, FirstFindings, Describes, BehindLedger, AheadOfLedger;
    var a, b := DuplicateFindings(policy, id, ls, rs, now), FirstFindings(policy, id, ls, rs, now);
    assert EventFindings(policy, id, ls, rs, now) == a + b;
  }

  /** The rate of a settlement row in basis points of the capture: to the nearest, ties to even; the whole of
      it when nothing was captured. */
  lemma FeeBpsExact(net: int, gross: int, q: nat)
    ensures gross <= 0 ==> FeeBps(net, gross) == 10000
    ensures gross > 0 ==>
      var n := 10000 * Magnitude(net - gross);
      q == FeeBps(net, gross) <==>
      2 * Magnitude(n - q * gross) < gross || (2 * Magnitude(n - q * gross) == gross && q % 2 == 0)
  {
    if gross > 0 {
      NearestEven(Magnitude(net - gross) * 10000, gross, q);
    }
  }

  /** The finding of a settlement row: nothing to join to, another currency, or the gap to the capture, which is
      a break when the rate is above the tolerance. */
  lemma RowFields(policy: GatePolicy, x: Inputs, row: SettlementRow)
    ensures
      var f, target := RowFinding(policy, x, row), Joined(x.local, x.remote, row.pspReference);
      && f.providerRef == Some(row.pspReference) && f.direction == NoDirection && f.age == None
      && f.kind in {UnknownRemoteRow, CurrencyDrift, FeeGrossNet}
      && (f.kind == UnknownRemoteRow <==> target == None)
      && (target == None ==> f.paymentId == None && f.currency == Some(row.currency) && f.delta == None)
      && (target.Some? ==>
            && f.paymentId == Some(target.value.paymentId) && f.currency == Some(target.value.currency)
            && (f.kind == CurrencyDrift <==> row.currency != target.value.currency)
            && f.delta == (if f.kind == CurrencyDrift then None else Some(row.net - target.value.captured))
            && (f.kind == FeeGrossNet && FeeGrossNet !in policy.overrides ==>
                  f.severity ==
                  (if FeeBps(row.net, target.value.captured) > policy.feeToleranceBps then Break else Info)))
  {
    hide Joined, FeeBps;
  }

  /** The finding of a captured payment past the settlement limit. */
  lemma {:induction false} UnsettledFields(policy: GatePolicy, x: Inputs, id: string, f: Finding)
    requires f in UnsettledOf(policy, x, id)
    ensures LocalsOf(x.local, id) != [] && RemotesOf(x.remote, id) != []
    ensures
      var l, r := LocalsOf(x.local, id)[0], RemotesOf(x.remote, id)[0];
      && f.kind == UnsettledPastSla && f.direction == NoDirection && f.paymentId == Some(id)
      && f.providerRef == Some(r.providerRef) && f.delta == Some(l.captured) && f.currency == Some(l.currency)
      && f.age == Some(x.now - r.createdAt) && UnsettledOf(policy, x, id) == [f]
  {
    hide SettledRef;
  }

  /** The finding of a parked delivery: stale beyond the limit, in flight until then. */
  lemma ParkedFields(policy: GatePolicy, p: ParkedDelivery, now: Time)
    ensures
      var f := ParkedFinding(policy, p, now);
      && f.paymentId == Some(p.paymentId) && f.age == Some(now - p.receivedAt)
      && (f.kind == ParkedStale <==> now - p.receivedAt > policy.parkMaxAge) && f.kind in {ParkedStale, InFlight}
      && f.direction == NoDirection && f.providerRef == f.currency == None && f.delta == None
  {
  }

  function Anonymous(r: RemotePayment): int {
    if r.paymentId == "" then 1 else 0
  }

  /** Every provider row without a payment id draws one finding, and nothing else does. */
  lemma {:induction false} UnknownExact(policy: GatePolicy, remote: seq<RemotePayment>, now: Time)
    ensures |UnknownFindings(policy, remote, now)| == Sum(remote, Anonymous)
    ensures forall f :: f in UnknownFindings(policy, remote, now) <==>
              exists r <- remote :: r.paymentId == "" && f == Finding(
                UnknownRemoteRow, Graded(policy, UnknownRemoteRow, Warn), NoDirection, None, Some(r.providerRef), None,
                Some(r.currency), Some(now - r.createdAt))
    decreases |remote|
  {
    hide Graded;
    if remote != [] {
      var front, last := remote[..|remote| - 1], remote[|remote| - 1];
      UnknownExact(policy, front, now);
      SumSnoc(front, last, Anonymous);
      assert remote == front + [last];
    }
  }

  // ------------------------------------------------------------------------- severities

  /** The shipped grading: what stops the line, what is a break, what is worth a look, what is ordinary. */
  lemma ShippedGrades(kind: DriftKind)
    ensures DefaultSeverity(kind) == Critical <==> kind in {MissingLocally, DuplicateRemote, CurrencyDrift}
    ensures DefaultSeverity(kind) == Break <==>
            kind in {MissingRemotely, DuplicateLocal, AmountMismatch, StatusMismatch, UnsettledPastSla, ParkedStale}
    ensures DefaultSeverity(kind) == Warn <==> kind in {PartialStateDivergence, UnknownRemoteRow}
    ensures DefaultSeverity(kind) == Info <==> kind in {InFlight, FeeGrossNet}
  {
  }

  /** The severity a finding of this kind may have. */
  predicate GradedAs(policy: GatePolicy, f: Finding) {
    if f.kind in policy.overrides then f.severity == policy.overrides[f.kind]
    else f.severity == DefaultSeverity(f.kind) || (f.kind == FeeGrossNet && f.severity == Break)
  }

  lemma EventGrades(policy: GatePolicy, id: string, ls: seq<PaymentState>, rs: seq<RemotePayment>, now: Time)
    ensures forall f <- EventFindings(policy, id, ls, rs, now) :: GradedAs(policy, f)
  {
    forall l: PaymentState, r: RemotePayment, age: Time, f: Finding | f in PairFindings(policy, l, r, age)
      ensures GradedAs(policy, f) {
    }
    hide PairFindings;
    assert forall f <- DuplicateFindings(policy, id, ls, rs, now) :: GradedAs(policy, f);
    assert forall f <- FirstFindings(policy, id, ls, rs, now) :: GradedAs(policy, f);
  }

  /** An override decides the severity of every finding of its kind, in every report, and of no other. */
  lemma OverridesDecide(policy: GatePolicy, x: Inputs, f: Finding)
    requires f in Findings(policy, x)
    ensures GradedAs(policy, f)
  {
    hide Findings, EventFindings, UnsettledOf, Joined, FeeBps, LocalsOf, RemotesOf, UnknownFindings;
    ReportMembers(policy, x, f);
    UnknownExact(policy, x.remote, x.now);
    forall id ensures f in EventsOf(policy, x, id) ==> GradedAs(policy, f) {
      EventGrades(policy, id, LocalsOf(x.local, id), RemotesOf(x.remote, id), x.now);
    }
    forall id ensures f in UnsettledOf(policy, x, id) ==> GradedAs(policy, f) {
      UnsettledGraded(policy, x, id);
    }
  }

  lemma UnsettledGraded(policy: GatePolicy, x: Inputs, id: string)
    ensures forall f <- UnsettledOf(policy, x, id) :: GradedAs(policy, f)
  {
  }

  // ------------------------------------------------------------------------- directions

  /** The same of a whole report: it points at the ledger exactly where a status mismatch names a known,
      earlier status at the provider, and at the provider where it names a later one. */
  lemma ReportDirections(policy: GatePolicy, x: Inputs, f: Finding)
    requires f in Findings(policy, x)
    ensures f.direction != NoDirection ==> f.kind == StatusMismatch
    ensures f.kind == StatusMismatch ==> f.paymentId.Some?
    ensures f.kind == StatusMismatch ==>
      var ls, rs := LocalsOf(x.local, f.paymentId.value), RemotesOf(x.remote, f.paymentId.value);
      && ls != [] && rs != []
      && (f.direction == LocalAhead <==> BehindLedger(ls[0], rs[0].status))
      && (f.direction == RemoteAhead <==> AheadOfLedger(ls[0], rs[0].status))
  {
    hide Findings, EventFindings, UnsettledOf, Joined, FeeBps, LocalsOf, RemotesOf, UnknownFindings, BehindLedger,
      AheadOfLedger;
    ReportMembers(policy, x, f);
    UnknownExact(policy, x.remote, x.now);
    if id :| f in EventsOf(policy, x, id) && (LocalsOf(x.local, id) != [] || RemotesOf(x.remote, id) != []) {
      EventPoints(policy, x, id, f);
    } else if id :| f in UnsettledOf(policy, x, id) {
      UnsettledFields(policy, x, id, f);
    }
  }

  lemma {:induction false} EventPoints(policy: GatePolicy, x: Inputs, id: string, f: Finding)
    requires f in EventsOf(policy, x, id)
    ensures f.paymentId == Some(id) && PointsRight(f, LocalsOf(x.local, id), RemotesOf(x.remote, id))
    ensures f.kind == StatusMismatch ==> LocalsOf(x.local, id) != [] && RemotesOf(x.remote, id) != []
  {
    var ls, rs := LocalsOf(x.local, id), RemotesOf(x.remote, id);
    LocalsMembers(x.local, id);
    assert ls != [] ==> ls[0] in ls;
    hide LocalsOf, RemotesOf, EventFindings, BehindLedger, AheadOfLedger;
    EventFields(policy, id, ls, rs, x.now);
    KindsExact(policy, id, ls, rs, x.now, StatusMismatch);
  }

  // ---------------------------------------------------------------------------- the order

  lemma SeveritiesInOrder()
    ensures SeverityOrder(Info) < SeverityOrder(Warn) < SeverityOrder(Break) < SeverityOrder(Critical)
  {
  }

  predicate NamedBefore(a: DriftKind, b: DriftKind) {
    Less(KindName(a), KindName(b))
  }

  lemma FirstLetter(a: DriftKind, b: DriftKind)
    requires KindName(a) != "" && KindName(b) != "" && KindName(a)[0] < KindName(b)[0]
    ensures NamedBefore(a, b)
  {
    hide KindName, Less;
    assert KindName(a)[..0] == KindName(b)[..0];
    FirstDifference(KindName(a), KindName(b), 0);
  }

  lemma {:induction false} SharedStart(start: string, x: string, y: string)
    requires x != "" && y != "" && x[0] < y[0]
    ensures Less(start + x, start + y)
  {
    assert (start + x)[..|start|] == start == (start + y)[..|start|];
    FirstDifference(start + x, start + y, |start|);
  }

  /** The kinds in the order of their names. */
  lemma KindsByName()
    ensures NamedBefore(AmountMismatch, CurrencyDrift) && NamedBefore(CurrencyDrift, DuplicateLocal)
    ensures NamedBefore(DuplicateLocal, DuplicateRemote) && NamedBefore(DuplicateRemote, FeeGrossNet)
    ensures NamedBefore(FeeGrossNet, InFlight) && NamedBefore(InFlight, MissingLocally)
    ensures NamedBefore(MissingLocally, MissingRemotely) && NamedBefore(MissingRemotely, ParkedStale)
    ensures NamedBefore(ParkedStale, PartialStateDivergence) && NamedBefore(PartialStateDivergence, StatusMismatch)
    ensures NamedBefore(StatusMismatch, UnknownRemoteRow) && NamedBefore(UnknownRemoteRow, UnsettledPastSla)
  {
    hide Less;
    FirstLetter(AmountMismatch, CurrencyDrift);
    FirstLetter(CurrencyDrift, DuplicateLocal);
    FirstLetter(DuplicateRemote, FeeGrossNet);
    FirstLetter(FeeGrossNet, InFlight);
    FirstLetter(InFlight, MissingLocally);
    FirstLetter(MissingRemotely, ParkedStale);
    FirstLetter(PartialStateDivergence, StatusMismatch);
    FirstLetter(StatusMismatch, UnknownRemoteRow);
    SharedStart("duplicate_", "local", "remote");
    SharedStart("missing_", "locally", "remotely");
    SharedStart("par", "ked_stale", "tial_state_divergence");
    SharedStart("un", "known_remote_row", "settled_past_sla");
    NamesAsWritten();
    LaterNamesAsWritten();
  }

  lemma NamesAsWritten()
    ensures KindName(DuplicateLocal) == "duplicate_" + "local" && KindName(DuplicateRemote) == "duplicate_" + "remote"
    ensures KindName(MissingLocally) == "missing_" + "locally" && KindName(MissingRemotely) == "missing_" + "remotely"
  {
  }

  lemma LaterNamesAsWritten()
    ensures KindName(ParkedStale) == "par" + "ked_stale"
    ensures KindName(PartialStateDivergence) == "par" + "tial_state_divergence"
    ensures KindName(UnknownRemoteRow) == "un" + "known_remote_row"
    ensures KindName(UnsettledPastSla) == "un" + "settled_past_sla"
  {
  }

  /** The order a reader meets the findings in: worst severity first, then by the name of the kind, then by
      payment id, then by provider reference, a missing one before any other. */
  lemma ReportOrdered(policy: GatePolicy, x: Inputs, i: nat, j: nat)
    requires i < j < |Findings(policy, x)|
    ensures
      var a, b := Findings(policy, x)[i], Findings(policy, x)[j];
      && SeverityOrder(a.severity) >= SeverityOrder(b.severity)
      && (a.severity == b.severity ==> AtMost(KindName(a.kind), KindName(b.kind)))
      && (a.severity == b.severity && a.kind == b.kind ==> AtMost(a.paymentId.GetOr(""), b.paymentId.GetOr("")))
      && (a.severity == b.severity && a.kind == b.kind && a.paymentId == b.paymentId ==>
            AtMost(a.providerRef.GetOr(""), b.providerRef.GetOr("")))
  {
    hide RawFindings, Less, KindName;
    ReportOrderPreorder();
    SortSorts(RawFindings(policy, x), ReportOrder);
    var a, b := Findings(policy, x)[i], Findings(policy, x)[j];
    assert ReportOrder(a, b);
    LessTotal(KindName(a.kind), KindName(b.kind));
    LessTotal(a.paymentId.GetOr(""), b.paymentId.GetOr(""));
  }

  lemma {:induction false} LevelConcat(a: seq<Finding>, b: seq<Finding>, f: Finding)
    ensures Level(a + b, ReportOrder, f) == Level(a, ReportOrder, f) + Level(b, ReportOrder, f)
  {
    hide ReportOrder;
    if a == [] {
      assert a + b == b;
    } else {
      assert (a + b)[1..] == a[1..] + b;
      LevelConcat(a[1..], b, f);
    }
  }

  /** Findings that agree in all four keep the order they were raised in: the provider's anonymous rows, the
      payments, the settlement file, the settlement limit, the parked deliveries. */
  lemma {:induction false} ReportStable(policy: GatePolicy, x: Inputs, f: Finding)
    ensures
      Level(Findings(policy, x), ReportOrder, f) ==
      Level(UnknownFindings(policy, x.remote, x.now), ReportOrder, f)
      + Level(EventSide(policy, x, PaymentIds(x.local, x.remote)), ReportOrder, f)
      + Level(SettlementFindings(policy, x.local, x.remote, Sort(x.settlement, ByReference)), ReportOrder, f)
      + Level(UnsettledSide(policy, x, SortedSet(LocalIds(x.local))), ReportOrder, f)
      + Level(ParkedFindings(policy, Sort(x.parked, ParkedOrder), x.now), ReportOrder, f)
  {
    ReportOrderPreorder();
    SortStable(RawFindings(policy, x), ReportOrder, f);
    var a, b := UnknownFindings(policy, x.remote, x.now), EventSide(policy, x, PaymentIds(x.local, x.remote));
    var c := SettlementFindings(policy, x.local, x.remote, Sort(x.settlement, ByReference));
    var d := UnsettledSide(policy, x, SortedSet(LocalIds(x.local)));
    var e := ParkedFindings(policy, Sort(x.parked, ParkedOrder), x.now);
    hide Level, Sort, UnknownFindings, EventSide, SettlementFindings, UnsettledSide, ParkedFindings, ReportOrder,
      SortedSet;
    LevelConcat(a + b + c + d, e, f);
    LevelConcat(a + b + c, d, f);
    LevelConcat(a + b, c, f);
    LevelConcat(a, b, f);
  }

  /** The settlement file is taken in the order of its references, and the parked deliveries by payment and then
      by age. */
  lemma TakenInOrder(x: Inputs, i: nat, j: nat)
    ensures
      var rows := Sort(x.settlement, ByReference);
      i < j < |rows| ==> AtMost(rows[i].pspReference, rows[j].pspReference)
    ensures
      var rows := Sort(x.parked, ParkedOrder);
      i < j < |rows| ==>
        && AtMost(rows[i].paymentId, rows[j].paymentId)
        && (rows[i].paymentId == rows[j].paymentId ==> rows[i].receivedAt <= rows[j].receivedAt)
  {
    ByReferencePreorder();
    SortSorts(x.settlement, ByReference);
    ParkedOrderPreorder();
    SortSorts(x.parked, ParkedOrder);
    var rows := Sort(x.parked, ParkedOrder);
    hide Less, Sort;
    if i < j < |rows| {
      assert ParkedOrder(rows[i], rows[j]);
      LessTotal(rows[i].paymentId, rows[j].paymentId);
    }
  }

  // ---------------------------------------------------------------------------- the joins

  /** The records of an id are taken in the order they are listed. */
  lemma {:induction false} LocalsInOrder(a: seq<PaymentState>, b: seq<PaymentState>, id: string)
    ensures LocalsOf(a + b, id) == LocalsOf(a, id) + LocalsOf(b, id)
    decreases |b|
  {
    if b == [] {
      assert a + b == a;
    } else {
      LocalsInOrder(a, b[..|b| - 1], id);
      assert (a + b)[..|a + b| - 1] == a + b[..|b| - 1];
    }
  }

  lemma {:induction false} RemotesInOrder(a: seq<RemotePayment>, b: seq<RemotePayment>, id: string)
    ensures RemotesOf(a + b, id) == RemotesOf(a, id) + RemotesOf(b, id)
    decreases |b|
  {
    if b == [] {
      assert a + b == a;
    } else {
      RemotesInOrder(a, b[..|b| - 1], id);
      assert (a + b)[..|a + b| - 1] == a + b[..|b| - 1];
    }
  }

  /** So the record a comparison is made on is the first one listed for its id. */
  lemma {:induction false} FirstRecordDecides(before: seq<PaymentState>, l: PaymentState, rest: seq<PaymentState>)
    requires forall k <- before :: k.paymentId != l.paymentId
    ensures LocalsOf(before + [l] + rest, l.paymentId) != []
    ensures LocalsOf(before + [l] + rest, l.paymentId)[0] == l
  {
    NoLocals(before, l.paymentId);
    LocalsInOrder(before + [l], rest, l.paymentId);
    LocalsInOrder(before, [l], l.paymentId);
    assert [l][..0] == [];
  }

  lemma {:induction false} NoListings(remote: seq<RemotePayment>, id: string)
    requires forall r <- remote :: r.paymentId != id
    ensures RemotesOf(remote, id) == []
    decreases |remote|
  {
    if remote != [] {
      NoListings(remote[..|remote| - 1], id);
    }
  }

  lemma {:induction false} FirstListingDecides(before: seq<RemotePayment>, r: RemotePayment, rest: seq<RemotePayment>)
    requires r.paymentId != "" && forall k <- before :: k.paymentId != r.paymentId
    ensures RemotesOf(before + [r] + rest, r.paymentId) != []
    ensures RemotesOf(before + [r] + rest, r.paymentId)[0] == r
  {
    NoListings(before, r.paymentId);
    RemotesInOrder(before + [r], rest, r.paymentId);
    RemotesInOrder(before, [r], r.paymentId);
    assert [r][..0] == [];
  }
}
