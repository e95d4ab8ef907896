/** What the breaks of a run add up to, from its inputs: how many there are, and the exposure they make in
    each currency. */
module Materiality {
  import opened Ordering
  import opened Sums
  import opened Model
  import opened Reconcile
  import opened ReconcileTheorems
  import opened Gate
  import opened EndToEnd

  // ---------------------------------------------------- a sum over the breaks of a report

  /** A weight that only breaks have. */
  function OnBreaks(weight: Finding -> int): Finding -> int {
    (f: Finding) => if f.severity == Break then weight(f) else 0
  }

  lemma {:induction false} SumOfBreaks(findings: seq<Finding>, weight: Finding -> int)
    ensures Sum(OfSeverity(findings, Break), weight) == Sum(findings, OnBreaks(weight))
    decreases |findings|
  {
    if findings != [] {
      var front, last := findings[..|findings| - 1], findings[|findings| - 1];
      SumOfBreaks(front, weight);
      assert findings == front + [last];
      SumSnoc(front, last, OnBreaks(weight));
      if last.severity == Break {
        SumSnoc(OfSeverity(front, Break), last, weight);
      } else {
        assert OfSeverity(front, Break) + [] == OfSeverity(front, Break);
      }
    }
  }

  lemma SumOne<T>(x: T, f: T -> int)
    ensures Sum([x], f) == f(x)
  {
    assert [x][1..] == [];
  }

  // ------------------------------------------------------------ the parts of a report

  function EventTerm(policy: GatePolicy, x: Inputs, weight: Finding -> int): string -> int {
    (id: string) => Sum(EventsOf(policy, x, id), weight)
  }

  function RowTerm(policy: GatePolicy, x: Inputs, weight: Finding -> int): SettlementRow -> int {
    (row: SettlementRow) => weight(RowFinding(policy, x, row))
  }

  function UnsettledTerm(policy: GatePolicy, x: Inputs, weight: Finding -> int): string -> int {
    (id: string) => Sum(UnsettledOf(policy, x, id), weight)
  }

  function ParkedTerm(policy: GatePolicy, now: Time, weight: Finding -> int): ParkedDelivery -> int {
    (p: ParkedDelivery) => weight(ParkedFinding(policy, p, now))
  }

  lemma {:induction false} EventSum(policy: GatePolicy, x: Inputs, ids: seq<string>, weight: Finding -> int)
    ensures Sum(EventSide(policy, x, ids), weight) == Sum(ids, EventTerm(policy, x, weight))
    decreases |ids|
  {
    hide EventsOf;
    if ids != [] {
      var front, last := ids[..|ids| - 1], ids[|ids| - 1];
      EventSideSplit(policy, x, ids);
      hide EventSide;
      EventSum(policy, x, front, weight);
      SumConcat(EventSide(policy, x, front), EventsOf(policy, x, last), weight);
      SumSnoc(front, last, EventTerm(policy, x, weight));
      assert ids == front + [last];
    }
  }

  lemma {:induction false} RowSum(policy: GatePolicy, x: Inputs, rows: seq<SettlementRow>, weight: Finding -> int)
    ensures Sum(SettlementFindings(policy, x.local, x.remote, rows), weight) == Sum(rows, RowTerm(policy, x, weight))
    decreases |rows|
  {
    hide SettlementFinding, Joined;
    if rows != [] {
      var front, last := rows[..|rows| - 1], rows[|rows| - 1];
      RowSum(policy, x, front, weight);
      SumSnoc(SettlementFindings(policy, x.local, x.remote, front), RowFinding(policy, x, last), weight);
      SumSnoc(front, last, RowTerm(policy, x, weight));
      assert rows == front + [last];
    }
  }

  lemma {:induction false} UnsettledSum(policy: GatePolicy, x: Inputs, ids: seq<string>, weight: Finding -> int)
    ensures Sum(UnsettledSide(policy, x, ids), weight) == Sum(ids, UnsettledTerm(policy, x, weight))
    decreases |ids|
  {
    hide UnsettledOf;
    if ids != [] {
      var front, last := ids[..|ids| - 1], ids[|ids| - 1];
      UnsettledSum(policy, x, front, weight);
      SumConcat(UnsettledSide(policy, x, front), UnsettledOf(policy, x, last), weight);
      SumSnoc(front, last, UnsettledTerm(policy, x, weight));
      assert ids == front + [last];
    }
  }

  lemma {:induction false} ParkedSum(policy: GatePolicy, parked: seq<ParkedDelivery>, now: Time, weight: Finding -> int)
    ensures Sum(ParkedFindings(policy, parked, now), weight) == Sum(parked, ParkedTerm(policy, now, weight))
    decreases |parked|
  {
    hide ParkedFinding;
    if parked != [] {
      var front, last := parked[..|parked| - 1], parked[|parked| - 1];
      ParkedSum(policy, front, now, weight);
      SumSnoc(ParkedFindings(policy, front, now), ParkedFinding(policy, last, now), weight);
      SumSnoc(front, last, ParkedTerm(policy, now, weight));
      assert parked == front + [last];
    }
  }

  /** The payments of the ledger, each once. */
  function LedgerIds(x: Inputs): seq<string> {
    SortedSet(LocalIds(x.local))
  }

  /** A sum over the parts a run raises its findings in, none of them sorted. */
  function Parts(policy: GatePolicy, x: Inputs, weight: Finding -> int): int {
    Sum(PaymentIds(x.local, x.remote), EventTerm(policy, x, weight))
    + Sum(x.settlement, RowTerm(policy, x, weight))
    + Sum(LedgerIds(x), UnsettledTerm(policy, x, weight))
    + Sum(x.parked, ParkedTerm(policy, x.now, weight))
  }

  lemma {:induction false} SortedRowSum(policy: GatePolicy, x: Inputs, weight: Finding -> int)
    ensures Sum(SettlementFindings(policy, x.local, x.remote, Sort(x.settlement, ByReference)), weight) ==
            Sum(x.settlement, RowTerm(policy, x, weight))
  {
    hide Sort, SettlementFindings;
    RowSum(policy, x, Sort(x.settlement, ByReference), weight);
    ByReferencePreorder();
    SortSorts(x.settlement, ByReference);
    SumPermutation(Sort(x.settlement, ByReference), x.settlement, RowTerm(policy, x, weight));
  }

  lemma {:induction false} SortedParkedSum(policy: GatePolicy, x: Inputs, weight: Finding -> int)
    ensures Sum(ParkedFindings(policy, Sort(x.parked, ParkedOrder), x.now), weight) ==
            Sum(x.parked, ParkedTerm(policy, x.now, weight))
  {
    hide Sort, ParkedFindings;
    ParkedSum(policy, Sort(x.parked, ParkedOrder), x.now, weight);
    ParkedOrderPreorder();
    SortSorts(x.parked, ParkedOrder);
    SumPermutation(Sort(x.parked, ParkedOrder), x.parked, ParkedTerm(policy, x.now, weight));
  }

  lemma {:induction false} UnknownSum(policy: GatePolicy, x: Inputs, weight: Finding -> int)
    requires Shipped(policy)
    ensures Sum(UnknownFindings(policy, x.remote, x.now), OnBreaks(weight)) == 0
  {
    hide UnknownFindings;
    UnknownMembers(policy, x.remote, x.now);
    SumZero(UnknownFindings(policy, x.remote, x.now), OnBreaks(weight));
  }

  lemma {:induction false} FiveParts(
    a: seq<Finding>, b: seq<Finding>, c: seq<Finding>, d: seq<Finding>, e: seq<Finding>, weight: Finding -> int)
    ensures Sum(a + b + c + d + e, weight) ==
            Sum(a, weight) + Sum(b, weight) + Sum(c, weight) + Sum(d, weight) + Sum(e, weight)
  {
    SumConcat(a + b + c + d, e, weight);
    SumConcat(a + b + c, d, weight);
    SumConcat(a + b, c, weight);
    SumConcat(a, b, weight);
  }

  /** Whatever is added up over the breaks of a report is added up over the inputs. */
  lemma {:induction false} BreaksByParts(policy: GatePolicy, x: Inputs, weight: Finding -> int)
    requires Shipped(policy)
    ensures Sum(OfSeverity(Findings(policy, x), Break), weight) == Parts(policy, x, OnBreaks(weight))
  {
    var g := OnBreaks(weight);
    hide Findings, OfSeverity, OnBreaks, Sum, UnknownFindings, EventSide, SettlementFindings, UnsettledSide,
      ParkedFindings, Sort, PaymentIds, SortedSet, EventTerm, RowTerm, UnsettledTerm, ParkedTerm;
    SumOfBreaks(Findings(policy, x), weight);
    ReportIsThePermutation(policy, x);
    SumPermutation(Findings(policy, x), RawFindings(policy, x), g);
    FiveParts(UnknownFindings(policy, x.remote, x.now), EventSide(policy, x, PaymentIds(x.local, x.remote)),
              SettlementFindings(policy, x.local, x.remote, Sort(x.settlement, ByReference)),
              UnsettledSide(policy, x, LedgerIds(x)), ParkedFindings(policy, Sort(x.parked, ParkedOrder), x.now), g);
    UnknownSum(policy, x, weight);
    EventSum(policy, x, PaymentIds(x.local, x.remote), g);
    SortedRowSum(policy, x, g);
    UnsettledSum(policy, x, LedgerIds(x), g);
    SortedParkedSum(policy, x, g);
  }

  // ------------------------------------------------------------ breaks from the inputs

  /** Both sides know the payment, in one currency, for longer than the grace window. */
  predicate Compared(policy: GatePolicy, ls: seq<PaymentState>, rs: seq<RemotePayment>, now: Time) {
    ls != [] && rs != [] && ls[0].currency == rs[0].currency && now - rs[0].createdAt >= policy.inFlightGrace
  }

  function OneIf(b: bool): int {
    if b then 1 else 0
  }

  /** How many breaks the records of one payment make: two in the ledger, none at the provider, another net
      position, another status. */
  function PairBreaks(policy: GatePolicy, ls: seq<PaymentState>, rs: seq<RemotePayment>, now: Time): int {
    OneIf(|ls| > 1) + OneIf(ls != [] && rs == [])
    + OneIf(Compared(policy, ls, rs, now) && !SameNet(ls[0], rs[0]))
    + OneIf(Compared(policy, ls, rs, now) && !SameStatus(ls[0], rs[0]))
  }

  /** The gap between the two net positions, where it counts towards this currency. */
  function PairExposure(policy: GatePolicy, ls: seq<PaymentState>, rs: seq<RemotePayment>, now: Time, currency: string):
      int {
    if ls != [] && ls[0].currency == currency && (rs == [] || Compared(policy, ls, rs, now)) then
      Magnitude(LocalNet(ls) - RemoteNet(rs))
    else 0
  }

  /** A settlement row for a ledger payment, in its currency, whose fee is more than tolerated. */
  predicate FeeBreak(policy: GatePolicy, x: Inputs, row: SettlementRow) {
    var target := Joined(x.local, x.remote, row.pspReference);
    && target.Some? && row.currency == target.value.currency
    && FeeBps(row.net, target.value.captured) > policy.feeToleranceBps
  }

  function RowExposure(policy: GatePolicy, x: Inputs, row: SettlementRow, currency: string): int {
    if FeeBreak(policy, x, row) && row.currency == currency then
      Magnitude(row.net - Joined(x.local, x.remote, row.pspReference).value.captured)
    else 0
  }

  /** Captured, known to the provider, past the limit, and not settled. */
  predicate PastLimit(policy: GatePolicy, x: Inputs, id: string) {
    var ls, rs := LocalsOf(x.local, id), RemotesOf(x.remote, id);
    && ls != [] && rs != [] && ls[0].captured > 0 && x.now - rs[0].createdAt > policy.settlementSla
    && !SettledRef(x.local, x.remote, x.settlement, rs[0].providerRef)
  }

  function LimitExposure(policy: GatePolicy, x: Inputs, id: string, currency: string): int {
    if PastLimit(policy, x, id) && LocalsOf(x.local, id)[0].currency == currency then LocalsOf(x.local, id)[0].captured
    else 0
  }

  predicate TooOld(policy: GatePolicy, p: ParkedDelivery, now: Time) {
    now - p.receivedAt > policy.parkMaxAge
  }

  function BreakCount(policy: GatePolicy, x: Inputs): int {
    Sum(PaymentIds(x.local, x.remote),
        (id: string) => PairBreaks(policy, LocalsOf(x.local, id), RemotesOf(x.remote, id), x.now))
    + Sum(x.settlement, (row: SettlementRow) => OneIf(FeeBreak(policy, x, row)))
    + Sum(LedgerIds(x), (id: string) => OneIf(PastLimit(policy, x, id)))
    + Sum(x.parked, (p: ParkedDelivery) => OneIf(TooOld(policy, p, x.now)))
  }

  function ExposureIn(policy: GatePolicy, x: Inputs, currency: string): int {
    Sum(PaymentIds(x.local, x.remote),
        (id: string) => PairExposure(policy, LocalsOf(x.local, id), RemotesOf(x.remote, id), x.now, currency))
    + Sum(x.settlement, (row: SettlementRow) => RowExposure(policy, x, row, currency))
    + Sum(LedgerIds(x), (id: string) => LimitExposure(policy, x, id, currency))
  }

  // ------------------------------------------------------- each part, weighed in closed form

  function One(): Finding -> int {
    (f: Finding) => 1
  }

  lemma {:induction false} SumOfOnes(findings: seq<Finding>)
    ensures Sum(findings, One()) == |findings|
  {
    if findings != [] {
      SumOfOnes(findings[1..]);
    }
  }

  lemma NothingSums(weight: Finding -> int)
    ensures Sum([], weight) == 0
  {
  }

  lemma {:induction false} DuplicateWeights(
    policy: GatePolicy, id: string, ls: seq<PaymentState>, rs: seq<RemotePayment>, now: Time, currency: string)
    requires Shipped(policy)
    ensures
      var fs := DuplicateFindings(policy, id, ls, rs, now);
      && Sum(fs, OnBreaks(One())) == OneIf(|ls| > 1) && Sum(fs, OnBreaks(AbsIn(currency))) == 0
  {
    var fs := DuplicateFindings(policy, id, ls, rs, now);
    SumZero(fs, OnBreaks(AbsIn(currency)));
    if |ls| > 1 {
      assert fs == [fs[0]] + fs[1..] && fs[0].severity == Break;
      SumZero(fs[1..], OnBreaks(One()));
    } else {
      SumZero(fs, OnBreaks(One()));
    }
  }

  lemma {:induction false} PairWeights(policy: GatePolicy, l: PaymentState, r: RemotePayment, now: Time,
      currency: string)
    requires Shipped(policy) && currency != ""
    ensures
      var fs := PairFindings(policy, l, r, now - r.createdAt);
      && Sum(fs, OnBreaks(One())) == PairBreaks(policy, [l], [r], now)
      && Sum(fs, OnBreaks(AbsIn(currency))) == PairExposure(policy, [l], [r], now, currency)
  {
    var fs := PairFindings(policy, l, r, now - r.createdAt);
    hide Sum;
    NothingSums(OnBreaks(One()));
    NothingSums(OnBreaks(AbsIn(currency)));
    if |fs| == 1 {
      assert fs == [fs[0]];
      SumOne(fs[0], OnBreaks(One()));
      SumOne(fs[0], OnBreaks(AbsIn(currency)));
    } else if |fs| == 2 {
      assert fs == [fs[0]] + [fs[1]];
      SumOne(fs[0], OnBreaks(One()));
      SumOne(fs[0], OnBreaks(AbsIn(currency)));
      SumSnoc([fs[0]], fs[1], OnBreaks(One()));
      SumSnoc([fs[0]], fs[1], OnBreaks(AbsIn(currency)));
    }
  }

  lemma {:induction false} FirstWeights(policy: GatePolicy, id: string, ls: seq<PaymentState>, rs: seq<RemotePayment>,
      now: Time, currency: string)
    requires Shipped(policy) && currency != ""
    ensures
      var fs := FirstFindings(policy, id, ls, rs, now);
      && Sum(fs, OnBreaks(One())) == PairBreaks(policy, ls, rs, now) - OneIf(|ls| > 1)
      && Sum(fs, OnBreaks(AbsIn(currency))) == PairExposure(policy, ls, rs, now, currency)
  {
    var fs := FirstFindings(policy, id, ls, rs, now);
    hide Sum, PairFindings;
    if ls != [] && rs != [] {
      PairWeights(policy, ls[0], rs[0], now, currency);
    } else if fs == [] {
      NothingSums(OnBreaks(One()));
      NothingSums(OnBreaks(AbsIn(currency)));
    } else {
      assert fs == [fs[0]];
      SumOne(fs[0], OnBreaks(One()));
      SumOne(fs[0], OnBreaks(AbsIn(currency)));
    }
  }

  /** The event side of one payment, weighed from its records. */
  lemma {:induction false} EventWeights(policy: GatePolicy, x: Inputs, id: string, currency: string)
    requires Shipped(policy) && currency != ""
    ensures
      var ls, rs := LocalsOf(x.local, id), RemotesOf(x.remote, id);
      && Sum(EventsOf(policy, x, id), OnBreaks(One())) == PairBreaks(policy, ls, rs, x.now)
      && Sum(EventsOf(policy, x, id), OnBreaks(AbsIn(currency))) == PairExposure(policy, ls, rs, x.now, currency)
  {
    var ls, rs := LocalsOf(x.local, id), RemotesOf(x.remote, id);
    hide LocalsOf, RemotesOf, Sum, DuplicateFindings, FirstFindings, PairBreaks, PairExposure, OnBreaks;
    DuplicateWeights(policy, id, ls, rs, x.now, currency);
    FirstWeights(policy, id, ls, rs, x.now, currency);
    var a, b := DuplicateFindings(policy, id, ls, rs, x.now), FirstFindings(policy, id, ls, rs, x.now);
    SumConcat(a, b, OnBreaks(One()));
    SumConcat(a, b, OnBreaks(AbsIn(currency)));
  }

  lemma RowWeights(policy: GatePolicy, x: Inputs, row: SettlementRow, currency: string)
    requires Shipped(policy) && currency != ""
    ensures OnBreaks(One())(RowFinding(policy, x, row)) == OneIf(FeeBreak(policy, x, row))
    ensures OnBreaks(AbsIn(currency))(RowFinding(policy, x, row)) == RowExposure(policy, x, row, currency)
  {
    hide Joined, FeeBps;
  }

  lemma {:induction false} LimitWeights(policy: GatePolicy, x: Inputs, id: string, currency: string)
    requires Shipped(policy) && currency != ""
    ensures Sum(UnsettledOf(policy, x, id), OnBreaks(One())) == OneIf(PastLimit(policy, x, id))
    ensures Sum(UnsettledOf(policy, x, id), OnBreaks(AbsIn(currency))) == LimitExposure(policy, x, id, currency)
  {
    hide LocalsOf, RemotesOf, SettledRef, Sum;
    var fs := UnsettledOf(policy, x, id);
    if fs == [] {
      NothingSums(OnBreaks(One()));
      NothingSums(OnBreaks(AbsIn(currency)));
    } else {
      assert fs == [fs[0]];
      SumOne(fs[0], OnBreaks(One()));
      SumOne(fs[0], OnBreaks(AbsIn(currency)));
    }
  }

  lemma ParkWeights(policy: GatePolicy, p: ParkedDelivery, now: Time, currency: string)
    requires Shipped(policy)
    ensures OnBreaks(One())(ParkedFinding(policy, p, now)) == OneIf(TooOld(policy, p, now))
    ensures OnBreaks(AbsIn(currency))(ParkedFinding(policy, p, now)) == 0
  {
  }

  // ------------------------------------------------------------------ the whole report

  /** How many breaks a run reports. */
  lemma {:induction false} BreaksCounted(policy: GatePolicy, x: Inputs)
    requires Shipped(policy)
    ensures |OfSeverity(Findings(policy, x), Break)| == BreakCount(policy, x)
  {
    hide Findings, OfSeverity, Sum, PaymentIds, LedgerIds, OnBreaks, EventsOf, UnsettledOf, RowFinding,
      ParkedFinding, PairBreaks, FeeBreak, PastLimit, TooOld, LocalsOf, RemotesOf;
    var g := OnBreaks(One());
    SumOfOnes(OfSeverity(Findings(policy, x), Break));
    BreaksByParts(policy, x, One());
    forall id
      ensures EventTerm(policy, x, g)(id) == PairBreaks(policy, LocalsOf(x.local, id), RemotesOf(x.remote, id), x.now)
    {
      EventWeights(policy, x, id, "EUR");
    }
    SumSame(PaymentIds(x.local, x.remote), EventTerm(policy, x, g),
            (id: string) => PairBreaks(policy, LocalsOf(x.local, id), RemotesOf(x.remote, id), x.now));
    forall row ensures RowTerm(policy, x, g)(row) == OneIf(FeeBreak(policy, x, row)) {
      RowWeights(policy, x, row, "EUR");
    }
    SumSame(x.settlement, RowTerm(policy, x, g), (row: SettlementRow) => OneIf(FeeBreak(policy, x, row)));
    forall id ensures UnsettledTerm(policy, x, g)(id) == OneIf(PastLimit(policy, x, id)) {
      LimitWeights(policy, x, id, "EUR");
    }
    SumSame(LedgerIds(x), UnsettledTerm(policy, x, g), (id: string) => OneIf(PastLimit(policy, x, id)));
    forall p ensures ParkedTerm(policy, x.now, g)(p) == OneIf(TooOld(policy, p, x.now)) {
      ParkWeights(policy, p, x.now, "EUR");
    }
    SumSame(x.parked, ParkedTerm(policy, x.now, g), (p: ParkedDelivery) => OneIf(TooOld(policy, p, x.now)));
  }

  /** The exposure a run's breaks make in a currency. */
  lemma {:induction false} ExposureCounted(policy: GatePolicy, x: Inputs, currency: string)
    requires Shipped(policy) && currency != ""
    ensures Exposure(OfSeverity(Findings(policy, x), Break), currency) == ExposureIn(policy, x, currency)
  {
    hide Findings, OfSeverity, Sum, PaymentIds, LedgerIds, OnBreaks, EventsOf, UnsettledOf, RowFinding,
      ParkedFinding, PairExposure, RowExposure, LimitExposure, LocalsOf, RemotesOf, AbsIn;
    var g := OnBreaks(AbsIn(currency));
    BreaksByParts(policy, x, AbsIn(currency));
    forall id
      ensures EventTerm(policy, x, g)(id) ==
              PairExposure(policy, LocalsOf(x.local, id), RemotesOf(x.remote, id), x.now, currency)
    {
      EventWeights(policy, x, id, currency);
    }
    SumSame(PaymentIds(x.local, x.remote), EventTerm(policy, x, g),
            (id: string) => PairExposure(policy, LocalsOf(x.local, id), RemotesOf(x.remote, id), x.now, currency));
    forall row ensures RowTerm(policy, x, g)(row) == RowExposure(policy, x, row, currency) {
      RowWeights(policy, x, row, currency);
    }
    SumSame(x.settlement, RowTerm(policy, x, g), (row: SettlementRow) => RowExposure(policy, x, row, currency));
    forall id ensures UnsettledTerm(policy, x, g)(id) == LimitExposure(policy, x, id, currency) {
      LimitWeights(policy, x, id, currency);
    }
    SumSame(LedgerIds(x), UnsettledTerm(policy, x, g), (id: string) => LimitExposure(policy, x, id, currency));
    forall p ensures ParkedTerm(policy, x.now, g)(p) == 0 {
      ParkWeights(policy, p, x.now, currency);
    }
    SumZero(x.parked, ParkedTerm(policy, x.now, g));
  }

  lemma {:induction false} SomePositive<T>(xs: seq<T>, f: T -> int) returns (x: T)
    requires Sum(xs, f) > 0
    ensures x in xs && f(x) > 0
  {
    if f(xs[0]) > 0 {
      x := xs[0];
    } else {
      x := SomePositive(xs[1..], f);
    }
  }

  /** Whether a run's breaks are material, from its inputs: they are many enough, or those of one currency add
      up to enough. */
  lemma {:induction false} MaterialExactly(policy: GatePolicy, x: Inputs)
    requires Shipped(policy)
    ensures MaterialRun(policy, x) <==>
            || BreakCount(policy, x) >= policy.materialityCount
            || exists currency :: currency != "" && ExposureIn(policy, x, currency) > 0
                 && ExposureIn(policy, x, currency) >= policy.materialityValue
  {
    hide Findings, OfSeverity, BreakCount, ExposureIn, Sum;
    var breaks := OfSeverity(Findings(policy, x), Break);
    BreaksCounted(policy, x);
    if f :| f in breaks && Measured(f) && Exposure(breaks, f.currency.value) >= policy.materialityValue {
      OwnExposure(breaks, f);
      ExposureCounted(policy, x, f.currency.value);
    }
    if currency :| currency != "" && ExposureIn(policy, x, currency) > 0
                   && ExposureIn(policy, x, currency) >= policy.materialityValue {
      ExposureCounted(policy, x, currency);
      var f := SomePositive(breaks, AbsIn(currency));
    }
  }
}
