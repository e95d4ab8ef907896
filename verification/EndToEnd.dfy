/** From the inputs of a reconciliation to the ids its gate blocks. */
module EndToEnd {
  import opened Wrappers
  import opened Ordering
  import opened Sums
  import opened Model
  import opened Reconcile
  import opened ReconcileTheorems
  import opened Gate
  import opened GateTheorems

  // --------------------------------------------------- what a run raises, in any order

  lemma {:induction false} UnknownMembers(policy: GatePolicy, remote: seq<RemotePayment>, now: Time)
    ensures forall f <- UnknownFindings(policy, remote, now) ::
              f.paymentId == None && f.severity == Graded(policy, UnknownRemoteRow, Warn) && f.kind == UnknownRemoteRow
    decreases |remote|
  {
    if remote != [] {
      UnknownMembers(policy, remote[..|remote| - 1], now);
    }
  }

  lemma {:induction false} EventSideMembers(policy: GatePolicy, x: Inputs, ids: seq<string>, f: Finding)
    ensures f in EventSide(policy, x, ids) <==> exists id <- ids :: f in EventsOf(policy, x, id)
    decreases |ids|
  {
    hide EventFindings, LocalsOf, RemotesOf;
    if ids != [] {
      EventSideMembers(policy, x, ids[..|ids| - 1], f);
      var own := EventsOf(policy, x, ids[|ids| - 1]);
      assert EventSide(policy, x, ids) == EventSide(policy, x, ids[..|ids| - 1]) + own;
      assert ids == ids[..|ids| - 1] + [ids[|ids| - 1]];
    }
  }

  lemma {:induction false} UnsettledSideMembers(policy: GatePolicy, x: Inputs, ids: seq<string>, f: Finding)
    ensures f in UnsettledSide(policy, x, ids) <==> exists id <- ids :: f in UnsettledOf(policy, x, id)
    decreases |ids|
  {
    hide UnsettledOf;
    if ids != [] {
      UnsettledSideMembers(policy, x, ids[..|ids| - 1], f);
      assert ids == ids[..|ids| - 1] + [ids[|ids| - 1]];
    }
  }

  function RowFinding(policy: GatePolicy, x: Inputs, row: SettlementRow): Finding {
    SettlementFinding(policy, Joined(x.local, x.remote, row.pspReference), row)
  }

  lemma {:induction false} SettlementMembers(policy: GatePolicy, x: Inputs, rows: seq<SettlementRow>, f: Finding)
    ensures f in SettlementFindings(policy, x.local, x.remote, rows) <==>
          exists row <- rows :: f == RowFinding(policy, x, row)
    decreases |rows|
  {
    hide SettlementFinding, Joined;
    if rows != [] {
      SettlementMembers(policy, x, rows[..|rows| - 1], f);
      var own := RowFinding(policy, x, rows[|rows| - 1]);
      assert SettlementFindings(policy, x.local, x.remote, rows) ==
             SettlementFindings(policy, x.local, x.remote, rows[..|rows| - 1]) + [own];
      assert rows == rows[..|rows| - 1] + [rows[|rows| - 1]];
    }
  }

  lemma {:induction false} ParkedMembers(policy: GatePolicy, parked: seq<ParkedDelivery>, now: Time, f: Finding)
    ensures f in ParkedFindings(policy, parked, now) <==> exists p <- parked :: f == ParkedFinding(policy, p, now)
    decreases |parked|
  {
    hide ParkedFinding;
    if parked != [] {
      ParkedMembers(policy, parked[..|parked| - 1], now, f);
      assert parked == parked[..|parked| - 1] + [parked[|parked| - 1]];
    }
  }

  lemma ParkedOrderPreorder()
    ensures Preorder(ParkedOrder)
  {
    forall a, b ensures ParkedOrder(a, b) || ParkedOrder(b, a) {
      LessTotal(a.paymentId, b.paymentId);
    }
    forall a, b, c | ParkedOrder(a, b) && ParkedOrder(b, c) ensures ParkedOrder(a, c) {
      LexTransitive(a.paymentId, b.paymentId, c.paymentId);
    }
  }

  /** What a finding that carries a payment id is about. */
  ghost predicate RaisedFor(policy: GatePolicy, x: Inputs, f: Finding) {
    || (exists id :: (LocalsOf(x.local, id) != [] || RemotesOf(x.remote, id) != []) && f in EventsOf(policy, x, id))
    || (exists row <- x.settlement :: f == RowFinding(policy, x, row))
    || (exists id :: f in UnsettledOf(policy, x, id))
    || (exists p <- x.parked :: f == ParkedFinding(policy, p, x.now))
  }

  /** A report holds nothing but the anonymous provider rows and what RaisedFor lists, and all of it. */
  lemma {:induction false} ReportMembers(policy: GatePolicy, x: Inputs, f: Finding)
    ensures f in Findings(policy, x) <==> f in UnknownFindings(policy, x.remote, x.now) || RaisedFor(policy, x, f)
  {
    hide EventsOf, UnsettledOf, UnknownFindings, EventSide, SettlementFindings, UnsettledSide, ParkedFindings, Findings,
      RowFinding, ParkedFinding, LocalsOf, RemotesOf, Sort, PaymentIds, ByReference, ParkedOrder;
    ReportIsThePermutation(policy, x);
    PaymentIdsMembers(x);
    EventSideMembers(policy, x, PaymentIds(x.local, x.remote), f);
    ByReferencePreorder();
    SortMembers(x.settlement, ByReference);
    SettlementMembers(policy, x, Sort(x.settlement, ByReference), f);
    LedgerIdsListed(x);
    UnsettledSideMembers(policy, x, SortedSet(LocalIds(x.local)), f);
    forall id | f in UnsettledOf(policy, x, id) ensures LocalsOf(x.local, id) != [] {
      UnsettledInLedger(policy, x, id);
    }
    ParkedOrderPreorder();
    SortMembers(x.parked, ParkedOrder);
    ParkedMembers(policy, Sort(x.parked, ParkedOrder), x.now, f);
  }

  lemma {:induction false} UnsettledInLedger(policy: GatePolicy, x: Inputs, id: string)
    requires UnsettledOf(policy, x, id) != []
    ensures LocalsOf(x.local, id) != []
  {
  }

  // ------------------------------------------------ which payments have which severity

  /** The shipped severities: none overridden. */
  predicate Shipped(policy: GatePolicy) {
    policy.overrides == map[]
  }

  ghost predicate IdsPresent(x: Inputs) {
    (forall l <- x.local :: l.paymentId != "") && (forall p <- x.parked :: p.paymentId != "")
  }

  ghost predicate Has(findings: seq<Finding>, id: string, s: Severity) {
    exists f <- findings :: f.paymentId == Some(id) && f.severity == s
  }

  /** Money the ledger cannot account for: two provider records, none of ours for one that is past the
      grace window, or two currencies. */
  predicate CriticalPair(policy: GatePolicy, ls: seq<PaymentState>, rs: seq<RemotePayment>, now: Time) {
    rs != [] && (|rs| > 1 || (if ls == [] then now - rs[0].createdAt >= policy.inFlightGrace else ls[0].currency != rs[0].currency))
  }

  predicate SameNet(l: PaymentState, r: RemotePayment) {
    l.authorized == r.authorized && l.captured - l.refunded == r.captured - r.refunded
  }

  /** A process break: two ledger records, none at the provider, or a divergence past the grace window
      that is more than a different split of the same net position. */
  predicate BreakPair(policy: GatePolicy, ls: seq<PaymentState>, rs: seq<RemotePayment>, now: Time) {
    || |ls| > 1
    || (ls != [] && rs == [])
    || (ls != [] && rs != [] && ls[0].currency == rs[0].currency && now - rs[0].createdAt >= policy.inFlightGrace
        && (!SameNet(ls[0], rs[0]) || !SameStatus(ls[0], rs[0])))
  }

  lemma PairSeverities(policy: GatePolicy, l: PaymentState, r: RemotePayment, age: Time)
    requires Shipped(policy)
    ensures (exists f <- PairFindings(policy, l, r, age) :: f.severity == Critical) <==> l.currency != r.currency
    ensures (exists f <- PairFindings(policy, l, r, age) :: f.severity == Break) <==>
            l.currency == r.currency && age >= policy.inFlightGrace && (!SameNet(l, r) || !SameStatus(l, r))
  {
    var fs := PairFindings(policy, l, r, age);
    assert fs != [] ==> fs[0] in fs;
    assert |fs| > 1 ==> fs[1] in fs;
    if l.currency == r.currency && age >= policy.inFlightGrace {
      if !SameVector(l, r) {
        assert fs[0].severity == if SameNet(l, r) then Warn else Break;
        assert !SameStatus(l, r) ==> fs[1].severity == Break;
      } else if !SameStatus(l, r) {
        assert fs[0].severity == Break;
      }
    }
  }

  lemma DuplicateSeverities(policy: GatePolicy, id: string, ls: seq<PaymentState>, rs: seq<RemotePayment>, now: Time)
    requires Shipped(policy)
    ensures (exists f <- DuplicateFindings(policy, id, ls, rs, now) :: f.severity == Critical) <==> |rs| > 1
    ensures (exists f <- DuplicateFindings(policy, id, ls, rs, now) :: f.severity == Break) <==> |ls| > 1
  {
    var fs := DuplicateFindings(policy, id, ls, rs, now);
    assert fs != [] ==> fs[0] in fs;
    assert |fs| > 1 ==> fs[1] in fs;
  }

  lemma LoneSeverities(policy: GatePolicy, id: string, ls: seq<PaymentState>, rs: seq<RemotePayment>, now: Time)
    requires Shipped(policy) && |ls| <= 1 && |rs| <= 1 && (ls == [] || rs == [])
    ensures (exists f <- FirstFindings(policy, id, ls, rs, now) :: f.severity == Critical) <==>
          CriticalPair(policy, ls, rs, now)
    ensures (exists f <- FirstFindings(policy, id, ls, rs, now) :: f.severity == Break) <==>
          BreakPair(policy, ls, rs, now)
  {
    hide PairFindings;
    var fs := FirstFindings(policy, id, ls, rs, now);
    assert fs != [] ==> fs[0] in fs;
  }

  lemma PairedSeverities(policy: GatePolicy, id: string, l: PaymentState, r: RemotePayment, now: Time)
    requires Shipped(policy)
    ensures FirstFindings(policy, id, [l], [r], now) == PairFindings(policy, l, r, now - r.createdAt)
    ensures (exists f <- PairFindings(policy, l, r, now - r.createdAt) :: f.severity == Critical) <==>
            CriticalPair(policy, [l], [r], now)
    ensures (exists f <- PairFindings(policy, l, r, now - r.createdAt) :: f.severity == Break) <==>
          BreakPair(policy, [l], [r], now)
  {
    hide PairFindings, SameNet, SameStatus, Drift;
    PairSeverities(policy, l, r, now - r.createdAt);
  }

  lemma FirstSeverities(policy: GatePolicy, id: string, ls: seq<PaymentState>, rs: seq<RemotePayment>, now: Time)
    requires Shipped(policy) && |ls| <= 1 && |rs| <= 1
    ensures (exists f <- FirstFindings(policy, id, ls, rs, now) :: f.severity == Critical) <==>
          CriticalPair(policy, ls, rs, now)
    ensures (exists f <- FirstFindings(policy, id, ls, rs, now) :: f.severity == Break) <==>
          BreakPair(policy, ls, rs, now)
  {
    if ls == [] || rs == [] {
      LoneSeverities(policy, id, ls, rs, now);
    } else {
      hide PairFindings, FirstFindings, CriticalPair, BreakPair;
      PairedSeverities(policy, id, ls[0], rs[0], now);
      assert ls == [ls[0]] && rs == [rs[0]];
    }
  }

  /** The event side, from the records: exactly when a payment draws a critical finding or a break. */
  lemma EventSeverities(policy: GatePolicy, id: string, ls: seq<PaymentState>, rs: seq<RemotePayment>, now: Time)
    requires Shipped(policy)
    ensures (exists f <- EventFindings(policy, id, ls, rs, now) :: f.severity == Critical) <==>
          CriticalPair(policy, ls, rs, now)
    ensures (exists f <- EventFindings(policy, id, ls, rs, now) :: f.severity == Break) <==>
          BreakPair(policy, ls, rs, now)
  {
    hide DuplicateFindings, FirstFindings;
    DuplicateSeverities(policy, id, ls, rs, now);
    var firstLs, firstRs := if ls == [] then [] else [ls[0]], if rs == [] then [] else [rs[0]];
    assert FirstFindings(policy, id, ls, rs, now) == FirstFindings(policy, id, firstLs, firstRs, now) by {
      OnlyFirstsCount(policy, id, ls, rs, now);
    }
    FirstSeverities(policy, id, firstLs, firstRs, now);
    var a, b := DuplicateFindings(policy, id, ls, rs, now), FirstFindings(policy, id, ls, rs, now);
    assert forall f :: f in a + b <==> f in a || f in b;
  }

  lemma OnlyFirstsCount(policy: GatePolicy, id: string, ls: seq<PaymentState>, rs: seq<RemotePayment>, now: Time)
    ensures FirstFindings(policy, id, ls, rs, now) ==
            FirstFindings(policy, id, if ls == [] then [] else [ls[0]], if rs == [] then [] else [rs[0]], now)
  {
  }

  // ------------------------------------------- the other three sources of a severity

  /** A settlement row that joins to the payment, in another currency. */
  ghost predicate WrongCurrencyRow(x: Inputs, id: string) {
    exists row <- x.settlement ::
      var target := Joined(x.local, x.remote, row.pspReference);
      target.Some? && target.value.paymentId == id && row.currency != target.value.currency
  }

  /** A settlement row that joins to the payment, whose net is further from the capture than allowed. */
  ghost predicate FeeBeyondTolerance(policy: GatePolicy, x: Inputs, id: string) {
    exists row <- x.settlement ::
      var target := Joined(x.local, x.remote, row.pspReference);
      && target.Some? && target.value.paymentId == id && row.currency == target.value.currency
      && FeeBps(row.net, target.value.captured) > policy.feeToleranceBps
  }

  ghost predicate StalePark(policy: GatePolicy, x: Inputs, id: string) {
    exists p <- x.parked :: p.paymentId == id && x.now - p.receivedAt > policy.parkMaxAge
  }

  ghost predicate CriticalDrift(policy: GatePolicy, x: Inputs, id: string) {
    CriticalPair(policy, LocalsOf(x.local, id), RemotesOf(x.remote, id), x.now) || WrongCurrencyRow(x, id)
  }

  ghost predicate BreakDrift(policy: GatePolicy, x: Inputs, id: string) {
    || BreakPair(policy, LocalsOf(x.local, id), RemotesOf(x.remote, id), x.now)
    || FeeBeyondTolerance(policy, x, id) || UnsettledOf(policy, x, id) != [] || StalePark(policy, x, id)
  }

  /** A finding that may block names the payment whose records, rows or deliveries raised it. */
  lemma BlockingFindingHasCause(policy: GatePolicy, x: Inputs, f: Finding)
    requires Shipped(policy) && f in Findings(policy, x) && (f.severity == Critical || f.severity == Break)
    ensures f.paymentId.Some?
    ensures if f.severity == Critical then CriticalDrift(policy, x, f.paymentId.value) else BreakDrift(policy, x, f.paymentId.value)
  {
    hide EventFindings, CriticalPair, BreakPair, Findings, LocalsOf, RemotesOf, Joined, FeeBps;
    ReportMembers(policy, x, f);
    UnknownMembers(policy, x.remote, x.now);
    if id :| f in EventsOf(policy, x, id) {
      EventsOwned(policy, x, id);
      EventSeverities(policy, id, LocalsOf(x.local, id), RemotesOf(x.remote, id), x.now);
    } else if row :| row in x.settlement && f == RowFinding(policy, x, row) {
    } else if id :| f in UnsettledOf(policy, x, id) {
      UnsettledOwned(policy, x, id);
    } else {
      var p :| p in x.parked && f == ParkedFinding(policy, p, x.now);
    }
  }

  /** Every cause on the event side is reported. */
  lemma {:induction false} EventCauseReported(policy: GatePolicy, x: Inputs, id: string)
    requires Shipped(policy)
    ensures CriticalPair(policy, LocalsOf(x.local, id), RemotesOf(x.remote, id), x.now) ==> Has(Findings(policy, x), id, Critical)
    ensures BreakPair(policy, LocalsOf(x.local, id), RemotesOf(x.remote, id), x.now) ==> Has(Findings(policy, x), id, Break)
  {
    hide Findings, EventFindings, LocalsOf, RemotesOf;
    EventsOwned(policy, x, id);
    EventSeverities(policy, id, LocalsOf(x.local, id), RemotesOf(x.remote, id), x.now);
    forall f | f in EventsOf(policy, x, id) && (LocalsOf(x.local, id) != [] || RemotesOf(x.remote, id) != [])
      ensures f in Findings(policy, x) && f.paymentId == Some(id) {
      ReportMembers(policy, x, f);
    }
  }

  /** Every cause in the settlement file is reported. */
  lemma RowCauseReported(policy: GatePolicy, x: Inputs, id: string)
    requires Shipped(policy)
    ensures WrongCurrencyRow(x, id) ==> Has(Findings(policy, x), id, Critical)
    ensures FeeBeyondTolerance(policy, x, id) ==> Has(Findings(policy, x), id, Break)
  {
    hide Findings, Joined, FeeBps;
    forall row | row in x.settlement ensures RowFinding(policy, x, row) in Findings(policy, x) {
      ReportMembers(policy, x, RowFinding(policy, x, row));
    }
  }

  /** So are the settlement limit and the parked deliveries. */
  lemma WaitingCauseReported(policy: GatePolicy, x: Inputs, id: string)
    requires Shipped(policy)
    ensures UnsettledOf(policy, x, id) != [] || StalePark(policy, x, id) ==> Has(Findings(policy, x), id, Break)
  {
    hide Findings, LocalsOf, RemotesOf, SettledRef;
    if UnsettledOf(policy, x, id) != [] {
      var f := UnsettledOf(policy, x, id)[0];
      assert f in UnsettledOf(policy, x, id);
      UnsettledOwned(policy, x, id);
      ReportMembers(policy, x, f);
    }
    forall p | p in x.parked ensures ParkedFinding(policy, p, x.now) in Findings(policy, x) {
      ReportMembers(policy, x, ParkedFinding(policy, p, x.now));
    }
  }

  /** Exactly when a payment draws a critical finding, and exactly when it draws a break. */
  lemma SeveritiesExact(policy: GatePolicy, x: Inputs, id: string)
    requires Shipped(policy)
    ensures Has(Findings(policy, x), id, Critical) <==> CriticalDrift(policy, x, id)
    ensures Has(Findings(policy, x), id, Break) <==> BreakDrift(policy, x, id)
  {
    hide Findings, CriticalPair, BreakPair, WrongCurrencyRow, FeeBeyondTolerance, StalePark, UnsettledOf;
    EventCauseReported(policy, x, id);
    RowCauseReported(policy, x, id);
    WaitingCauseReported(policy, x, id);
    forall f | f in Findings(policy, x) && f.paymentId == Some(id) && (f.severity == Critical || f.severity == Break)
      ensures if f.severity == Critical then CriticalDrift(policy, x, id) else BreakDrift(policy, x, id) {
      BlockingFindingHasCause(policy, x, f);
    }
  }

  // -------------------------------------------------------------------- the gate

  /** Whether this run's breaks are material. */
  ghost predicate MaterialRun(policy: GatePolicy, x: Inputs) {
    Material(policy, OfSeverity(Findings(policy, x), Break))
  }

  lemma CauseHasId(policy: GatePolicy, x: Inputs, id: string)
    requires IdsPresent(x) && (CriticalDrift(policy, x, id) || BreakDrift(policy, x, id))
    ensures id != ""
  {
    LocalsMembers(x.local, id);
    RemotesMembers(x.remote, id);
    hide LocalsOf, RemotesOf;
    var ls, rs := LocalsOf(x.local, id), RemotesOf(x.remote, id);
    assert ls != [] ==> ls[0] in ls;
    assert rs != [] ==> rs[0] in rs;
    forall row | row in x.settlement && Joined(x.local, x.remote, row.pspReference).Some?
      ensures Joined(x.local, x.remote, row.pspReference).value in x.local {
      JoinedInLedger(x, row.pspReference);
    }
    hide Joined;
  }

  lemma JoinedInLedger(x: Inputs, ref: string)
    requires Joined(x.local, x.remote, ref).Some?
    ensures Joined(x.local, x.remote, ref).value in x.local
  {
    var r := ByRef(x.remote, ref).value;
    LocalsMembers(x.local, r.paymentId);
    assert LocalsOf(x.local, r.paymentId)[0] in LocalsOf(x.local, r.paymentId);
  }

  lemma ReportNamed(policy: GatePolicy, x: Inputs)
    requires Shipped(policy) && policy.scope == PaymentScope && IdsPresent(x)
    ensures Named(policy, Findings(policy, x))
    ensures forall f <- Findings(policy, x) :: f.severity == Critical || f.severity == Break ==> f.paymentId.GetOr("") != ""
  {
    hide Findings, CriticalDrift, BreakDrift, Material;
    forall f | f in Findings(policy, x) && (f.severity == Critical || f.severity == Break)
        ensures f.paymentId.GetOr("") != "" {
      BlockingFindingHasCause(policy, x, f);
      CauseHasId(policy, x, f.paymentId.value);
    }
  }

  /** From inputs to decision: with the shipped severities and the payment scope, the gate over a
      run's report blocks exactly the payments with a critical cause, and when the run's breaks are
      material those with a break cause, less the ids a live break glass names. */
  lemma BlocksExactlyDrift(policy: GatePolicy, x: Inputs, at: Time)
    requires Shipped(policy) && policy.scope == PaymentScope && IdsPresent(x)
    ensures
      var decision := Decide(Findings(policy, x), policy, at);
      && (forall id :: id in decision.blockedIds <==>
            && (CriticalDrift(policy, x, id) || (MaterialRun(policy, x) && BreakDrift(policy, x, id)))
            && !(Live(policy.breakGlass, at) && id in policy.breakGlass.value.scopeIds))
      && (decision.outboundBlocked <==> decision.blockedIds != [])
  {
    hide Findings, CriticalDrift, BreakDrift, Material, Decide;
    ReportNamed(policy, x);
    BlockedExactly(Findings(policy, x), policy, at);
    forall id ensures
      (id != "" && exists f <- Findings(policy, x) :: Blocks(policy, Findings(policy, x), f) && f.paymentId == Some(id)) <==>
      CriticalDrift(policy, x, id) || (MaterialRun(policy, x) && BreakDrift(policy, x, id))
    {
      SeveritiesExact(policy, x, id);
      if CriticalDrift(policy, x, id) || BreakDrift(policy, x, id) {
        CauseHasId(policy, x, id);
      }
    }
  }

  lemma {:induction false} NoLocals(local: seq<PaymentState>, id: string)
    requires forall l <- local :: l.paymentId != id
    ensures LocalsOf(local, id) == []
    decreases |local|
  {
    if local != [] {
      NoLocals(local[..|local| - 1], id);
    }
  }

  /** A provider payment past the grace window that the ledger has no record of is always blocked. */
  lemma MissingAlwaysBlocked(policy: GatePolicy, x: Inputs, r: RemotePayment, at: Time)
    requires Shipped(policy) && policy.scope == PaymentScope
    requires r in x.remote && r.paymentId != "" && x.now - r.createdAt >= policy.inFlightGrace
    requires forall l <- x.local :: l.paymentId != r.paymentId
    requires !(Live(policy.breakGlass, at) && r.paymentId in policy.breakGlass.value.scopeIds)
    ensures r.paymentId in Decide(Findings(policy, x), policy, at).blockedIds
    ensures Decide(Findings(policy, x), policy, at).outboundBlocked
  {
    hide Findings, Decide, LocalsOf, RemotesOf, Material;
    var ls, rs := LocalsOf(x.local, r.paymentId), RemotesOf(x.remote, r.paymentId);
    NoLocals(x.local, r.paymentId);
    RemotesMembers(x.remote, r.paymentId);
    assert r in rs && rs[0] in rs;
    assert CriticalPair(policy, ls, rs, x.now);
    EventCauseReported(policy, x, r.paymentId);
    BlockedExactly(Findings(policy, x), policy, at);
  }

  /** The three sources agree on a payment: one record on each side with equal currency, amounts and
      derived status; the settlement rows with its reference in its currency and within tolerance, one
      of them there once it is captured and past the limit; no delivery of it parked too long. */
  ghost predicate AgreesEverywhere(policy: GatePolicy, x: Inputs, id: string) {
    var ls, rs := LocalsOf(x.local, id), RemotesOf(x.remote, id);
    && |ls| == 1 && |rs| == 1 && Agrees(ls[0], rs[0])
    && (forall row <- x.settlement :: row.pspReference == rs[0].providerRef ==>
          row.currency == ls[0].currency && FeeBps(row.net, ls[0].captured) <= policy.feeToleranceBps)
    && (SettlementDue(policy, ls[0], rs[0], x.now) ==>
          rs[0].providerRef != "" && exists row <- x.settlement :: row.pspReference == rs[0].providerRef)
    && !StalePark(policy, x, id)
  }

  predicate SettlementDue(policy: GatePolicy, l: PaymentState, r: RemotePayment, now: Time) {
    l.captured > 0 && now - r.createdAt > policy.settlementSla
  }

  /** Its settlement is due, and the one provider row that the lookup keeps for its reference belongs to
      a payment the ledger does not hold. */
  ghost predicate Shadowed(policy: GatePolicy, x: Inputs, id: string)
    requires LocalsOf(x.local, id) != [] && RemotesOf(x.remote, id) != []
  {
    var r := RemotesOf(x.remote, id)[0];
    && SettlementDue(policy, LocalsOf(x.local, id)[0], r, x.now)
    && ByRef(x.remote, r.providerRef).Some?
    && LocalsOf(x.local, ByRef(x.remote, r.providerRef).value.paymentId) == []
  }

  /** A row that joins to a payment the provider lists once carries that listing's reference. */
  lemma {:induction false} JoinedByReference(x: Inputs, id: string, ref: string)
    requires |RemotesOf(x.remote, id)| == 1 && |LocalsOf(x.local, id)| == 1
    requires Joined(x.local, x.remote, ref).Some? && Joined(x.local, x.remote, ref).value.paymentId == id
    ensures ref == RemotesOf(x.remote, id)[0].providerRef
          && Joined(x.local, x.remote, ref).value == LocalsOf(x.local, id)[0]
  {
    var r := JoinedThrough(x, ref);
    RemotesMembers(x.remote, id);
    hide Joined, LocalsOf, RemotesOf, ByRef;
    assert r in RemotesOf(x.remote, id);
  }

  /** The provider row a join goes through. */
  lemma {:induction false} JoinedThrough(x: Inputs, ref: string) returns (r: RemotePayment)
    requires Joined(x.local, x.remote, ref).Some?
    ensures r in x.remote && r.providerRef == ref && r.paymentId == Joined(x.local, x.remote, ref).value.paymentId != ""
    ensures LocalsOf(x.local, r.paymentId) != []
    ensures Joined(x.local, x.remote, ref).value == LocalsOf(x.local, r.paymentId)[0]
  {
    ByRefFinds(x.remote, ref);
    r := ByRef(x.remote, ref).value;
    LocalsMembers(x.local, r.paymentId);
    hide LocalsOf, ByRef;
    assert LocalsOf(x.local, r.paymentId)[0] in LocalsOf(x.local, r.paymentId);
  }

  /** With agreement everywhere, the settlement limit is reported exactly for a shadowed payment. */
  lemma AgreementUnsettled(policy: GatePolicy, x: Inputs, id: string)
    requires AgreesEverywhere(policy, x, id)
    ensures UnsettledOf(policy, x, id) != [] <==> Shadowed(policy, x, id)
  {
    var rs := RemotesOf(x.remote, id);
    RemotesMembers(x.remote, id);
    assert rs[0] in rs;
    var ref := rs[0].providerRef;
    ByRefFinds(x.remote, ref);
    hide LocalsOf, RemotesOf, ByRef;
    if SettlementDue(policy, LocalsOf(x.local, id)[0], rs[0], x.now) {
      assert ByRef(x.remote, ref).Some?;
      assert Joined(x.local, x.remote, ref).Some? <==> LocalsOf(x.local, ByRef(x.remote, ref).value.paymentId) != [];
    }
  }

  /** A payment the three sources agree on is blocked exactly when it is shadowed and the run's breaks
      are material, less a live break glass; nothing else in the run can block it. */
  lemma AgreeingBlockedExactly(policy: GatePolicy, x: Inputs, id: string, at: Time)
    requires Shipped(policy) && policy.scope == PaymentScope && IdsPresent(x) && AgreesEverywhere(policy, x, id)
    ensures id in Decide(Findings(policy, x), policy, at).blockedIds <==>
            && MaterialRun(policy, x) && Shadowed(policy, x, id)
            && !(Live(policy.breakGlass, at) && id in policy.breakGlass.value.scopeIds)
  {
    hide Findings, Decide, LocalsOf, RemotesOf, Joined, FeeBps, MaterialRun, UnsettledOf, Shadowed;
    AgreementUnsettled(policy, x, id);
    forall row | row in x.settlement && Joined(x.local, x.remote, row.pspReference).Some?
                 && Joined(x.local, x.remote, row.pspReference).value.paymentId == id
      ensures row.pspReference == RemotesOf(x.remote, id)[0].providerRef
              && Joined(x.local, x.remote, row.pspReference).value == LocalsOf(x.local, id)[0] {
      JoinedByReference(x, id, row.pspReference);
    }
    BlocksExactlyDrift(policy, x, at);
  }

  /** So it is never blocked while every provider payment that shares its reference is in the ledger,
      as one that shares it with none is. */
  lemma {:induction false} AgreeingNeverBlocked(policy: GatePolicy, x: Inputs, id: string, at: Time)
    requires Shipped(policy) && policy.scope == PaymentScope && IdsPresent(x) && AgreesEverywhere(policy, x, id)
    requires forall r <- x.remote :: r.providerRef == RemotesOf(x.remote, id)[0].providerRef && r.paymentId != "" ==>
               exists l <- x.local :: l.paymentId == r.paymentId
    ensures id !in Decide(Findings(policy, x), policy, at).blockedIds
  {
    AgreeingBlockedExactly(policy, x, id, at);
    hide AgreesEverywhere, Decide, Findings, MaterialRun;
    ByRefFinds(x.remote, RemotesOf(x.remote, id)[0].providerRef);
    if Shadowed(policy, x, id) {
      var r := ByRef(x.remote, RemotesOf(x.remote, id)[0].providerRef).value;
      LocalsMembers(x.local, r.paymentId);
      assert false;
    }
  }

  // Two provider payments under one reference, one of them unknown to the ledger: the other agrees
  // everywhere and is blocked all the same.

  const STANDARD := GatePolicy(3600.0, 259200.0, 900.0, 500, 5, 10000, PaymentScope, None, map[])
  const BOOKED := PaymentState("a", "EUR", 10000, 10000, 0, 0, 0, false, false, 50, 0)
  const LISTED := RemotePayment("a", "ref", "EUR", 10000, 10000, 0, "captured", 0.0)
  const STRAY := RemotePayment("b", "ref", "EUR", 10000, 10000, 0, "captured", 0.0)
  const SHARED := Inputs([BOOKED], [LISTED, STRAY], [SettlementRow("ref", 10000, 0, 10000, "EUR")], [], 300000.0)

  lemma {:induction false} RemotesOfPair(a: RemotePayment, b: RemotePayment, id: string)
    ensures
      var first := if a.paymentId == id && id != "" then [a] else [];
      var second := if b.paymentId == id && id != "" then [b] else [];
      RemotesOf([a], id) == first && RemotesOf([a, b], id) == first + second
  {
    assert [a][..0] == [] && [a, b][..1] == [a];
  }

  lemma {:induction false} RemoteIdsOfPair(a: RemotePayment, b: RemotePayment)
    requires a.paymentId != "" && b.paymentId != "" && a.paymentId != b.paymentId
    ensures Distinct(RemoteIds([a, b])) == [a.paymentId, b.paymentId]
  {
    assert [a][..0] == [] && [a, b][..1] == [a];
    assert RemoteIds([a]) == [a.paymentId] && RemoteIds([a, b]) == [a.paymentId] + [b.paymentId];
    var ids := [a.paymentId, b.paymentId];
    assert ids[..1] == [a.paymentId] && [a.paymentId][..0] == [];
    assert Distinct([a.paymentId]) == [a.paymentId];
    assert Distinct(ids) == [a.paymentId] + [b.paymentId];
  }

  lemma {:induction false} GroupedPair(a: RemotePayment, b: RemotePayment)
    requires a.paymentId != "" && b.paymentId != "" && a.paymentId != b.paymentId
    ensures Grouped([a, b], [a.paymentId, b.paymentId]) == [a, b]
  {
    RemotesOfPair(a, b, a.paymentId);
    RemotesOfPair(a, b, b.paymentId);
    hide RemotesOf;
    var rows, first, ids := [a, b], [a.paymentId], [a.paymentId, b.paymentId];
    assert ids[..1] == first && first[..0] == [];
    assert Grouped(rows, first) == [a];
    assert Grouped(rows, ids) == Grouped(rows, first) + [b];
  }

  /** Of two rows for two payments under one reference the lookup keeps the second. */
  lemma {:induction false} LookupOfPair(a: RemotePayment, b: RemotePayment)
    requires a.paymentId != "" && b.paymentId != "" && a.paymentId != b.paymentId
          && a.providerRef == b.providerRef != ""
    ensures ByRef([a, b], b.providerRef) == Some(b)
  {
    hide RemotesOf, Distinct, RemoteIds;
    RemoteIdsOfPair(a, b);
    GroupedPair(a, b);
    hide Grouped;
  }

  lemma SharedJoins()
    ensures LocalsOf(SHARED.local, "a") == [BOOKED] && LocalsOf(SHARED.local, "b") == []
    ensures RemotesOf(SHARED.remote, "a") == [LISTED]
    ensures ByRef(SHARED.remote, "ref") == Some(STRAY)
  {
    assert "a"[0] != "b"[0];
    assert [BOOKED][..0] == [];
    RemotesOfPair(LISTED, STRAY, "a");
    LookupOfPair(LISTED, STRAY);
  }

  lemma SharedAgrees()
    ensures AgreesEverywhere(STANDARD, SHARED, "a") && Shadowed(STANDARD, SHARED, "a")
  {
    SharedJoins();
    hide LocalsOf, RemotesOf, ByRef;
    assert DeriveStatus(BOOKED) == Captured;
    var row := SettlementRow("ref", 10000, 0, 10000, "EUR");
    assert row in SHARED.settlement;
    assert FeeBps(row.net, BOOKED.captured) == RoundHalfEven(0, 10000) == 0;
  }

  /** One measured break counts at least its own delta towards its currency. */
  lemma OwnExposure(breaks: seq<Finding>, f: Finding)
    requires f in breaks && Measured(f)
    ensures Exposure(breaks, f.currency.value) >= Magnitude(f.delta.value)
  {
    assert multiset([f]) <= multiset(breaks);
    SumSubset([f], breaks, AbsIn(f.currency.value));
    assert [f][1..] == [];
  }

  const OVERDUE := Finding(
    UnsettledPastSla, Break, NoDirection, Some("a"), Some("ref"), Some(10000), Some("EUR"), Some(300000.0))

  lemma SharedOverdue()
    ensures UnsettledOf(STANDARD, SHARED, "a") == [OVERDUE]
  {
    SharedJoins();
    hide LocalsOf, RemotesOf, ByRef;
  }

  lemma SharedMaterial()
    ensures MaterialRun(STANDARD, SHARED)
  {
    SharedOverdue();
    assert OVERDUE in UnsettledOf(STANDARD, SHARED, "a");
    hide UnsettledOf, EventsOf, RowFinding, ParkedFinding, Findings;
    ReportMembers(STANDARD, SHARED, OVERDUE);
    OfSeverityMembers(Findings(STANDARD, SHARED), Break);
    OwnExposure(OfSeverity(Findings(STANDARD, SHARED), Break), OVERDUE);
  }

  lemma SharedIdsPresent()
    ensures IdsPresent(SHARED)
  {
    assert |"a"| == 1;
  }

  /** The failing input: a captured payment of 100.00 EUR, in agreement with the provider and with its
      own settlement row, is blocked. */
  lemma SharedReferenceBlocks(at: Time)
    ensures AgreesEverywhere(STANDARD, SHARED, "a")
    ensures "a" in Decide(Findings(STANDARD, SHARED), STANDARD, at).blockedIds
  {
    hide AgreesEverywhere, Shadowed, MaterialRun, Decide, IdsPresent;
    SharedAgrees();
    SharedMaterial();
    SharedIdsPresent();
    AgreeingBlockedExactly(STANDARD, SHARED, "a", at);
  }

  /** The settlement limit, exactly: when no two payments share a reference, UNSETTLED_PAST_SLA is
      raised for a payment when it is captured, known to the provider, past the limit, and no row of
      the file carries its non-empty reference; and only then. */
  lemma UnsettledExact(policy: GatePolicy, x: Inputs, id: string)
    requires RefsIdentify(x.remote)
    ensures (exists f <- Findings(policy, x) :: f.kind == UnsettledPastSla && f.paymentId == Some(id)) <==>
          Unsettled(policy, x, id)
  {
    hide Findings, EventFindings, Unsettled, UnsettledOf, SettlementFinding;
    UnsettledOfExact(policy, x, id);
    UnsettledOwned(policy, x, id);
    if UnsettledOf(policy, x, id) != [] {
      var f := UnsettledOf(policy, x, id)[0];
      assert f in UnsettledOf(policy, x, id);
      ReportMembers(policy, x, f);
    }
    forall f | f in Findings(policy, x) && f.kind == UnsettledPastSla && f.paymentId == Some(id)
      ensures UnsettledOf(policy, x, id) != [] {
      OnlyUnsettledSide(policy, x, f);
    }
  }

  lemma OnlyUnsettledSide(policy: GatePolicy, x: Inputs, f: Finding)
    requires f in Findings(policy, x) && f.kind == UnsettledPastSla && f.paymentId.Some?
    ensures f in UnsettledOf(policy, x, f.paymentId.value)
  {
    hide Findings, UnsettledOf, Joined, FeeBps, LocalsOf, RemotesOf, EventFindings;
    ReportMembers(policy, x, f);
    UnknownMembers(policy, x.remote, x.now);
    forall id ensures f !in EventsOf(policy, x, id) {
      EventKinds(policy, id, LocalsOf(x.local, id), RemotesOf(x.remote, id), x.now);
    }
    forall id | f in UnsettledOf(policy, x, id) ensures f.paymentId == Some(id) {
      UnsettledOwned(policy, x, id);
    }
  }

  lemma EventKinds(policy: GatePolicy, id: string, ls: seq<PaymentState>, rs: seq<RemotePayment>, now: Time)
    ensures forall f <- EventFindings(policy, id, ls, rs, now) :: f.kind != UnsettledPastSla
  {
    forall l: PaymentState, r: RemotePayment, age: Time, f: Finding | f in PairFindings(policy, l, r, age)
      ensures f.kind != UnsettledPastSla {
    }
    hide PairFindings;
    assert forall f <- DuplicateFindings(policy, id, ls, rs, now) :: f.kind != UnsettledPastSla;
    assert forall f <- FirstFindings(policy, id, ls, rs, now) :: f.kind != UnsettledPastSla;
  }
}
