/** Reconciliation is exact: which disagreements a run reports, for every input. */
module ReconcileTheorems {
  import opened Wrappers
  import opened Ordering
  import opened Model
  import opened Reconcile

  // --------------------------------------------------------------- members of the joins

  lemma {:induction false} LocalsMembers(local: seq<PaymentState>, id: string)
    ensures forall l :: l in LocalsOf(local, id) <==> l in local && l.paymentId == id
    decreases |local|
  {
    if local != [] {
      LocalsMembers(local[..|local| - 1], id);
      assert local == local[..|local| - 1] + [local[|local| - 1]];
    }
  }

  lemma {:induction false} RemotesMembers(remote: seq<RemotePayment>, id: string)
    ensures forall r :: r in RemotesOf(remote, id) <==> r in remote && r.paymentId == id && id != ""
    decreases |remote|
  {
    if remote != [] {
      RemotesMembers(remote[..|remote| - 1], id);
      assert remote == remote[..|remote| - 1] + [remote[|remote| - 1]];
    }
  }

  lemma {:induction false} RemoteIdsMembers(remote: seq<RemotePayment>)
    ensures forall id :: id in RemoteIds(remote) <==> RemotesOf(remote, id) != []
    decreases |remote|
  {
    if remote != [] {
      RemoteIdsMembers(remote[..|remote| - 1]);
    }
  }

  lemma {:induction false} LocalIdsMembers(local: seq<PaymentState>)
    ensures forall id :: id in LocalIds(local) <==> LocalsOf(local, id) != []
    decreases |local|
  {
    if local != [] {
      var front, last := local[..|local| - 1], local[|local| - 1];
      LocalIdsMembers(front);
      assert LocalIds(local) == LocalIds(front) + [last.paymentId];
    }
  }

  lemma PaymentIdsMembers(x: Inputs)
    ensures NoRepeats(PaymentIds(x.local, x.remote))
    ensures forall id :: id in PaymentIds(x.local, x.remote) <==>
          LocalsOf(x.local, id) != [] || RemotesOf(x.remote, id) != []
  {
    var ids := PaymentIds(x.local, x.remote);
    SortedSetAscending(LocalIds(x.local) + RemoteIds(x.remote));
    LocalIdsMembers(x.local);
    RemoteIdsMembers(x.remote);
    forall i, j | 0 <= i < j < |ids| ensures ids[i] != ids[j] {
      LessTotal(ids[i], ids[j]);
    }
  }

  // ------------------------------------------------------------------ event side

  function OfPayment(findings: seq<Finding>, id: string): seq<Finding> {
    if findings == [] then []
    else
      var last := findings[|findings| - 1];
      OfPayment(findings[..|findings| - 1], id) + (if last.paymentId == Some(id) then [last] else [])
  }

  lemma {:induction false} OfPaymentConcat(a: seq<Finding>, b: seq<Finding>, id: string)
    ensures OfPayment(a + b, id) == OfPayment(a, id) + OfPayment(b, id)
    decreases |b|
  {
    if b == [] {
      assert a + b == a;
    } else {
      OfPaymentConcat(a, b[..|b| - 1], id);
      assert (a + b)[..|a + b| - 1] == a + b[..|b| - 1];
    }
  }

  lemma {:induction false} AllOrNone(findings: seq<Finding>, owner: string, id: string)
    requires forall f <- findings :: f.paymentId == Some(owner)
    ensures OfPayment(findings, id) == if owner == id then findings else []
    decreases |findings|
  {
    if findings != [] {
      AllOrNone(findings[..|findings| - 1], owner, id);
      assert findings == findings[..|findings| - 1] + [findings[|findings| - 1]];
    }
  }

  lemma PairFindingsOwned(policy: GatePolicy, l: PaymentState, r: RemotePayment, age: Time)
    ensures forall f <- PairFindings(policy, l, r, age) :: f.paymentId == Some(l.paymentId)
  {
  }

  lemma DuplicatesOwned(policy: GatePolicy, id: string, ls: seq<PaymentState>, rs: seq<RemotePayment>, now: Time)
    ensures forall f <- DuplicateFindings(policy, id, ls, rs, now) :: f.paymentId == Some(id)
  {
  }

  lemma FirstOwned(policy: GatePolicy, id: string, ls: seq<PaymentState>, rs: seq<RemotePayment>, now: Time)
    requires ls != [] ==> ls[0].paymentId == id
    ensures forall f <- FirstFindings(policy, id, ls, rs, now) :: f.paymentId == Some(id)
  {
    if ls != [] && rs != [] {
      PairFindingsOwned(policy, ls[0], rs[0], now - rs[0].createdAt);
    }
    hide PairFindings;
  }

  lemma EventFindingsOwned(policy: GatePolicy, id: string, ls: seq<PaymentState>, rs: seq<RemotePayment>, now: Time)
    requires ls != [] ==> ls[0].paymentId == id
    ensures forall f <- EventFindings(policy, id, ls, rs, now) :: f.paymentId == Some(id)
  {
    hide FirstFindings, DuplicateFindings;
    DuplicatesOwned(policy, id, ls, rs, now);
    FirstOwned(policy, id, ls, rs, now);
  }

  /** The findings of one payment id of a run. */
  function EventsOf(policy: GatePolicy, x: Inputs, id: string): seq<Finding> {
    EventFindings(policy, id, LocalsOf(x.local, id), RemotesOf(x.remote, id), x.now)
  }

  lemma EventsOwned(policy: GatePolicy, x: Inputs, id: string)
    ensures forall f <- EventsOf(policy, x, id) :: f.paymentId == Some(id)
  {
    hide EventFindings;
    LocalsMembers(x.local, id);
    assert LocalsOf(x.local, id) != [] ==> LocalsOf(x.local, id)[0] in LocalsOf(x.local, id);
    EventFindingsOwned(policy, id, LocalsOf(x.local, id), RemotesOf(x.remote, id), x.now);
  }

  /** The event-side findings that carry a payment id are the ones raised for it, and no others. */
  lemma {:induction false} EventSideOfPayment(policy: GatePolicy, x: Inputs, ids: seq<string>, id: string)
    requires NoRepeats(ids)
    ensures OfPayment(EventSide(policy, x, ids), id) ==
            if id in ids then EventsOf(policy, x, id) else []
    decreases |ids|
  {
    hide EventsOf;
    if ids != [] {
      var front, last := ids[..|ids| - 1], ids[|ids| - 1];
      var own := EventsOf(policy, x, last);
      assert ids == front + [last] && NoRepeats(front) && last !in front;
      EventSideSplit(policy, x, ids);
      hide EventSide, OfPayment, NoRepeats;
      EventSideOfPayment(policy, x, front, id);
      EventsOwned(policy, x, last);
      AllOrNone(own, last, id);
      OfPaymentConcat(EventSide(policy, x, front), own, id);
    }
  }

  lemma {:induction false} EventSideSplit(policy: GatePolicy, x: Inputs, ids: seq<string>)
    requires ids != []
    ensures EventSide(policy, x, ids) == EventSide(policy, x, ids[..|ids| - 1]) + EventsOf(policy, x, ids[|ids| - 1])
  {
  }

  predicate Agrees(l: PaymentState, r: RemotePayment) {
    l.currency == r.currency && SameVector(l, r) && SameStatus(l, r)
  }

  lemma Silent(policy: GatePolicy, id: string, ls: seq<PaymentState>, rs: seq<RemotePayment>, now: Time)
    requires ls != [] || rs != []
    ensures EventFindings(policy, id, ls, rs, now) == [] <==> |ls| == 1 && |rs| == 1 && Agrees(ls[0], rs[0])
  {
  }

  /** A payment known to either side draws no event-side finding exactly when each side holds one
      record of it and the two agree in currency, amounts and derived status. */
  lemma {:induction false} EventSideExact(policy: GatePolicy, x: Inputs, id: string)
    requires LocalsOf(x.local, id) != [] || RemotesOf(x.remote, id) != []
    ensures
      var ls, rs := LocalsOf(x.local, id), RemotesOf(x.remote, id);
      (forall f <- EventSide(policy, x, PaymentIds(x.local, x.remote)) :: f.paymentId != Some(id)) <==>
      |ls| == 1 && |rs| == 1 && Agrees(ls[0], rs[0])
  {
    hide LocalsOf, RemotesOf, PaymentIds, EventSide, OfPayment, EventFindings, Agrees, NoRepeats;
    PaymentIdsMembers(x);
    EventSideOfPayment(policy, x, PaymentIds(x.local, x.remote), id);
    NoneOfPayment(EventSide(policy, x, PaymentIds(x.local, x.remote)), id);
    Silent(policy, id, LocalsOf(x.local, id), RemotesOf(x.remote, id), x.now);
  }

  lemma {:induction false} NoneOfPayment(findings: seq<Finding>, id: string)
    ensures OfPayment(findings, id) == [] <==> forall f <- findings :: f.paymentId != Some(id)
    ensures forall f :: f in OfPayment(findings, id) <==> f in findings && f.paymentId == Some(id)
    decreases |findings|
  {
    if findings != [] {
      NoneOfPayment(findings[..|findings| - 1], id);
      assert findings == findings[..|findings| - 1] + [findings[|findings| - 1]];
    }
  }

  /** The net position of a side: captured less refunded, and nothing when it has no record. */
  function LocalNet(ls: seq<PaymentState>): int {
    if ls == [] then 0 else ls[0].captured - ls[0].refunded
  }

  function RemoteNet(rs: seq<RemotePayment>): int {
    if rs == [] then 0 else rs[0].captured - rs[0].refunded
  }

  lemma PairDeltas(policy: GatePolicy, l: PaymentState, r: RemotePayment, age: Time)
    ensures forall f <- PairFindings(policy, l, r, age) ::
              && f.currency == Some(l.currency) && (l.currency != r.currency ==> f.delta.None?)
              && (f.delta.Some? ==> f.delta.value == LocalNet([l]) - RemoteNet([r]))
              && (f.kind == PartialStateDivergence ==> f.delta == Some(0))
  {
  }

  /** Every delta on the event side measures one thing: how far the net positions of the two sides are
      apart, an absent side counting as zero. So the exposure of a run adds up net gaps. */
  lemma EventDeltas(policy: GatePolicy, id: string, ls: seq<PaymentState>, rs: seq<RemotePayment>, now: Time)
    ensures forall f <- EventFindings(policy, id, ls, rs, now) :: f.delta.Some? ==>
              && Magnitude(f.delta.value) == Magnitude(LocalNet(ls) - RemoteNet(rs))
              && f.currency == Some(if ls != [] then ls[0].currency else rs[0].currency)
  {
    hide DuplicateFindings, FirstFindings;
    NoDuplicateDeltas(policy, id, ls, rs, now);
    FirstDeltas(policy, id, ls, rs, now);
  }

  lemma NoDuplicateDeltas(policy: GatePolicy, id: string, ls: seq<PaymentState>, rs: seq<RemotePayment>, now: Time)
    ensures forall f <- DuplicateFindings(policy, id, ls, rs, now) :: f.delta.None?
  {
  }

  lemma FirstDeltas(policy: GatePolicy, id: string, ls: seq<PaymentState>, rs: seq<RemotePayment>, now: Time)
    ensures forall f <- FirstFindings(policy, id, ls, rs, now) :: f.delta.Some? ==>
              && Magnitude(f.delta.value) == Magnitude(LocalNet(ls) - RemoteNet(rs))
              && f.currency == Some(if ls != [] then ls[0].currency else rs[0].currency)
  {
    hide PairFindings;
    if ls != [] && rs != [] {
      PairDeltas(policy, ls[0], rs[0], now - rs[0].createdAt);
    }
  }

  /** A status name reads back as the status it names, so the rank a name is compared by is its own. */
  lemma NamesReadBack(s: Status)
    ensures NamedStatus(StatusName(s), STATUSES) == Some(s)
    ensures RankOrNone(StatusName(s)) == Some(StatusRank(s))
  {
    NamesDiffer();
    NamedAt(s, 0);
  }

  /** The words a provider may use for a status. */
  lemma {:induction false} WordsUnderstood()
    ensures NamedStatus("pending", STATUSES) == Some(Pending) && NamedStatus("authorized", STATUSES) == Some(Authorized)
    ensures NamedStatus("capture_failed", STATUSES) == Some(CaptureFailed)
    ensures NamedStatus("voided", STATUSES) == Some(Voided) && NamedStatus("expired", STATUSES) == Some(Expired)
    ensures NamedStatus("partially_captured", STATUSES) == Some(PartiallyCaptured)
    ensures NamedStatus("captured", STATUSES) == Some(Captured)
    ensures NamedStatus("partially_refunded", STATUSES) == Some(PartiallyRefunded)
    ensures NamedStatus("refunded", STATUSES) == Some(Refunded)
  {
    hide NamedStatus;
    NamesReadBack(Pending);
    NamesReadBack(Authorized);
    NamesReadBack(CaptureFailed);
    NamesReadBack(Voided);
    NamesReadBack(Expired);
    NamesReadBack(PartiallyCaptured);
    NamesReadBack(Captured);
    NamesReadBack(PartiallyRefunded);
    NamesReadBack(Refunded);
  }

  lemma NamesDiffer()
    ensures forall a: Status, b: Status :: StatusName(a) == StatusName(b) ==> a == b
  {
    forall a: Status, b: Status | a != b ensures StatusName(a) != StatusName(b) {
      if |StatusName(a)| == |StatusName(b)| {
        assert StatusName(a)[0] != StatusName(b)[0] || StatusName(a)[10] != StatusName(b)[10];
      }
    }
  }

  lemma {:induction false} NamedAt(s: Status, k: nat)
    requires k < |STATUSES| && s in STATUSES[k..]
    requires forall a: Status, b: Status :: StatusName(a) == StatusName(b) ==> a == b
    ensures NamedStatus(StatusName(s), STATUSES[k..]) == Some(s)
    decreases |STATUSES| - k
  {
    hide StatusName;
    if STATUSES[k] != s {
      assert STATUSES[k..][1..] == STATUSES[k + 1..];
      NamedAt(s, k + 1);
    }
  }

  /** The direction of a status mismatch: which side has reached the later rank, and neither when a
      name is unknown or the ranks are level. */
  lemma DirectionExact(local: Status, remote: string)
    ensures DirectionOf(StatusName(local), remote) == LocalAhead <==>
            exists s: Status :: StatusName(s) == remote && StatusRank(local) > StatusRank(s)
    ensures DirectionOf(StatusName(local), remote) == RemoteAhead <==>
            exists s: Status :: StatusName(s) == remote && StatusRank(local) < StatusRank(s)
  {
    NamesReadBack(local);
    NamedOnly(remote, STATUSES);
    forall s: Status | StatusName(s) == remote ensures RankOrNone(remote) == Some(StatusRank(s)) {
      NamesReadBack(s);
    }
  }

  lemma {:induction false} NamedOnly(name: string, candidates: seq<Status>)
    ensures NamedStatus(name, candidates).Some? ==> StatusName(NamedStatus(name, candidates).value) == name
    decreases |candidates|
  {
    if candidates != [] {
      NamedOnly(name, candidates[1..]);
    }
  }

  // ------------------------------------------------------------- settlement side

  /** Every settlement row yields exactly one finding, about that row. */
  lemma {:induction false} OneFindingPerRow(
    policy: GatePolicy, local: seq<PaymentState>, remote: seq<RemotePayment>, rows: seq<SettlementRow>)
    ensures
      var fs := SettlementFindings(policy, local, remote, rows);
      && |fs| == |rows|
      && forall i :: 0 <= i < |rows| ==>
           && fs[i].providerRef == Some(rows[i].pspReference)
           && fs[i] == SettlementFinding(policy, Joined(local, remote, rows[i].pspReference), rows[i])
    decreases |rows|
  {
    hide Joined;
    if rows != [] {
      OneFindingPerRow(policy, local, remote, rows[..|rows| - 1]);
    }
  }

  lemma Spread(d: int, k: int)
    requires d >= 0
    ensures k >= 1 ==> k * d >= d
    ensures k <= -1 ==> k * d <= -d
    ensures k >= 2 ==> k * d >= 2 * d
  {
  }

  /** The rate a row is judged by is the nearest whole number of basis points, ties to even. */
  lemma NearestEven(n: nat, d: nat, q: nat)
    requires d > 0
    ensures q == RoundHalfEven(n, d) <==>
            2 * Magnitude(n - q * d) < d || (2 * Magnitude(n - q * d) == d && q % 2 == 0)
  {
    var floor, r := n / d, n % d;
    var k := q - floor;
    assert n - q * d == r - k * d by {
      assert q * d == floor * d + k * d;
    }
    Spread(d, k);
    if k == 1 {
      assert k * d == d;
    }
  }

  lemma {:induction false} GroupedMembers(remote: seq<RemotePayment>, ids: seq<string>)
    ensures forall r :: r in Grouped(remote, ids) <==> r in remote && r.paymentId in ids && r.paymentId != ""
    decreases |ids|
  {
    if ids != [] {
      var front, last := ids[..|ids| - 1], ids[|ids| - 1];
      GroupedMembers(remote, front);
      RemotesMembers(remote, last);
      assert ids == front + [last];
    }
  }

  lemma {:induction false} LookupMember(rows: seq<RemotePayment>, ref: string)
    ensures LastWithRef(rows, ref).Some? ==>
              LastWithRef(rows, ref).value in rows && LastWithRef(rows, ref).value.providerRef == ref
    ensures LastWithRef(rows, ref).Some? <==> ref != "" && exists r <- rows :: r.providerRef == ref
    decreases |rows|
  {
    if rows != [] {
      LookupMember(rows[..|rows| - 1], ref);
      assert rows == rows[..|rows| - 1] + [rows[|rows| - 1]];
      assert rows[|rows| - 1] in rows;
    }
  }

  /** The lookup by reference finds a provider row with that reference whenever one names a payment. */
  lemma ByRefFinds(remote: seq<RemotePayment>, ref: string)
    ensures ByRef(remote, ref).Some? ==>
              && ByRef(remote, ref).value in remote
              && ByRef(remote, ref).value.providerRef == ref
              && ByRef(remote, ref).value.paymentId != ""
    ensures ByRef(remote, ref).Some? <==> ref != "" && exists r <- remote :: r.providerRef == ref && r.paymentId != ""
  {
    var ids := Distinct(RemoteIds(remote));
    DistinctMembers(RemoteIds(remote));
    GroupedMembers(remote, ids);
    LookupMember(Grouped(remote, ids), ref);
    RemoteIdsMembers(remote);
    forall r | r in remote && r.providerRef == ref && r.paymentId != "" ensures r in Grouped(remote, ids) {
      RemotesMembers(remote, r.paymentId);
      assert r in RemotesOf(remote, r.paymentId);
    }
  }

  /** No two payments share a non-empty provider reference. */
  ghost predicate RefsIdentify(remote: seq<RemotePayment>) {
    forall a, b :: a in remote && b in remote && a.providerRef == b.providerRef != "" && a.paymentId != "" && b.paymentId != "" ==>
      a.paymentId == b.paymentId
  }

  /** Then the settlement join leads from a payment's reference back to that payment. */
  lemma {:induction false} JoinedBack(x: Inputs, id: string, ref: string)
    requires RefsIdentify(x.remote)
    requires exists r <- x.remote :: r.paymentId == id != "" && r.providerRef == ref
    ensures Joined(x.local, x.remote, ref) ==
            var ls := LocalsOf(x.local, id);
            if ref == "" || ls == [] then None else Some(ls[0])
  {
    ByRefFinds(x.remote, ref);
  }

  lemma UnsettledOwned(policy: GatePolicy, x: Inputs, id: string)
    ensures forall f <- UnsettledOf(policy, x, id) :: f.paymentId == Some(id) && f.kind == UnsettledPastSla
  {
  }

  lemma {:induction false} UnsettledSideOfPayment(policy: GatePolicy, x: Inputs, ids: seq<string>, id: string)
    requires NoRepeats(ids)
    ensures OfPayment(UnsettledSide(policy, x, ids), id) == if id in ids then UnsettledOf(policy, x, id) else []
    decreases |ids|
  {
    hide UnsettledOf;
    if ids != [] {
      var front, last := ids[..|ids| - 1], ids[|ids| - 1];
      UnsettledSideOfPayment(policy, x, front, id);
      UnsettledOwned(policy, x, last);
      AllOrNone(UnsettledOf(policy, x, last), last, id);
      OfPaymentConcat(UnsettledSide(policy, x, front), UnsettledOf(policy, x, last), id);
      assert ids == front + [last];
    }
  }

  lemma LedgerIdsListed(x: Inputs)
    ensures NoRepeats(SortedSet(LocalIds(x.local)))
    ensures forall id :: id in SortedSet(LocalIds(x.local)) <==> LocalsOf(x.local, id) != []
  {
    var ids := SortedSet(LocalIds(x.local));
    SortedSetAscending(LocalIds(x.local));
    LocalIdsMembers(x.local);
    forall i, j | 0 <= i < j < |ids| ensures ids[i] != ids[j] {
      LessTotal(ids[i], ids[j]);
    }
  }

  /** Captured, known to the provider, past the settlement limit, and in no row of the file. */
  ghost predicate Unsettled(policy: GatePolicy, x: Inputs, id: string) {
    var ls, rs := LocalsOf(x.local, id), RemotesOf(x.remote, id);
    && ls != [] && rs != [] && ls[0].captured > 0
    && x.now - rs[0].createdAt > policy.settlementSla
    && !(rs[0].providerRef != "" && exists row <- x.settlement :: row.pspReference == rs[0].providerRef)
  }

  lemma UnsettledOfExact(policy: GatePolicy, x: Inputs, id: string)
    requires RefsIdentify(x.remote)
    ensures UnsettledOf(policy, x, id) != [] <==> Unsettled(policy, x, id)
  {
    hide Joined, LocalsOf, RemotesOf;
    var rs := RemotesOf(x.remote, id);
    RemotesMembers(x.remote, id);
    if rs != [] {
      assert rs[0] in rs;
      JoinedBack(x, id, rs[0].providerRef);
    }
  }

  // ------------------------------------------------------------------- the report

  lemma {:induction false} LexTransitive(a: string, b: string, c: string)
    ensures Less(a, b) && Less(b, c) ==> Less(a, c)
    ensures AtMost(a, b) && AtMost(b, c) ==> AtMost(a, c)
    ensures a == b || Less(a, b) || Less(b, a)
    ensures !Less(a, a) && !(Less(a, b) && Less(b, a))
  {
    LessTotal(a, b);
    LessTotal(b, c);
    LessTotal(a, c);
    if Less(a, b) && Less(b, c) {
      LessTransitive(a, b, c);
    }
    if Less(b, a) && Less(c, b) {
      LessTransitive(c, b, a);
    }
    if Less(c, a) && Less(a, b) {
      LessTransitive(c, a, b);
    }
  }

  lemma ReportOrderChains(a: Finding, b: Finding, c: Finding)
    ensures ReportOrder(a, b) || ReportOrder(b, a)
    ensures ReportOrder(a, b) && ReportOrder(b, c) ==> ReportOrder(a, c)
  {
    hide Less, AtMost, KindName, OrEmpty, SeverityOrder;
    LexTransitive(KindName(a.kind), KindName(b.kind), KindName(c.kind));
    LexTransitive(OrEmpty(a.paymentId), OrEmpty(b.paymentId), OrEmpty(c.paymentId));
    LexTransitive(OrEmpty(a.providerRef), OrEmpty(b.providerRef), OrEmpty(c.providerRef));
    assert AtMost(OrEmpty(a.providerRef), OrEmpty(b.providerRef)) || AtMost(OrEmpty(b.providerRef), OrEmpty(a.providerRef)) by {
      AtMostPreorder();
    }
  }

  lemma ReportOrderPreorder()
    ensures Preorder(ReportOrder)
  {
    forall a, b ensures ReportOrder(a, b) || ReportOrder(b, a) {
      ReportOrderChains(a, b, a);
    }
    forall a, b, c | ReportOrder(a, b) && ReportOrder(b, c) ensures ReportOrder(a, c) {
      ReportOrderChains(a, b, c);
    }
  }

  /** The report is the findings raised, each as often as it was raised, worst first. */
  lemma ReportIsThePermutation(policy: GatePolicy, x: Inputs)
    ensures multiset(Findings(policy, x)) == multiset(RawFindings(policy, x))
    ensures forall f :: f in Findings(policy, x) <==> f in RawFindings(policy, x)
    ensures forall i, j :: 0 <= i < j < |Findings(policy, x)| ==>
              SeverityOrder(Findings(policy, x)[i].severity) >= SeverityOrder(Findings(policy, x)[j].severity)
  {
    hide RawFindings, Less, KindName;
    ReportOrderPreorder();
    SortSorts(RawFindings(policy, x), ReportOrder);
    SortMembers(RawFindings(policy, x), ReportOrder);
  }
}
