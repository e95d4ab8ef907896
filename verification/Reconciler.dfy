/** The reconciliation run itself: the collector, the two groupings, the joins and the sorted
    report, each against its specification. */
module Reconciler {
  import opened Wrappers
  import opened Ordering
  import opened Model
  import opened Reconcile

  class Collector {
    const policy: GatePolicy
    var findings: seq<Finding>

    constructor (policy: GatePolicy)
      ensures this.policy == policy && findings == []
    {
      this.policy := policy;
      findings := [];
    }

    method Add(kind: DriftKind, base: Option<Severity> := None, direction: Direction := NoDirection,
               paymentId: Option<string> := None, providerRef: Option<string> := None,
               delta: Option<int> := None, currency: Option<string> := None, age: Option<Time> := None)
      modifies this`findings
      ensures findings == old(findings) +
                [Finding(kind, Graded(policy, kind, base.GetOr(DefaultSeverity(kind))), direction,
                         paymentId, providerRef, delta, currency, age)]
    {
      findings := findings +
        [Finding(kind, Graded(policy, kind, base.GetOr(DefaultSeverity(kind))), direction,
                 paymentId, providerRef, delta, currency, age)];
    }
  }

  method ComparePair(out: Collector, local: PaymentState, remote: RemotePayment, age: Time, grace: Time)
    requires grace == out.policy.inFlightGrace
    modifies out`findings
    ensures out.findings == old(out.findings) + PairFindings(out.policy, local, remote, age)
  {
    if local.currency != remote.currency {
      out.Add(CurrencyDrift, paymentId := Some(local.paymentId), providerRef := Some(remote.providerRef),
              currency := Some(local.currency), age := Some(age));
      return;
    }
    var vector := (local.authorized, local.captured, local.refunded);
    var theirs := (remote.authorized, remote.captured, remote.refunded);
    var status := StatusName(DeriveStatus(local));
    if vector == theirs && status == remote.status {
      return;
    }
    if age < grace {
      out.Add(InFlight, paymentId := Some(local.paymentId), providerRef := Some(remote.providerRef),
              currency := Some(local.currency), age := Some(age));
      return;
    }
    if vector != theirs {
      var net, theirNet := local.captured - local.refunded, remote.captured - remote.refunded;
      var partial := net == theirNet && local.authorized == remote.authorized;
      out.Add(if partial then PartialStateDivergence else AmountMismatch,
              paymentId := Some(local.paymentId), providerRef := Some(remote.providerRef),
              delta := Some(if partial then 0 else net - theirNet), currency := Some(local.currency), age := Some(age));
    }
    if status != remote.status {
      out.Add(StatusMismatch, direction := DirectionOf(status, remote.status),
              paymentId := Some(local.paymentId), providerRef := Some(remote.providerRef),
              currency := Some(local.currency), age := Some(age));
    }
  }

  // ---------------------------------------------------------------- the groupings

  /** by id, in the order the ids first appear. */
  datatype Groups<T> = Groups(order: seq<string>, rows: map<string, seq<T>>) {
    function Get(id: string): seq<T> {
      if id in rows then rows[id] else []
    }

    function Append(id: string, row: T): Groups<T> {
      Groups(if id in rows then order else order + [id], rows[id := Get(id) + [row]])
    }
  }

  /** The groups hold, in order of appearance, the ids listed, each with the rows of it. */
  ghost predicate Fits<T>(g: Groups<T>, ids: seq<string>, rowsOf: string -> seq<T>) {
    && g.order == Distinct(ids)
    && (forall id :: id in g.rows <==> id in g.order)
    && (forall id :: id in g.rows <==> rowsOf(id) != [])
    && (forall id <- g.rows :: g.rows[id] == rowsOf(id))
  }

  ghost predicate LocalGroups(g: Groups<PaymentState>, local: seq<PaymentState>) {
    Fits(g, LocalIds(local), id => LocalsOf(local, id))
  }

  ghost predicate RemoteGroups(g: Groups<RemotePayment>, remote: seq<RemotePayment>) {
    Fits(g, RemoteIds(remote), id => RemotesOf(remote, id))
  }

  lemma AppendFits<T>(g: Groups<T>, ids: seq<string>, rowsOf: string -> seq<T>, id: string, row: T,
      after: string -> seq<T>)
    requires Fits(g, ids, rowsOf)
    requires forall other :: after(other) == rowsOf(other) + (if other == id then [row] else [])
    ensures Fits(g.Append(id, row), ids + [id], after)
  {
    assert (ids + [id])[..|ids|] == ids;
  }

  lemma LocalSnoc(g: Groups<PaymentState>, local: seq<PaymentState>, row: PaymentState)
    requires LocalGroups(g, local)
    ensures LocalGroups(g.Append(row.paymentId, row), local + [row])
  {
    hide Groups.Append, Fits;
    var more := local + [row];
    assert more[..|local|] == local;
    assert LocalIds(more) == LocalIds(local) + [row.paymentId];
    AppendFits(g, LocalIds(local), id => LocalsOf(local, id), row.paymentId, row, id => LocalsOf(more, id));
  }

  lemma RemoteSnoc(g: Groups<RemotePayment>, remote: seq<RemotePayment>, row: RemotePayment)
    requires RemoteGroups(g, remote) && row.paymentId != ""
    ensures RemoteGroups(g.Append(row.paymentId, row), remote + [row])
  {
    hide Groups.Append, Fits;
    var more := remote + [row];
    assert more[..|remote|] == remote;
    AppendFits(g, RemoteIds(remote), id => RemotesOf(remote, id), row.paymentId, row, id => RemotesOf(more, id));
  }

  lemma RemoteSkipped(g: Groups<RemotePayment>, remote: seq<RemotePayment>, row: RemotePayment)
    requires RemoteGroups(g, remote) && row.paymentId == ""
    ensures RemoteGroups(g, remote + [row])
  {
    hide Fits;
    var more := remote + [row];
    assert more[..|remote|] == remote;
    assert RemoteIds(more) == RemoteIds(remote);
    SameFits(g, RemoteIds(remote), id => RemotesOf(remote, id), id => RemotesOf(more, id));
  }

  lemma SameFits<T>(g: Groups<T>, ids: seq<string>, rowsOf: string -> seq<T>, after: string -> seq<T>)
    requires Fits(g, ids, rowsOf) && forall id :: after(id) == rowsOf(id)
    ensures Fits(g, ids, after)
  {
    hide Distinct;
  }

  lemma NoGroups()
    ensures LocalGroups(Groups([], map[]), []) && RemoteGroups(Groups([], map[]), [])
  {
  }

  method GroupLocals(local: seq<PaymentState>) returns (g: Groups<PaymentState>)
    ensures LocalGroups(g, local)
  {
    hide LocalGroups, Groups.Append;
    g := Groups([], map[]);
    NoGroups();
    assert local[..0] == [];
    for i := 0 to |local|
      invariant LocalGroups(g, local[..i])
    {
      LocalSnoc(g, local[..i], local[i]);
      assert local[..i + 1] == local[..i] + [local[i]];
      g := g.Append(local[i].paymentId, local[i]);
    }
    assert local[..|local|] == local;
  }

  method GroupRemotes(out: Collector, remote: seq<RemotePayment>, now: Time) returns (g: Groups<RemotePayment>)
    modifies out`findings
    ensures RemoteGroups(g, remote)
    ensures out.findings == old(out.findings) + UnknownFindings(out.policy, remote, now)
  {
    hide RemoteGroups, Groups.Append;
    g := Groups([], map[]);
    NoGroups();
    assert remote[..0] == [];
    for i := 0 to |remote|
      invariant RemoteGroups(g, remote[..i])
      invariant out.findings == old(out.findings) + UnknownFindings(out.policy, remote[..i], now)
    {
      var row := remote[i];
      assert remote[..i + 1] == remote[..i] + [row] && remote[..i + 1][..i] == remote[..i];
      if row.paymentId == "" {
        RemoteSkipped(g, remote[..i], row);
        out.Add(UnknownRemoteRow, providerRef := Some(row.providerRef), currency := Some(row.currency),
                age := Some(now - row.createdAt));
      } else {
        RemoteSnoc(g, remote[..i], row);
        g := g.Append(row.paymentId, row);
      }
    }
    assert remote[..|remote|] == remote;
  }

  /** sorted(set): a set, listed in order. */
  method Listed(ids: set<string>) returns (xs: seq<string>)
    ensures Ascending(xs) && forall id :: id in xs <==> id in ids
  {
    var todo := ids;
    var found: seq<string> := [];
    while todo != {}
      invariant todo <= ids && forall id :: id in found <==> id in ids - todo
      decreases |todo|
    {
      var id :| id in todo;
      found := found + [id];
      todo := todo - {id};
    }
    SortedSetAscending(found);
    xs := SortedSet(found);
  }

  // ---------------------------------------------------------------- the two sides

  /** The order of a run's payments is that of the keys the two groupings hold. */
  lemma KeysListed(locals: Groups<PaymentState>, remotes: Groups<RemotePayment>, x: Inputs, ids: seq<string>)
    requires LocalGroups(locals, x.local) && RemoteGroups(remotes, x.remote)
    requires Ascending(ids) && forall id :: id in ids <==> id in locals.rows || id in remotes.rows
    ensures ids == PaymentIds(x.local, x.remote)
  {
    DistinctMembers(LocalIds(x.local));
    DistinctMembers(RemoteIds(x.remote));
    SortedSetAscending(LocalIds(x.local) + RemoteIds(x.remote));
    AscendingUnique(ids, PaymentIds(x.local, x.remote));
  }

  method AddDuplicates(out: Collector, id: string, locals: seq<PaymentState>, remotes: seq<RemotePayment>, now: Time)
    modifies out`findings
    ensures out.findings == old(out.findings) + DuplicateFindings(out.policy, id, locals, remotes, now)
  {
    if |locals| > 1 {
      out.Add(DuplicateLocal, paymentId := Some(id),
              providerRef := if remotes != [] then Some(remotes[0].providerRef) else None,
              currency := Some(locals[0].currency));
    }
    if |remotes| > 1 {
      out.Add(DuplicateRemote, paymentId := Some(id), providerRef := Some(remotes[0].providerRef),
              currency := Some(remotes[0].currency), age := Some(now - remotes[0].createdAt));
    }
  }

  /** One turn of the loop over payments; continue is a return here. */
  method ReconcilePayment(out: Collector, id: string, locals: seq<PaymentState>, remotes: seq<RemotePayment>, now: Time)
    requires locals != [] || remotes != []
    modifies out`findings
    ensures out.findings == old(out.findings) + EventFindings(out.policy, id, locals, remotes, now)
  {
    hide DuplicateFindings, PairFindings;
    AddDuplicates(out, id, locals, remotes, now);
    if remotes == [] {
      out.Add(MissingRemotely, paymentId := Some(id), delta := Some(locals[0].captured - locals[0].refunded),
              currency := Some(locals[0].currency));
      return;
    }
    var remote := remotes[0];
    var age := now - remote.createdAt;
    if locals == [] {
      var inFlight := age < out.policy.inFlightGrace;
      out.Add(if inFlight then InFlight else MissingLocally, paymentId := Some(id), providerRef := Some(remote.providerRef),
              delta := Some(remote.captured - remote.refunded), currency := Some(remote.currency), age := Some(age));
      return;
    }
    ComparePair(out, locals[0], remote, age, out.policy.inFlightGrace);
  }

  lemma {:induction false} EventSideEmpty(policy: GatePolicy, x: Inputs)
    ensures EventSide(policy, x, []) == []
  {
  }

  lemma {:induction false} EventSideGrows(policy: GatePolicy, x: Inputs, ids: seq<string>, i: nat)
    requires i < |ids|
    ensures EventSide(policy, x, ids[..i + 1]) == EventSide(policy, x, ids[..i]) +
              EventFindings(policy, ids[i], LocalsOf(x.local, ids[i]), RemotesOf(x.remote, ids[i]), x.now)
  {
    assert ids[..i + 1][..i] == ids[..i];
  }

  lemma {:induction false} GroupsGet(locals: Groups<PaymentState>, remotes: Groups<RemotePayment>, x: Inputs,
      id: string)
    requires LocalGroups(locals, x.local) && RemoteGroups(remotes, x.remote)
    ensures locals.Get(id) == LocalsOf(x.local, id) && remotes.Get(id) == RemotesOf(x.remote, id)
    ensures id in locals.rows || id in remotes.rows ==> locals.Get(id) != [] || remotes.Get(id) != []
  {
  }

  method ReconcileEvents(out: Collector, locals: Groups<PaymentState>, remotes: Groups<RemotePayment>, ghost x: Inputs,
      now: Time)
    requires LocalGroups(locals, x.local) && RemoteGroups(remotes, x.remote) && now == x.now
    modifies out`findings
    ensures out.findings == old(out.findings) + EventSide(out.policy, x, PaymentIds(x.local, x.remote))
  {
    hide EventFindings, LocalsOf, RemotesOf, PaymentIds, EventSide, LocalGroups, RemoteGroups, Groups.Get;
    assert EventSide(out.policy, x, []) == [] by {
      EventSideEmpty(out.policy, x);
    }
    var ids := Listed(locals.rows.Keys + remotes.rows.Keys);
    KeysListed(locals, remotes, x, ids);
    for i := 0 to |ids|
      invariant out.findings == old(out.findings) + EventSide(out.policy, x, ids[..i])
    {
      var id := ids[i];
      assert id in ids;
      GroupsGet(locals, remotes, x, id);
      EventSideGrows(out.policy, x, ids, i);
      ReconcilePayment(out, id, locals.Get(id), remotes.Get(id), now);
    }
    assert ids[..|ids|] == ids;
  }

  /** The lookup by reference, after the rows seen so far. */
  ghost predicate LooksUp(byRef: map<string, RemotePayment>, seen: seq<RemotePayment>) {
    forall ref :: LastWithRef(seen, ref) == if ref in byRef then Some(byRef[ref]) else None
  }

  method OverwriteGroup(byRef: map<string, RemotePayment>, ghost seen: seq<RemotePayment>, group: seq<RemotePayment>)
    returns (next: map<string, RemotePayment>)
    requires LooksUp(byRef, seen)
    ensures LooksUp(next, seen + group)
  {
    next := byRef;
    assert seen + group[..0] == seen;
    for j := 0 to |group|
      invariant LooksUp(next, seen + group[..j])
    {
      var row := group[j];
      assert seen + group[..j + 1] == (seen + group[..j]) + [row];
      assert (seen + group[..j] + [row])[..|seen| + j] == seen + group[..j];
      if row.providerRef != "" {
        next := next[row.providerRef := row];
      }
    }
    assert group[..|group|] == group;
  }

  lemma {:induction false} GroupedGrows(remote: seq<RemotePayment>, ids: seq<string>, i: nat)
    requires i < |ids|
    ensures Grouped(remote, ids[..i + 1]) == Grouped(remote, ids[..i]) + RemotesOf(remote, ids[i])
  {
    assert ids[..i + 1][..i] == ids[..i];
  }

  method BuildByRef(remotes: Groups<RemotePayment>, ghost remote: seq<RemotePayment>)
    returns (byRef: map<string, RemotePayment>)
    requires RemoteGroups(remotes, remote)
    ensures forall ref :: ByRef(remote, ref) == if ref in byRef then Some(byRef[ref]) else None
  {
    hide RemotesOf, LastWithRef;
    byRef := map[];
    assert LooksUp(byRef, []) by {
      NothingLooksUp();
    }
    for i := 0 to |remotes.order|
      invariant LooksUp(byRef, Grouped(remote, remotes.order[..i]))
    {
      assert remotes.order[i] in remotes.order;
      GroupedGrows(remote, remotes.order, i);
      byRef := OverwriteGroup(byRef, Grouped(remote, remotes.order[..i]), remotes.rows[remotes.order[i]]);
    }
    assert remotes.order[..|remotes.order|] == remotes.order;
  }

  lemma NothingLooksUp()
    ensures LooksUp(map[], [])
  {
  }

  // ------------------------------------------------------------- settlement side

  lemma {:induction false} SettlementGrows(policy: GatePolicy, x: Inputs, rows: seq<SettlementRow>, i: nat)
    requires i < |rows|
    ensures SettlementFindings(policy, x.local, x.remote, rows[..i + 1]) ==
            SettlementFindings(policy, x.local, x.remote, rows[..i]) +
            [SettlementFinding(policy, Joined(x.local, x.remote, rows[i].pspReference), rows[i])]
  {
    assert rows[..i + 1][..i] == rows[..i];
  }

  /** One row of the file; settled says whether it joined. */
  method SettleRow(out: Collector, target: Option<PaymentState>, row: SettlementRow) returns (settled: bool)
    modifies out`findings
    ensures out.findings == old(out.findings) + [SettlementFinding(out.policy, target, row)]
    ensures settled <==> target.Some?
  {
    settled := target.Some?;
    if target.None? {
      out.Add(UnknownRemoteRow, providerRef := Some(row.pspReference), currency := Some(row.currency));
      return;
    }
    var local := target.value;
    if row.currency != local.currency {
      out.Add(CurrencyDrift, paymentId := Some(local.paymentId), providerRef := Some(row.pspReference),
              currency := Some(local.currency));
      return;
    }
    var gross := local.captured;
    var delta := row.net - gross;
    var bps := if gross <= 0 then 10000 else RoundHalfEven(Magnitude(delta) * 10000, gross);
    var within := bps <= out.policy.feeToleranceBps;
    out.Add(FeeGrossNet, base := Some(if within then Info else Break), paymentId := Some(local.paymentId),
            providerRef := Some(row.pspReference), delta := Some(delta), currency := Some(local.currency));
  }

  /** What the run has settled once it has read the rows seen. */
  ghost predicate SettledBy(settled: set<string>, x: Inputs, seen: seq<SettlementRow>) {
    forall ref :: ref in settled <==> SettledRef(x.local, x.remote, seen, ref)
  }

  lemma SettledGrows(settled: set<string>, x: Inputs, seen: seq<SettlementRow>, row: SettlementRow)
    requires SettledBy(settled, x, seen)
    ensures SettledBy(if Joined(x.local, x.remote, row.pspReference).Some? then settled + {row.pspReference} else settled,
                      x, seen + [row])
  {
    hide Joined;
    forall ref ensures SettledRef(x.local, x.remote, seen + [row], ref) <==>
        SettledRef(x.local, x.remote, seen, ref) || (ref == row.pspReference && Joined(x.local, x.remote, ref).Some?) {
      assert row in seen + [row];
      assert forall r <- seen :: r in seen + [row];
    }
  }

  method SettleRows(out: Collector, locals: Groups<PaymentState>, byRef: map<string, RemotePayment>,
                    settlement: seq<SettlementRow>, ghost x: Inputs)
    returns (settled: set<string>)
    requires LocalGroups(locals, x.local)
    requires forall ref :: ByRef(x.remote, ref) == if ref in byRef then Some(byRef[ref]) else None
    modifies out`findings
    ensures out.findings ==
            old(out.findings) + SettlementFindings(out.policy, x.local, x.remote, Sort(settlement, ByReference))
    ensures SettledBy(settled, x, Sort(settlement, ByReference))
  {
    hide SettlementFinding, ByRef, LocalsOf, SettledBy, Sort, Distinct;
    var rows := Sort(settlement, ByReference);
    settled := {};
    assert SettledBy({}, x, []) by {
      NothingSettled(x);
    }
    for i := 0 to |rows|
      invariant out.findings == old(out.findings) + SettlementFindings(out.policy, x.local, x.remote, rows[..i])
      invariant SettledBy(settled, x, rows[..i])
    {
      var row := rows[i];
      var ls := if row.pspReference in byRef then locals.Get(byRef[row.pspReference].paymentId) else [];
      var target := if ls == [] then None else Some(ls[0]);
      assert target == Joined(x.local, x.remote, row.pspReference);
      SettlementGrows(out.policy, x, rows, i);
      SettledGrows(settled, x, rows[..i], row);
      assert rows[..i + 1] == rows[..i] + [row];
      var joined := SettleRow(out, target, row);
      if joined {
        settled := settled + {row.pspReference};
      }
    }
    assert rows[..|rows|] == rows;
  }

  lemma NothingSettled(x: Inputs)
    ensures SettledBy({}, x, [])
  {
  }

  lemma SettledInAnyOrder(settled: set<string>, x: Inputs)
    requires SettledBy(settled, x, Sort(x.settlement, ByReference))
    ensures SettledBy(settled, x, x.settlement)
  {
    ByReferencePreorder();
    SortMembers(x.settlement, ByReference);
  }

  lemma {:induction false} UnsettledGrows(policy: GatePolicy, x: Inputs, ids: seq<string>, i: nat)
    requires i < |ids|
    ensures UnsettledSide(policy, x, ids[..i + 1]) == UnsettledSide(policy, x, ids[..i]) + UnsettledOf(policy, x, ids[i])
  {
    assert ids[..i + 1][..i] == ids[..i];
  }

  method CheckSettled(out: Collector, id: string, local: PaymentState, remotes: seq<RemotePayment>,
      settled: set<string>, now: Time)
    modifies out`findings
    ensures out.findings == old(out.findings) + UnsettledFinding(
              out.policy, id, [local], remotes, remotes != [] && remotes[0].providerRef in settled, now)
  {
    if local.captured <= 0 || remotes == [] {
      return;
    }
    var remote := remotes[0];
    var age := now - remote.createdAt;
    if remote.providerRef in settled || age <= out.policy.settlementSla {
      return;
    }
    out.Add(UnsettledPastSla, paymentId := Some(id), providerRef := Some(remote.providerRef),
            delta := Some(local.captured), currency := Some(local.currency), age := Some(age));
  }

  lemma CheckedSettled(
    policy: GatePolicy, x: Inputs, locals: Groups<PaymentState>, remotes: Groups<RemotePayment>, settled: set<string>,
        id: string)
    requires LocalGroups(locals, x.local) && RemoteGroups(remotes, x.remote) && SettledBy(settled, x, x.settlement)
    requires id in locals.rows
    ensures locals.rows[id] != []
    ensures
      var rs := remotes.Get(id);
      UnsettledFinding(policy, id, [locals.rows[id][0]], rs, rs != [] && rs[0].providerRef in settled, x.now) ==
      UnsettledOf(policy, x, id)
  {
    GroupsGet(locals, remotes, x, id);
  }

  lemma ListedIds(ids: seq<string>, locals: Groups<PaymentState>, x: Inputs)
    requires LocalGroups(locals, x.local) && Ascending(ids) && forall id :: id in ids <==> id in locals.rows
    ensures ids == SortedSet(LocalIds(x.local))
  {
    DistinctMembers(LocalIds(x.local));
    SortedSetAscending(LocalIds(x.local));
    AscendingUnique(ids, SortedSet(LocalIds(x.local)));
  }

  method ReconcileSettlement(out: Collector, locals: Groups<PaymentState>, remotes: Groups<RemotePayment>,
                             settlement: seq<SettlementRow>, now: Time, ghost x: Inputs)
    requires LocalGroups(locals, x.local) && RemoteGroups(remotes, x.remote)
    requires settlement == x.settlement && now == x.now
    modifies out`findings
    ensures out.findings == old(out.findings)
            + SettlementFindings(out.policy, x.local, x.remote, Sort(x.settlement, ByReference))
            + UnsettledSide(out.policy, x, SortedSet(LocalIds(x.local)))
  {
    hide SettlementFindings, UnsettledFinding, UnsettledOf, UnsettledSide, SettledBy, Sort, ByRef, LocalGroups, RemoteGroups,
      SortedSet, Ascending;
    var byRef := BuildByRef(remotes, x.remote);
    var settled := SettleRows(out, locals, byRef, settlement, x);
    SettledInAnyOrder(settled, x);
    ghost var before := out.findings;
    var ids := Listed(locals.rows.Keys);
    ListedIds(ids, locals, x);
    assert UnsettledSide(out.policy, x, ids[..0]) == [] by {
      UnsettledEmpty(out.policy, x);
    }
    for i := 0 to |ids|
      invariant out.findings == before + UnsettledSide(out.policy, x, ids[..i])
    {
      var id := ids[i];
      assert id in ids;
      CheckedSettled(out.policy, x, locals, remotes, settled, id);
      UnsettledGrows(out.policy, x, ids, i);
      CheckSettled(out, id, locals.rows[id][0], remotes.Get(id), settled, now);
    }
    assert ids[..|ids|] == ids;
  }

  lemma {:induction false} UnsettledEmpty(policy: GatePolicy, x: Inputs)
    ensures UnsettledSide(policy, x, []) == []
  {
  }

  // -------------------------------------------------------------------- the report

  method ReconcileParked(out: Collector, parked: seq<ParkedDelivery>, now: Time)
    modifies out`findings
    ensures out.findings == old(out.findings) + ParkedFindings(out.policy, Sort(parked, ParkedOrder), now)
  {
    hide Sort;
    var rows := Sort(parked, ParkedOrder);
    for i := 0 to |rows|
      invariant out.findings == old(out.findings) + ParkedFindings(out.policy, rows[..i], now)
    {
      assert rows[..i + 1][..i] == rows[..i];
      var age := now - rows[i].receivedAt;
      var stale := age > out.policy.parkMaxAge;
      out.Add(if stale then ParkedStale else InFlight, paymentId := Some(rows[i].paymentId), age := Some(age));
    }
    assert rows[..|rows|] == rows;
  }

  datatype ExceptionReport = ExceptionReport(findings: seq<Finding>, counts: map<Severity, nat>)

  ghost predicate CountsBySeverity(counts: map<Severity, nat>, findings: seq<Finding>) {
    forall s: Severity :: s in counts && counts[s] == |OfSeverity(findings, s)|
  }

  method CountSeverities(findings: seq<Finding>) returns (counts: map<Severity, nat>)
    ensures CountsBySeverity(counts, findings)
  {
    counts := map[Info := 0, Warn := 0, Break := 0, Critical := 0];
    forall s: Severity ensures s in counts && counts[s] == |OfSeverity(findings[..0], s)| {
      assert s == Info || s == Warn || s == Break || s == Critical;
    }
    for i := 0 to |findings|
      invariant CountsBySeverity(counts, findings[..i])
    {
      assert findings[..i + 1][..i] == findings[..i];
      counts := counts[findings[i].severity := counts[findings[i].severity] + 1];
    }
    assert findings[..|findings|] == findings;
  }

  method ReconcileAll(policy: GatePolicy, x: Inputs) returns (report: ExceptionReport)
    ensures report.findings == Findings(policy, x)
    ensures CountsBySeverity(report.counts, report.findings)
  {
    hide UnknownFindings, EventSide, SettlementFindings, UnsettledSide, ParkedFindings, Sort, LocalGroups, RemoteGroups,
      CountsBySeverity;
    var out := new Collector(policy);
    var locals := GroupLocals(x.local);
    var remotes := GroupRemotes(out, x.remote, x.now);
    ReconcileEvents(out, locals, remotes, x, x.now);
    ReconcileSettlement(out, locals, remotes, x.settlement, x.now, x);
    ReconcileParked(out, x.parked, x.now);
    assert out.findings == RawFindings(policy, x);
    var findings := Sort(out.findings, ReportOrder);
    var counts := CountSeverities(findings);
    report := ExceptionReport(findings, counts);
  }
}
