/** What the gate guarantees, for every report. */
module GateTheorems {
  import opened Wrappers
  import opened Ordering
  import opened Sums
  import opened Model
  import opened Reconcile
  import opened Gate

  // -------------------------------------------------------------------- members

  lemma {:induction false} OfSeverityMembers(findings: seq<Finding>, s: Severity)
    ensures forall f :: f in OfSeverity(findings, s) <==> f in findings && f.severity == s
    decreases |findings|
  {
    if findings != [] {
      OfSeverityMembers(findings[..|findings| - 1], s);
      assert findings == findings[..|findings| - 1] + [findings[|findings| - 1]];
    }
  }

  lemma {:induction false} TextsMembers(findings: seq<Finding>, field: Finding -> Option<string>)
    ensures forall t :: t in Texts(findings, field) <==> t != "" && exists f <- findings :: field(f) == Some(t)
    decreases |findings|
  {
    if findings != [] {
      var front, last := findings[..|findings| - 1], findings[|findings| - 1];
      TextsMembers(front, field);
      assert findings == front + [last];
      assert last in findings;
    }
  }

  lemma {:induction false} OutsideMembers(ids: seq<string>, scopeIds: seq<string>)
    ensures forall id :: id in Outside(ids, scopeIds) <==> id in ids && id !in scopeIds
    ensures Outside(ids, scopeIds) == ids <==> forall id <- ids :: id !in scopeIds
    ensures |Outside(ids, scopeIds)| <= |ids|
    decreases |ids|
  {
    if ids != [] {
      OutsideMembers(ids[..|ids| - 1], scopeIds);
      assert ids == ids[..|ids| - 1] + [ids[|ids| - 1]];
    }
  }

  /** A finding blocks when it is critical, or a break among material breaks. */
  predicate Blocks(policy: GatePolicy, findings: seq<Finding>, f: Finding) {
    f in findings && (f.severity == Critical || (f.severity == Break && Material(policy, OfSeverity(findings, Break))))
  }

  lemma EffectiveMembers(policy: GatePolicy, findings: seq<Finding>)
    ensures forall f :: f in Effective(policy, findings) <==> Blocks(policy, findings, f)
  {
    OfSeverityMembers(findings, Critical);
    OfSeverityMembers(findings, Break);
  }

  /** The field whose values a scope blocks; a batch is blocked whole. */
  function FieldOf(scope: Scope): Finding -> Option<string>
    requires scope != BatchScope
  {
    if scope == CurrencyScope then CurrencyOf else PaymentOf
  }

  /** Nothing blocks, or some blocking finding carries an id of the scope. */
  ghost predicate Named(policy: GatePolicy, findings: seq<Finding>)
    requires policy.scope != BatchScope
  {
    (exists f <- findings :: Blocks(policy, findings, f)) ==>
      exists f <- findings :: Blocks(policy, findings, f) && FieldOf(policy.scope)(f).GetOr("") != ""
  }

  // --------------------------------------------------------------- what is blocked

  /** Without a live break glass a blocking finding always blocks something, whatever the scope and
      whatever the findings carry; and nothing is blocked without one. */
  lemma FailsClosed(findings: seq<Finding>, policy: GatePolicy, now: Time)
    requires !Live(policy.breakGlass, now)
    ensures
      var decision := Decide(findings, policy, now);
      && (decision.outboundBlocked <==> exists f <- findings :: Blocks(policy, findings, f))
      && (decision.outboundBlocked <==> decision.blockedIds != [])
      && !decision.ingestBlocked
  {
    hide Material, Less, Sort, Distinct, SortedSet;
    var effective := Effective(policy, findings);
    EffectiveMembers(policy, findings);
    assert effective != [] ==> effective[0] in effective;
    ScopeIdsOfNothing(policy.scope);
  }

  lemma ScopeIdsOfNothing(scope: Scope)
    ensures ScopeIds(scope, []) == []
  {
    SortedSetAscending([]);
    AscendingUnique(SortedSet([]), []);
  }

  /** When some blocking finding carries an id of the scope, exactly the ids of the blocking findings
      are blocked, less those a live break glass names. */
  lemma BlockedExactly(findings: seq<Finding>, policy: GatePolicy, now: Time)
    requires policy.scope != BatchScope && Named(policy, findings)
    ensures
      var decision := Decide(findings, policy, now);
      && (forall id :: id in decision.blockedIds <==>
            && id != "" && (exists f <- findings :: Blocks(policy, findings, f) && FieldOf(policy.scope)(f) == Some(id))
            && !(Live(policy.breakGlass, now) && id in policy.breakGlass.value.scopeIds))
      && (decision.outboundBlocked <==> decision.blockedIds != [])
  {
    hide Material, Less, Sort, Distinct, SortedSet;
    var effective, field := Effective(policy, findings), FieldOf(policy.scope);
    EffectiveMembers(policy, findings);
    assert effective != [] ==> effective[0] in effective;
    TextsMembers(effective, field);
    SortedSetAscending(Texts(effective, field));
    var ids := ScopeIds(policy.scope, effective);
    forall id ensures id in ids <==> id != "" && exists f <- findings :: Blocks(policy, findings, f) && field(f) == Some(id) {
      if f :| f in findings && Blocks(policy, findings, f) && field(f) == Some(id) {
        assert f in effective;
      }
    }
    if effective != [] {
      var f :| f in findings && Blocks(policy, findings, f) && field(f).GetOr("") != "";
      assert field(f) == Some(field(f).value) && field(f).value in ids;
    }
    ScopeIdsOfNothing(policy.scope);
    if Live(policy.breakGlass, now) {
      OutsideMembers(ids, policy.breakGlass.value.scopeIds);
    }
  }

  /** Whatever the findings, the scope and the break glass: ingest is never blocked, outbound is blocked
      exactly while some id is, and the ids stand sorted, each once. */
  lemma IngestNeverBlocked(findings: seq<Finding>, policy: GatePolicy, now: Time)
    ensures
      var decision := Decide(findings, policy, now);
      && !decision.ingestBlocked
      && (decision.outboundBlocked <==> decision.blockedIds != [])
      && Ascending(decision.blockedIds)
  {
    var effective := Effective(policy, findings);
    GateIdsAscending(policy.scope, effective);
    hide Effective, ScopeIds, FallbackIds, Ascending;
    ScopeIdsOfNothing(policy.scope);
    if Live(policy.breakGlass, now) {
      OutsideAscending(GateIds(policy.scope, effective), policy.breakGlass.value.scopeIds);
    }
  }

  lemma GateIdsAscending(scope: Scope, effective: seq<Finding>)
    ensures Ascending(GateIds(scope, effective))
  {
    hide SortedSet, Texts, Less;
    SortedSetAscending(Texts(effective, PaymentOf));
    SortedSetAscending(Texts(effective, CurrencyOf));
    SortedSetAscending(Texts(effective, RefOf));
  }

  lemma {:induction false} OutsideAscending(ids: seq<string>, scopeIds: seq<string>)
    requires Ascending(ids)
    ensures Ascending(Outside(ids, scopeIds))
    decreases |ids|
  {
    hide Less;
    if ids != [] {
      var front, last := ids[..|ids| - 1], ids[|ids| - 1];
      OutsideAscending(front, scopeIds);
      OutsideMembers(front, scopeIds);
      var kept := Outside(front, scopeIds);
      forall i | 0 <= i < |kept| ensures Less(kept[i], last) {
        assert kept[i] in kept && kept[i] in front;
        var k :| 0 <= k < |front| && front[k] == kept[i];
        assert ids[k] == kept[i];
      }
    }
  }

  /** Under the currency scope the blocked ids are the currencies of the blocking findings, less a live break
      glass's, unless none of them has a currency. */
  lemma CurrenciesBlocked(findings: seq<Finding>, policy: GatePolicy, now: Time)
    requires policy.scope == CurrencyScope
    requires exists f <- findings :: Blocks(policy, findings, f) && f.currency.GetOr("") != ""
    ensures forall c :: c in Decide(findings, policy, now).blockedIds <==>
              && c != "" && (exists f <- findings :: Blocks(policy, findings, f) && f.currency == Some(c))
              && !(Live(policy.breakGlass, now) && c in policy.breakGlass.value.scopeIds)
  {
    hide Decide, Material;
    assert Named(policy, findings);
    BlockedExactly(findings, policy, now);
  }

  /** What stands in where the blocking findings carry no id of the scope: their provider references, or
      everything if they carry none of those either. A batch is blocked as everything. */
  lemma FallbackExactly(findings: seq<Finding>, policy: GatePolicy, now: Time)
    requires !Live(policy.breakGlass, now) && exists f <- findings :: Blocks(policy, findings, f)
    ensures policy.scope == BatchScope ==> Decide(findings, policy, now).blockedIds == ["*"]
    ensures policy.scope != BatchScope && !Named(policy, findings) ==>
      var ids := Decide(findings, policy, now).blockedIds;
      if exists f <- findings :: Blocks(policy, findings, f) && f.providerRef.GetOr("") != "" then
        forall ref :: ref in ids <==>
          ref != "" && exists f <- findings :: Blocks(policy, findings, f) && f.providerRef == Some(ref)
      else ids == ["*"]
  {
    var effective := Effective(policy, findings);
    EffectiveMembers(policy, findings);
    var blocking :| blocking in findings && Blocks(policy, findings, blocking);
    assert blocking in effective;
    if policy.scope != BatchScope && !Named(policy, findings) {
      NoScopeIds(policy, findings, effective);
      RefsListed(policy, findings, effective);
    }
  }

  lemma NoScopeIds(policy: GatePolicy, findings: seq<Finding>, effective: seq<Finding>)
    requires policy.scope != BatchScope && !Named(policy, findings)
    requires forall f :: f in effective <==> Blocks(policy, findings, f)
    ensures ScopeIds(policy.scope, effective) == []
  {
    hide Material, Less, Sort, Distinct, SortedSet;
    var field := FieldOf(policy.scope);
    TextsMembers(effective, field);
    SortedSetAscending(Texts(effective, field));
    var ids := SortedSet(Texts(effective, field));
    AscendingUnique(ids, []);
  }

  lemma RefsListed(policy: GatePolicy, findings: seq<Finding>, effective: seq<Finding>)
    requires forall f :: f in effective <==> Blocks(policy, findings, f)
    ensures
      if exists f <- findings :: Blocks(policy, findings, f) && f.providerRef.GetOr("") != "" then
        forall ref :: ref in FallbackIds(effective) <==>
          ref != "" && exists f <- findings :: Blocks(policy, findings, f) && f.providerRef == Some(ref)
      else FallbackIds(effective) == ["*"]
  {
    hide Material, Less, Sort, Distinct, SortedSet;
    TextsMembers(effective, RefOf);
    SortedSetAscending(Texts(effective, RefOf));
    var refs := SortedSet(Texts(effective, RefOf));
    if f :| f in findings && Blocks(policy, findings, f) && f.providerRef.GetOr("") != "" {
      assert f in effective && RefOf(f) == Some(f.providerRef.value) && f.providerRef.value in refs;
      forall ref ensures ref in refs <==>
          ref != "" && exists f <- findings :: Blocks(policy, findings, f) && f.providerRef == Some(ref) {
      }
    } else {
      assert refs != [] ==> refs[0] in refs && refs[0] in Texts(effective, RefOf);
    }
  }

  // -------------------------------------------------------------------- break glass

  /** A live break glass removes exactly the ids it names, and says so; one that has expired is inert. */
  lemma GlassRemovesItsScope(findings: seq<Finding>, policy: GatePolicy, glass: BreakGlass, now: Time)
    ensures
      var without := Decide(findings, policy.(breakGlass := None), now);
      var decision := Decide(findings, policy.(breakGlass := Some(glass)), now);
      if glass.expiresAt > now then
        && (forall id :: id in decision.blockedIds <==> id in without.blockedIds && id !in glass.scopeIds)
        && (decision.suppressedBy == Some(glass) <==> exists id <- without.blockedIds :: id in glass.scopeIds)
        && (decision.suppressedBy.None? ==> decision == without)
        && decision.suppressedBy in {None, Some(glass)}
        && (decision.outboundBlocked <==> decision.blockedIds != []) && !decision.ingestBlocked
      else decision == without
  {
    hide Less, Sort, Distinct, SortedSet;
    var effective := Effective(policy, findings);
    assert Effective(policy.(breakGlass := None), findings) == effective;
    assert Effective(policy.(breakGlass := Some(glass)), findings) == effective;
    OutsideMembers(GateIds(policy.scope, effective), glass.scopeIds);
    hide Effective, GateIds, Outside;
    IngestNeverBlocked(findings, policy.(breakGlass := Some(glass)), now);
  }

  // ------------------------------------------------------------- order and addition

  lemma {:induction false} OfSeverityCounts(findings: seq<Finding>, s: Severity, f: Finding)
    ensures multiset(OfSeverity(findings, s))[f] == if f.severity == s then multiset(findings)[f] else 0
    decreases |findings|
  {
    if findings != [] {
      var front, last := findings[..|findings| - 1], findings[|findings| - 1];
      OfSeverityCounts(front, s, f);
      assert findings == front + [last];
    }
  }

  lemma {:induction false} OfSeverityGrows(some: seq<Finding>, more: seq<Finding>, s: Severity)
    requires multiset(some) <= multiset(more)
    ensures multiset(OfSeverity(some, s)) <= multiset(OfSeverity(more, s))
  {
    forall f ensures multiset(OfSeverity(some, s))[f] <= multiset(OfSeverity(more, s))[f] {
      OfSeverityCounts(some, s, f);
      OfSeverityCounts(more, s, f);
    }
  }

  /** More breaks are never less material. */
  lemma MaterialGrows(policy: GatePolicy, some: seq<Finding>, more: seq<Finding>)
    requires multiset(some) <= multiset(more) && Material(policy, some)
    ensures Material(policy, more)
  {
    SmallerNotLonger(some, more);
    if |some| < policy.materialityCount {
      var f :| f in some && Measured(f) && Exposure(some, f.currency.value) >= policy.materialityValue;
      SumSubset(some, more, AbsIn(f.currency.value));
      assert f in more;
    }
  }

  lemma BlocksGrows(policy: GatePolicy, some: seq<Finding>, more: seq<Finding>, f: Finding)
    requires multiset(some) <= multiset(more) && Blocks(policy, some, f)
    ensures Blocks(policy, more, f)
  {
    SmallerNotLonger(some, more);
    if f.severity == Break {
      OfSeverityGrows(some, more, Break);
      MaterialGrows(policy, OfSeverity(some, Break), OfSeverity(more, Break));
    }
  }

  /** The decision blocks nothing, or blocks by ids of the scope: a batch as a whole, or through some
      blocking finding that carries an id. */
  ghost predicate Anchored(policy: GatePolicy, findings: seq<Finding>, now: Time) {
    policy.scope == BatchScope || Named(policy, findings) || Decide(findings, policy, now).blockedIds == []
  }

  /** Every id blocked for the one report is blocked for the other, and outbound movement stays shut. */
  ghost predicate NothingUnblocked(policy: GatePolicy, before: seq<Finding>, after: seq<Finding>, now: Time) {
    && (forall id <- Decide(before, policy, now).blockedIds :: id in Decide(after, policy, now).blockedIds)
    && (Decide(before, policy, now).outboundBlocked ==> Decide(after, policy, now).outboundBlocked)
  }

  lemma BlockingGrows(policy: GatePolicy, some: seq<Finding>, more: seq<Finding>)
    requires multiset(some) <= multiset(more)
    ensures forall f :: Blocks(policy, some, f) ==> Blocks(policy, more, f)
    ensures Effective(policy, some) != [] ==> Effective(policy, more) != []
  {
    hide Effective;
    forall f | Blocks(policy, some, f) ensures Blocks(policy, more, f) {
      BlocksGrows(policy, some, more, f);
    }
    EffectiveMembers(policy, some);
    EffectiveMembers(policy, more);
    if Effective(policy, some) != [] {
      assert Effective(policy, some)[0] in Effective(policy, some);
      assert Effective(policy, some)[0] in Effective(policy, more);
    }
  }

  /** Adding findings never unblocks an id nor reopens outbound movement, live break glass or not, as
      long as what was blocked before, if anything, was named by the scope's own ids. */
  lemma AddingNeverUnblocks(some: seq<Finding>, more: seq<Finding>, policy: GatePolicy, now: Time)
    requires multiset(some) <= multiset(more) && Anchored(policy, some, now)
    ensures NothingUnblocked(policy, some, more, now)
  {
    BlockingGrows(policy, some, more);
    if policy.scope == BatchScope {
      hide Effective;
    } else if Named(policy, some) {
      NamedNeverUnblocks(some, more, policy, now);
    }
  }

  lemma NamedNeverUnblocks(some: seq<Finding>, more: seq<Finding>, policy: GatePolicy, now: Time)
    requires policy.scope != BatchScope && multiset(some) <= multiset(more) && Named(policy, some)
    ensures NothingUnblocked(policy, some, more, now)
  {
    BlockingGrows(policy, some, more);
    SmallerNotLonger(some, more);
    hide Decide, Effective;
    assert forall f | Blocks(policy, some, f) :: f in some && f in more;
    hide Blocks;
    BlockedExactly(some, policy, now);
    var before, after := Decide(some, policy, now), Decide(more, policy, now);
    if before.blockedIds != [] {
      assert before.blockedIds[0] in before.blockedIds;
      BlockedExactly(more, policy, now);
    }
  }

  lemma SameMembers<T>(xs: seq<T>, ys: seq<T>)
    requires multiset(xs) == multiset(ys)
    ensures |xs| == |ys| && forall x :: x in xs <==> x in ys
  {
    SmallerNotLonger(xs, ys);
    SmallerNotLonger(ys, xs);
  }

  lemma MaterialAnyOrder(policy: GatePolicy, a: seq<Finding>, b: seq<Finding>)
    requires multiset(a) == multiset(b)
    ensures Material(policy, a) <==> Material(policy, b)
  {
    if Material(policy, a) {
      MaterialGrows(policy, a, b);
    }
    if Material(policy, b) {
      MaterialGrows(policy, b, a);
    }
  }

  lemma {:induction false} SameTexts(a: seq<Finding>, b: seq<Finding>, field: Finding -> Option<string>)
    requires forall f :: f in a <==> f in b
    ensures SortedSet(Texts(a, field)) == SortedSet(Texts(b, field))
  {
    TextsMembers(a, field);
    TextsMembers(b, field);
    SortedSetCanonical(Texts(a, field), Texts(b, field));
  }

  lemma SameGateIds(scope: Scope, a: seq<Finding>, b: seq<Finding>)
    requires forall f :: f in a <==> f in b
    ensures GateIds(scope, a) == GateIds(scope, b) && (a == [] <==> b == [])
  {
    hide Texts, SortedSet;
    SameTexts(a, b, PaymentOf);
    SameTexts(a, b, CurrencyOf);
    SameTexts(a, b, RefOf);
    assert a != [] ==> a[0] in b;
    assert b != [] ==> b[0] in a;
  }

  /** The decision does not depend on the order of the findings, under any scope. */
  lemma DecisionIgnoresOrder(a: seq<Finding>, b: seq<Finding>, policy: GatePolicy, now: Time)
    requires multiset(a) == multiset(b)
    ensures Decide(a, policy, now) == Decide(b, policy, now)
  {
    SameMembers(a, b);
    OfSeverityGrows(a, b, Break);
    OfSeverityGrows(b, a, Break);
    assert multiset(OfSeverity(a, Break)) == multiset(OfSeverity(b, Break));
    MaterialAnyOrder(policy, OfSeverity(a, Break), OfSeverity(b, Break));
    EffectiveMembers(policy, a);
    EffectiveMembers(policy, b);
    hide Material, Effective;
    SameGateIds(policy.scope, Effective(policy, a), Effective(policy, b));
    hide GateIds;
  }

  // ----------------------------------------------------- when no payment id is carried

  const ANONYMOUS := Finding(DuplicateRemote, Critical, NoDirection, None, Some("psp-1"), None, Some("EUR"), None)
  const NAMED := Finding(MissingLocally, Critical, NoDirection, Some("pay-1"), Some("psp-2"), None, Some("EUR"), None)

  lemma SmallSets(t: string)
    ensures SortedSet([]) == [] && SortedSet([t]) == [t]
  {
    SortedSetAscending([]);
    AscendingUnique(SortedSet([]), []);
    SortedSetAscending([t]);
    AscendingUnique(SortedSet([t]), [t]);
  }

  lemma TextsOfPair(a: Finding, b: Finding, field: Finding -> Option<string>)
    ensures
      var first := if field(a).GetOr("") != "" then [field(a).value] else [];
      var second := if field(b).GetOr("") != "" then [field(b).value] else [];
      Texts([a], field) == first && Texts([a, b], field) == first + second
  {
    assert [a][..0] == [] && [a, b][..1] == [a];
  }

  lemma {:induction false} OfSeverityOfPair(a: Finding, b: Finding, s: Severity)
    ensures
      var first := if a.severity == s then [a] else [];
      var second := if b.severity == s then [b] else [];
      OfSeverity([a], s) == first && OfSeverity([a, b], s) == first + second
  {
    assert [a][..0] == [] && [a, b][..1] == [a];
  }

  lemma EffectiveOfPair(policy: GatePolicy, a: Finding, b: Finding)
    requires a.severity == b.severity == Critical
    ensures Effective(policy, [a]) == [a] && Effective(policy, [a, b]) == [a, b]
  {
    hide OfSeverity, Material;
    OfSeverityOfPair(a, b, Critical);
    OfSeverityOfPair(a, b, Break);
  }

  lemma {:induction false} OutsideSingle(id: string, scopeIds: seq<string>)
    ensures Outside([id], scopeIds) == if id in scopeIds then [] else [id]
  {
    assert [id][..0] == [];
  }

  /** The proviso is needed: blocking findings without a payment id fall back to provider references,
      and one finding that has a payment id displaces them all. With a break glass on that payment,
      adding a critical finding even reopens outbound movement. */
  lemma AnonymousFindingsDisplaced(policy: GatePolicy, glass: BreakGlass, now: Time)
    requires policy.scope == PaymentScope && glass.expiresAt > now && glass.scopeIds == ["pay-1"]
    requires policy.breakGlass == Some(glass)
    ensures Decide([ANONYMOUS], policy, now).blockedIds == ["psp-1"] && Decide([ANONYMOUS], policy, now).outboundBlocked
    ensures Decide([ANONYMOUS, NAMED], policy, now).blockedIds == []
          && !Decide([ANONYMOUS, NAMED], policy, now).outboundBlocked
  {
    hide SortedSet, Texts, Outside, OfSeverity, Material, Effective;
    EffectiveOfPair(policy, ANONYMOUS, NAMED);
    TextsOfPair(ANONYMOUS, NAMED, PaymentOf);
    TextsOfPair(ANONYMOUS, NAMED, RefOf);
    assert Texts([ANONYMOUS, NAMED], PaymentOf) == ["pay-1"];
    SmallSets("pay-1");
    SmallSets("psp-1");
    OutsideSingle("pay-1", glass.scopeIds);
    OutsideSingle("psp-1", glass.scopeIds);
  }

  // ------------------------------------------------- exactly when adding may unblock

  /** A critical finding about one payment, in a currency named alike, so that either scope sees it. */
  function Newcomer(id: string): Finding {
    Finding(MissingLocally, Critical, NoDirection, Some(id), None, None, Some(id), None)
  }

  lemma {:induction false} NewcomerBlocks(policy: GatePolicy, some: seq<Finding>, id: string)
    ensures multiset(some) <= multiset(some + [Newcomer(id)])
    ensures forall f :: Blocks(policy, some + [Newcomer(id)], f) <==> Blocks(policy, some, f) || f == Newcomer(id)
  {
    var more := some + [Newcomer(id)];
    assert |more| - 1 == |some| && more[..|some|] == some && more[|some|] == Newcomer(id);
    assert OfSeverity(more, Break) == OfSeverity(some, Break);
    hide Material, OfSeverity;
    assert forall f :: f in more <==> f in some || f == Newcomer(id);
  }

  /** One such finding takes the place of every id a report without ids of the scope had blocked. */
  lemma NewcomerDisplaces(policy: GatePolicy, some: seq<Finding>, id: string, now: Time)
    requires policy.scope != BatchScope && !Named(policy, some) && id != ""
    ensures
      forall other :: other in Decide(some + [Newcomer(id)], policy, now).blockedIds <==>
        other == id && !(Live(policy.breakGlass, now) && id in policy.breakGlass.value.scopeIds)
    ensures Decide(some + [Newcomer(id)], policy, now).outboundBlocked <==>
            !(Live(policy.breakGlass, now) && id in policy.breakGlass.value.scopeIds)
  {
    var more, field := some + [Newcomer(id)], FieldOf(policy.scope);
    NewcomerBlocks(policy, some, id);
    assert Newcomer(id) in more && Blocks(policy, more, Newcomer(id));
    assert forall f :: Blocks(policy, some, f) ==> f in some && field(f).GetOr("") == "";
    hide Blocks, Decide;
    assert Named(policy, more);
    BlockedExactly(more, policy, now);
    forall other ensures
      (other != "" && exists f <- more :: Blocks(policy, more, f) && field(f) == Some(other)) <==> other == id
    {
      if f :| f in more && Blocks(policy, more, f) && field(f) == Some(other) && other != "" {
        assert f == Newcomer(id);
      }
    }
    var after := Decide(more, policy, now).blockedIds;
    assert after != [] ==> after[0] in after;
  }

  /** For every report: no addition ever unblocks anything exactly when the report is anchored. */
  lemma UnblocksExactly(some: seq<Finding>, policy: GatePolicy, now: Time)
    ensures Anchored(policy, some, now) <==>
            forall more: seq<Finding> :: multiset(some) <= multiset(more) ==> NothingUnblocked(policy, some, more, now)
  {
    hide NothingUnblocked;
    if Anchored(policy, some, now) {
      forall more: seq<Finding> | multiset(some) <= multiset(more) ensures NothingUnblocked(policy, some, more, now) {
        AddingNeverUnblocks(some, more, policy, now);
      }
    } else {
      var lost := Decide(some, policy, now).blockedIds[0];
      NewcomerBlocks(policy, some, lost + "*");
      NewcomerDisplaces(policy, some, lost + "*", now);
      Unlost(policy, some, some + [Newcomer(lost + "*")], lost, now);
    }
  }

  lemma Unlost(policy: GatePolicy, before: seq<Finding>, after: seq<Finding>, lost: string, now: Time)
    requires lost in Decide(before, policy, now).blockedIds && lost !in Decide(after, policy, now).blockedIds
    ensures !NothingUnblocked(policy, before, after, now)
  {
  }

  /** And an addition can reopen outbound movement exactly when the report is not anchored and a live
      break glass names some id. */
  lemma ReopensExactly(some: seq<Finding>, policy: GatePolicy, now: Time)
    requires Decide(some, policy, now).outboundBlocked
    ensures (exists more: seq<Finding> ::
               multiset(some) <= multiset(more) && !Decide(more, policy, now).outboundBlocked) <==>
            && !Anchored(policy, some, now)
            && Live(policy.breakGlass, now) && (exists id <- policy.breakGlass.value.scopeIds :: id != "")
  {
    hide Decide, Anchored;
    if more: seq<Finding> :| multiset(some) <= multiset(more) && !Decide(more, policy, now).outboundBlocked {
      if Anchored(policy, some, now) {
        AddingNeverUnblocks(some, more, policy, now);
        assert false;
      }
      ReopenedByGlass(some, more, policy, now);
    }
    if !Anchored(policy, some, now) && Live(policy.breakGlass, now) {
      if id :| id in policy.breakGlass.value.scopeIds && id != "" {
        Unanchored(policy, some, now);
        NewcomerBlocks(policy, some, id);
        NewcomerDisplaces(policy, some, id, now);
      }
    }
  }

  lemma Unanchored(policy: GatePolicy, some: seq<Finding>, now: Time)
    requires !Anchored(policy, some, now)
    ensures policy.scope != BatchScope && !Named(policy, some)
  {
  }

  /** Only a live break glass can open what a larger report blocks. */
  lemma ReopenedByGlass(some: seq<Finding>, more: seq<Finding>, policy: GatePolicy, now: Time)
    requires multiset(some) <= multiset(more)
    requires Decide(some, policy, now).outboundBlocked && !Decide(more, policy, now).outboundBlocked
    ensures Live(policy.breakGlass, now) && exists id <- policy.breakGlass.value.scopeIds :: id != ""
  {
    BlockingGrows(policy, some, more);
    hide Effective;
    var effective := Effective(policy, more);
    GateIdsNamed(policy.scope, effective);
    var ids := GateIds(policy.scope, effective);
    hide GateIds;
    if Live(policy.breakGlass, now) {
      OutsideMembers(ids, policy.breakGlass.value.scopeIds);
      assert ids[0] in ids && ids[0] !in Outside(ids, policy.breakGlass.value.scopeIds);
    }
  }

  /** Blocking findings always give the gate ids, and none of them is empty text. */
  lemma GateIdsNamed(scope: Scope, effective: seq<Finding>)
    requires effective != []
    ensures GateIds(scope, effective) != [] && "" !in GateIds(scope, effective)
  {
    hide SortedSet;
    TextsMembers(effective, PaymentOf);
    TextsMembers(effective, CurrencyOf);
    TextsMembers(effective, RefOf);
    SortedSetAscending(Texts(effective, PaymentOf));
    SortedSetAscending(Texts(effective, CurrencyOf));
    SortedSetAscending(Texts(effective, RefOf));
  }
}
