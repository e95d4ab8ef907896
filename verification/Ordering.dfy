/** Text order by code point, a stable sort, and the one sorted listing a set has. */
module Ordering {

  predicate Less(a: string, b: string) {
    if b == "" then false
    else if a == "" then true
    else a[0] < b[0] || (a[0] == b[0] && Less(a[1..], b[1..]))
  }

  predicate AtMost(a: string, b: string) {
    !Less(b, a)
  }

  lemma {:induction false} LessTotal(a: string, b: string)
    ensures Less(a, b) || a == b || Less(b, a)
    ensures !(Less(a, b) && Less(b, a))
    ensures !Less(a, a)
  {
    if a != "" && b != "" {
      LessTotal(a[1..], b[1..]);
      LessTotal(a[1..], a[1..]);
      assert a == [a[0]] + a[1..] && b == [b[0]] + b[1..];
    } else if a != "" {
      LessTotal(a[1..], a[1..]);
    }
  }

  lemma {:induction false} LessTransitive(a: string, b: string, c: string)
    requires Less(a, b) && Less(b, c)
    ensures Less(a, c)
  {
    if a != "" && a[0] == b[0] == c[0] {
      LessTransitive(a[1..], b[1..], c[1..]);
    }
  }

  lemma {:induction false} FirstDifference(a: string, b: string, k: nat)
    requires k <= |a| && k < |b| && a[..k] == b[..k] && (k == |a| || a[k] < b[k])
    ensures Less(a, b)
    decreases k
  {
    if k > 0 {
      assert a[..k][0] == a[0] && b[..k][0] == b[0];
      assert a[1..][..k - 1] == a[..k][1..] && b[1..][..k - 1] == b[..k][1..];
      FirstDifference(a[1..], b[1..], k - 1);
    }
  }

  /** As many names as needed, in ascending order. */
  function Ident(i: nat): (name: string)
    ensures |name| == i
  {
    seq(i, (j: nat) => 'x')
  }

  lemma IdentsDiffer(i: nat, j: nat)
    requires i != j
    ensures Ident(i) != Ident(j)
  {
    assert |Ident(i)| == i && |Ident(j)| == j;
  }

  lemma {:induction false} IdentsAscend(i: nat, j: nat)
    requires i < j
    ensures Less(Ident(i), Ident(j))
    decreases i
  {
    if i > 0 {
      IdentsAscend(i - 1, j - 1);
      assert Ident(i)[1..] == Ident(i - 1) && Ident(j)[1..] == Ident(j - 1);
    }
  }

  lemma {:induction false} PrefixKeepsOrder(prefix: string, a: string, b: string)
    ensures Less(prefix + a, prefix + b) <==> Less(a, b)
    decreases |prefix|
  {
    if prefix == "" {
      assert prefix + a == a && prefix + b == b;
    } else {
      PrefixKeepsOrder(prefix[1..], a, b);
      assert (prefix + a)[1..] == prefix[1..] + a && (prefix + b)[1..] == prefix[1..] + b;
    }
  }

  // ---------------------------------------------------------------- stable sort

  ghost predicate Preorder<T(!new)>(le: (T, T) -> bool) {
    && (forall a, b :: le(a, b) || le(b, a))
    && (forall a, b, c :: le(a, b) && le(b, c) ==> le(a, c))
  }

  ghost predicate SortedBy<T>(xs: seq<T>, le: (T, T) -> bool) {
    forall i, j :: 0 <= i < j < |xs| ==> le(xs[i], xs[j])
  }

  function Insert<T>(x: T, xs: seq<T>, le: (T, T) -> bool): seq<T> {
    if xs == [] then [x]
    else if le(x, xs[0]) then [x] + xs
    else [xs[0]] + Insert(x, xs[1..], le)
  }

  function Sort<T>(xs: seq<T>, le: (T, T) -> bool): seq<T> {
    if xs == [] then [] else Insert(xs[0], Sort(xs[1..], le), le)
  }

  lemma PrependSorted<T(!new)>(x: T, xs: seq<T>, le: (T, T) -> bool)
    requires SortedBy(xs, le) && forall k :: 0 <= k < |xs| ==> le(x, xs[k])
    ensures SortedBy([x] + xs, le)
  {
  }

  lemma {:induction false} InsertKeeps<T>(x: T, xs: seq<T>, le: (T, T) -> bool)
    ensures multiset(Insert(x, xs, le)) == multiset{x} + multiset(xs)
  {
    if xs != [] {
      assert xs == [xs[0]] + xs[1..];
      if !le(x, xs[0]) {
        InsertKeeps(x, xs[1..], le);
      }
    }
  }

  lemma {:induction false} InsertedMember<T>(x: T, xs: seq<T>, le: (T, T) -> bool, k: nat)
    requires k < |Insert(x, xs, le)|
    ensures Insert(x, xs, le)[k] == x || Insert(x, xs, le)[k] in xs
  {
    InsertKeeps(x, xs, le);
    assert Insert(x, xs, le)[k] in multiset(Insert(x, xs, le));
  }

  lemma {:induction false} InsertSorts<T(!new)>(x: T, xs: seq<T>, le: (T, T) -> bool)
    requires Preorder(le) && SortedBy(xs, le)
    ensures SortedBy(Insert(x, xs, le), le)
  {
    if xs != [] {
      if !le(x, xs[0]) {
        InsertSorts(x, xs[1..], le);
        var rest := Insert(x, xs[1..], le);
        forall k | 0 <= k < |rest| ensures le(xs[0], rest[k]) {
          InsertedMember(x, xs[1..], le, k);
        }
        PrependSorted(xs[0], rest, le);
      } else {
        assert forall k :: 0 <= k < |xs| ==> le(x, xs[k]);
        PrependSorted(x, xs, le);
      }
    }
  }

  lemma {:induction false} SortSorts<T(!new)>(xs: seq<T>, le: (T, T) -> bool)
    requires Preorder(le)
    ensures SortedBy(Sort(xs, le), le)
    ensures multiset(Sort(xs, le)) == multiset(xs)
  {
    if xs != [] {
      SortSorts(xs[1..], le);
      InsertSorts(xs[0], Sort(xs[1..], le), le);
      InsertKeeps(xs[0], Sort(xs[1..], le), le);
      assert xs == [xs[0]] + xs[1..];
    }
  }

  lemma {:induction false} SortMembers<T(!new)>(xs: seq<T>, le: (T, T) -> bool)
    requires Preorder(le)
    ensures |Sort(xs, le)| == |xs|
    ensures forall x :: x in Sort(xs, le) <==> x in xs
  {
    SortSorts(xs, le);
    assert |multiset(Sort(xs, le))| == |multiset(xs)|;
    forall x ensures x in Sort(xs, le) <==> x in xs {
      assert x in Sort(xs, le) <==> x in multiset(Sort(xs, le));
      assert x in xs <==> x in multiset(xs);
    }
  }

  lemma {:induction false} SortNoRepeats<T(!new)>(xs: seq<T>, le: (T, T) -> bool)
    requires Preorder(le) && NoRepeats(xs)
    ensures NoRepeats(Sort(xs, le))
  {
    SortSorts(xs, le);
    var ys := Sort(xs, le);
    forall i, j | 0 <= i < j < |ys| ensures ys[i] != ys[j] {
      if ys[i] == ys[j] {
        RepeatCounted(ys, i, j);
        SingleCounted(xs, ys[i]);
      }
    }
  }

  /** The elements the order does not tell from this one, as they stand. */
  function Level<T>(xs: seq<T>, le: (T, T) -> bool, x: T): seq<T> {
    if xs == [] then []
    else (if le(xs[0], x) && le(x, xs[0]) then [xs[0]] else []) + Level(xs[1..], le, x)
  }

  lemma {:induction false} InsertStable<T(!new)>(y: T, xs: seq<T>, le: (T, T) -> bool, x: T)
    requires Preorder(le)
    ensures Level(Insert(y, xs, le), le, x) == Level([y] + xs, le, x)
  {
    assert ([y] + xs)[1..] == xs;
    if xs != [] && !le(y, xs[0]) {
      var rest := Insert(y, xs[1..], le);
      assert Insert(y, xs, le) == [xs[0]] + rest && ([xs[0]] + rest)[1..] == rest;
      InsertStable(y, xs[1..], le, x);
      assert ([y] + xs[1..])[1..] == xs[1..];
    }
  }

  /** The sort is stable: what the order does not tell apart keeps its place. */
  lemma {:induction false} SortStable<T(!new)>(xs: seq<T>, le: (T, T) -> bool, x: T)
    requires Preorder(le)
    ensures Level(Sort(xs, le), le, x) == Level(xs, le, x)
  {
    if xs != [] {
      SortStable(xs[1..], le, x);
      InsertStable(xs[0], Sort(xs[1..], le), le, x);
      assert ([xs[0]] + Sort(xs[1..], le))[1..] == Sort(xs[1..], le);
    }
  }

  lemma AtMostPreorder()
    ensures Preorder(AtMost)
  {
    forall a, b ensures AtMost(a, b) || AtMost(b, a) {
      LessTotal(a, b);
    }
    forall a, b, c | AtMost(a, b) && AtMost(b, c) ensures AtMost(a, c) {
      if Less(c, a) {
        LessTotal(a, b);
        LessTotal(b, c);
        if Less(a, b) {
          LessTransitive(c, a, b);
        }
      }
    }
  }

  // ------------------------------------------------------- distinct, sorted text

  function Distinct<T(==)>(xs: seq<T>): seq<T> {
    if xs == [] then []
    else
      var front := Distinct(xs[..|xs| - 1]);
      if xs[|xs| - 1] in front then front else front + [xs[|xs| - 1]]
  }

  ghost predicate NoRepeats<T>(xs: seq<T>) {
    forall i, j :: 0 <= i < j < |xs| ==> xs[i] != xs[j]
  }

  lemma {:induction false} DistinctMembers<T>(xs: seq<T>)
    ensures NoRepeats(Distinct(xs))
    ensures forall x :: x in Distinct(xs) <==> x in xs
    decreases |xs|
  {
    if xs != [] {
      DistinctMembers(xs[..|xs| - 1]);
      assert xs == xs[..|xs| - 1] + [xs[|xs| - 1]];
    }
  }

  ghost predicate Ascending(xs: seq<string>) {
    forall i, j :: 0 <= i < j < |xs| ==> Less(xs[i], xs[j])
  }

  /** sorted(set(xs)): ascending and without repeats. */
  function SortedSet(xs: seq<string>): seq<string> {
    Sort(Distinct(xs), AtMost)
  }

  lemma SortedSetAscending(xs: seq<string>)
    ensures Ascending(SortedSet(xs))
    ensures forall x :: x in SortedSet(xs) <==> x in xs
  {
    AtMostPreorder();
    DistinctMembers(xs);
    SortSorts(Distinct(xs), AtMost);
    SortMembers(Distinct(xs), AtMost);
    SortNoRepeats(Distinct(xs), AtMost);
    var ys := SortedSet(xs);
    forall i, j | 0 <= i < j < |ys| ensures Less(ys[i], ys[j]) {
      LessTotal(ys[i], ys[j]);
      assert AtMost(ys[i], ys[j]);
    }
  }

  lemma RepeatCounted<T>(xs: seq<T>, i: nat, j: nat)
    requires i < j < |xs| && xs[i] == xs[j]
    ensures multiset(xs)[xs[i]] >= 2
  {
    assert xs == xs[..i] + [xs[i]] + xs[i + 1..j] + [xs[j]] + xs[j + 1..];
  }

  lemma {:induction false} SingleCounted<T>(xs: seq<T>, x: T)
    requires NoRepeats(xs)
    ensures multiset(xs)[x] <= 1
  {
    if xs != [] {
      assert xs == [xs[0]] + xs[1..];
      SingleCounted(xs[1..], x);
      if xs[0] == x {
        assert x !in xs[1..];
      }
    }
  }

  lemma FirstIsLeast(xs: seq<string>, k: nat)
    requires Ascending(xs) && k < |xs|
    ensures xs[k] == xs[0] || Less(xs[0], xs[k])
  {
  }

  /** Two ascending listings of the same strings are the same listing. */
  lemma {:induction false} AscendingUnique(xs: seq<string>, ys: seq<string>)
    requires Ascending(xs) && Ascending(ys)
    requires forall x :: x in xs <==> x in ys
    ensures xs == ys
  {
    if xs == [] {
      assert forall k | 0 <= k < |ys| :: ys[k] in ys;
    } else {
      assert xs[0] in xs && xs[0] in ys;
      assert ys[0] in ys && ys[0] in xs;
      var j :| 0 <= j < |xs| && xs[j] == ys[0];
      var k :| 0 <= k < |ys| && ys[k] == xs[0];
      LessTotal(xs[0], ys[0]);
      FirstIsLeast(xs, j);
      FirstIsLeast(ys, k);
      forall x ensures x in xs[1..] <==> x in ys[1..] {
        TailMembers(xs, x);
        TailMembers(ys, x);
      }
      AscendingUnique(xs[1..], ys[1..]);
    }
  }

  lemma TailMembers(xs: seq<string>, x: string)
    requires Ascending(xs) && xs != []
    ensures x in xs[1..] <==> x in xs && x != xs[0]
  {
    LessTotal(xs[0], xs[0]);
    if x in xs[1..] {
      var k :| 0 <= k < |xs| - 1 && xs[1..][k] == x;
      assert Less(xs[0], xs[k + 1]);
    }
  }

  /** So a sorted set does not depend on the order its elements were met in. */
  lemma SortedSetCanonical(xs: seq<string>, ys: seq<string>)
    requires forall x :: x in xs <==> x in ys
    ensures SortedSet(xs) == SortedSet(ys)
  {
    SortedSetAscending(xs);
    SortedSetAscending(ys);
    AscendingUnique(SortedSet(xs), SortedSet(ys));
  }
}
