/** Authorization adjustments carry a new total, so the newest one decides the hold whichever order
    they arrive in. */
module Adjustments {
  import opened Model

  /** Distinctly sequenced adjustments in the aggregate's own currency. */
  ghost predicate Adjusting(s: PaymentState, xs: seq<Event>) {
    && (forall x <- xs :: x.kind == AdjustAuth && Priced(s, x))
    && (forall i, j :: 0 <= i < j < |xs| ==> xs[i].sequence != xs[j].sequence)
  }

  ghost predicate Newest(xs: seq<Event>, e: Event) {
    e in xs && forall x <- xs :: x.sequence <= e.sequence
  }

  lemma {:induction false} NewestExists(xs: seq<Event>) returns (e: Event)
    requires xs != []
    ensures Newest(xs, e)
  {
    if |xs| == 1 {
      e := xs[0];
    } else {
      var f := NewestExists(xs[1..]);
      e := if f.sequence >= xs[0].sequence then f else xs[0];
      assert xs == [xs[0]] + xs[1..];
    }
  }

  /** The outcome a run of adjustments xs must leave on s: the newest amount if it is not older than
      what the aggregate had already seen, else the hold it started with, and nothing else moved. */
  ghost predicate NewestHolds(s: PaymentState, xs: seq<Event>, t: PaymentState) {
    && t == s.(authorized := t.authorized, lastSequence := t.lastSequence)
    && t.authorized >= 0
    && t.lastSequence >= s.lastSequence
    && (forall x <- xs :: x.sequence <= t.lastSequence)
    && (t.lastSequence == s.lastSequence || exists x <- xs :: x.sequence == t.lastSequence)
    && (forall e :: Newest(xs, e) && e.sequence >= s.lastSequence ==> t.authorized == Minor(e))
    && ((forall x <- xs :: x.sequence < s.lastSequence) ==> t.authorized == s.authorized)
  }

  lemma AdjustOnce(s: PaymentState, x: Event)
    requires Sound(s) && s.rank == 10 && x.kind == AdjustAuth && Priced(s, x)
    ensures ApplyEffect(s, x) ==
            Folded(if x.sequence < s.lastSequence then s
                   else s.(authorized := Minor(x), lastSequence := x.sequence))
    ensures Sound(ApplyEffect(s, x).state)
  {
    assert s.captured == 0 && s.captureFailed == 0;
  }

  lemma NewestHoldsExtends(s: PaymentState, front: seq<Event>, last: Event, r: PaymentState, t: PaymentState)
    requires Adjusting(s, front + [last]) && NewestHolds(s, front, r)
    requires t == if last.sequence < r.lastSequence then r
                  else r.(authorized := Minor(last), lastSequence := last.sequence)
    requires Minor(last) >= 0
    ensures NewestHolds(s, front + [last], t)
  {
    var xs := front + [last];
    assert last == xs[|front|] && last in xs;
    assert forall x <- front :: x in xs;
    assert forall x <- xs :: x in front || x == last;
    forall x <- front ensures x.sequence != last.sequence {
      var i :| 0 <= i < |front| && front[i] == x;
      assert xs[i] == x;
    }
    forall e | Newest(xs, e) && e.sequence >= s.lastSequence
      ensures t.authorized == Minor(e)
    {
      if e != last {
        assert Newest(front, e);
      }
    }
  }

  /** The newest adjustment decides the hold, over any run of them. */
  lemma {:induction false} NewestWins(s: PaymentState, xs: seq<Event>)
    requires Sound(s) && s.rank == 10 && Adjusting(s, xs)
    ensures Sound(Replay(s, xs)) && NewestHolds(s, xs, Replay(s, xs))
    decreases |xs|
  {
    if xs != [] {
      var front, last := xs[..|xs| - 1], xs[|xs| - 1];
      assert last in xs && xs == front + [last];
      NewestWins(s, front);
      var r := Replay(s, front);
      AdjustOnce(r, last);
      NewestHoldsExtends(s, front, last, r, ApplyEffect(r, last).state);
    }
  }

  /** And none of them is refused or left waiting. */
  lemma {:induction false} EveryOneAccepted(s: PaymentState, xs: seq<Event>, i: nat)
    requires Sound(s) && s.rank == 10 && Adjusting(s, xs) && i < |xs|
    ensures ApplyEffect(Replay(s, xs[..i]), xs[i]).Folded?
  {
    NewestWins(s, xs[..i]);
    AdjustOnce(Replay(s, xs[..i]), xs[i]);
  }

  /** Arrival order is irrelevant: any permutation leaves the same aggregate. */
  lemma {:induction false} OrderIrrelevant(s: PaymentState, xs: seq<Event>, ys: seq<Event>)
    requires Sound(s) && s.rank == 10 && Adjusting(s, xs) && Adjusting(s, ys)
    requires multiset(xs) == multiset(ys)
    ensures Replay(s, xs) == Replay(s, ys)
  {
    NewestWins(s, xs);
    NewestWins(s, ys);
    forall e ensures e in xs <==> e in ys {
      assert e in xs <==> e in multiset(xs);
      assert e in ys <==> e in multiset(ys);
    }
    NewestHoldsUnique(s, xs, ys, Replay(s, xs), Replay(s, ys));
  }

  lemma NewestHoldsUnique(s: PaymentState, xs: seq<Event>, ys: seq<Event>, t: PaymentState, u: PaymentState)
    requires forall e :: e in xs <==> e in ys
    requires NewestHolds(s, xs, t) && NewestHolds(s, ys, u)
    ensures t == u
  {
    if xs != [] {
      assert xs[0] in ys;
      var e := NewestExists(xs);
      assert Newest(ys, e);
    }
  }

  /** Distinct sequences are needed: of two adjustments stamped alike and not stale, the later
      arrival stands, so the order is irrelevant exactly when their amounts agree. */
  lemma {:induction false} TieFollowsArrival(s: PaymentState, x: Event, y: Event)
    requires Sound(s) && s.rank == 10
    requires x.kind == y.kind == AdjustAuth && Priced(s, x) && Priced(s, y)
    requires x.sequence == y.sequence >= s.lastSequence
    ensures Replay(s, [x, y]) == Replay(s, [y, x]) <==> Minor(x) == Minor(y)
  {
    PairReplay(s, x, y);
    PairReplay(s, y, x);
  }

  lemma {:induction false} PairReplay(s: PaymentState, x: Event, y: Event)
    requires Sound(s) && s.rank == 10
    requires x.kind == y.kind == AdjustAuth && Priced(s, x) && Priced(s, y)
    requires x.sequence == y.sequence >= s.lastSequence
    ensures Replay(s, [x, y]) == s.(authorized := Minor(y), lastSequence := x.sequence)
  {
    assert [x, y][..1] == [x] && [x][..0] == [];
    assert Replay(s, [x]) == s.(authorized := Minor(x), lastSequence := x.sequence);
  }
}
