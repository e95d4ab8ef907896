/** One payment's stream: an authorization, one capture within it, refunds within the capture. What
    the ledger makes of such a stream in any order of arrival. */
module Streams {
  import opened Wrappers
  import opened Sums
  import opened Ordering
  import opened Model
  import opened Store
  import opened Ledger
  import opened LedgerTheorems

  /** The events of one payment, authorization first, capture second, refunds after. */
  ghost predicate PaymentStream(stream: seq<Event>, p: string, currency: string) {
    && |stream| >= 2
    && stream[0].kind == Authorize && stream[1].kind == Capture
    && (forall i :: 2 <= i < |stream| ==> stream[i].kind == Refund)
    && (forall e <- stream :: e.paymentId == p && e.amount.Some? && e.amount.value.currency == currency && Minor(e) >= 0)
    && (forall i, j :: 0 <= i < j < |stream| ==> KeyOf(stream[i]) != KeyOf(stream[j]))
    && Minor(stream[1]) <= Minor(stream[0])
    && Sum(stream, RefundMinor) <= Minor(stream[1])
  }

  /** No zero refund can meet a payment already refunded in full. */
  ghost predicate Admissible(stream: seq<Event>)
    requires |stream| >= 2
  {
    || Minor(stream[1]) == 0
    || Sum(stream, RefundMinor) < Minor(stream[1])
    || forall i :: 2 <= i < |stream| ==> Minor(stream[i]) > 0
  }

  /** The events folded so far are part of the stream and respect its prerequisites. */
  ghost predicate Partway(stream: seq<Event>, own: seq<Event>)
    requires |stream| >= 2
  {
    && NoRepeats(own)
    && (forall e <- own :: e in stream)
    && (|own| >= 1 ==> own[0] == stream[0])
    && (|own| >= 2 ==> own[1] == stream[1])
    && (forall i :: 2 <= i < |own| ==> own[i].kind == Refund)
  }

  /** The rank a partway payment has reached. */
  function RankAt(authorized: int, captured: int, refunded: int, events: nat): int {
    if events == 1 then 10
    else if events == 2 then (if captured > 0 && captured >= authorized then 50 else 40)
    else if captured > 0 && refunded >= captured then 70
    else 60
  }

  /** The aggregate after events of the stream, given what they sum to. */
  function StateAt(
    p: string, currency: string, authorized: int, captured: int, refunded: int, events: nat, newest: int): PaymentState
  {
    if events == 0 then Fresh(p, currency)
    else
      PaymentState(p, currency, authorized, captured, 0, refunded, 0, false, false,
                   RankAt(authorized, captured, refunded, events), newest)
  }

  function Reached(stream: seq<Event>, own: seq<Event>, p: string, currency: string): PaymentState
    requires |stream| >= 2
  {
    StateAt(p, currency, Minor(stream[0]), if |own| >= 2 then Minor(stream[1]) else 0, Sum(own, RefundMinor), |own|,
            NewestSequence(own))
  }

  lemma Authorizes(p: string, currency: string, e: Event)
    requires e.kind == Authorize && Priced(Fresh(p, currency), e)
    ensures ApplyEffect(Fresh(p, currency), e) == Folded(StateAt(p, currency, Minor(e), 0, 0, 1, Max(-1, e.sequence)))
  {
  }

  lemma Captures(p: string, currency: string, authorized: int, newest: int, e: Event)
    requires e.kind == Capture && Priced(Fresh(p, currency), e) && Minor(e) <= authorized
    ensures ApplyEffect(StateAt(p, currency, authorized, 0, 0, 1, newest), e) ==
            Folded(StateAt(p, currency, authorized, Minor(e), 0, 2, Max(newest, e.sequence)))
  {
  }

  lemma Refunds(p: string, currency: string, authorized: int, captured: int, refunded: int, events: nat, newest: int,
      e: Event)
    requires e.kind == Refund && Priced(Fresh(p, currency), e) && events >= 2
    requires 0 <= refunded && refunded + Minor(e) <= captured <= authorized
    requires events == 2 ==> refunded == 0
    ensures ApplyEffect(StateAt(p, currency, authorized, captured, refunded, events, newest), e) ==
            if Minor(e) == 0 && captured > 0 && refunded == captured then Refused(IllegalTransition)
            else Folded(StateAt(p, currency, authorized, captured, refunded + Minor(e), events + 1, Max(newest, e.sequence)))
  {
  }

  lemma WaitsFor(p: string, currency: string, authorized: int, newest: int, events: nat, e: Event)
    requires Priced(Fresh(p, currency), e) && authorized >= 0
    requires (e.kind == Capture && events == 0) || (e.kind == Refund && events <= 1)
    ensures ApplyEffect(StateAt(p, currency, authorized, 0, 0, events, newest), e) == Premature
  {
  }

  // ------------------------------------------------------------ one more arrival

  /** The prerequisite of e is already folded. */
  predicate Ready(stream: seq<Event>, own: seq<Event>, e: Event)
    requires |stream| >= 2
  {
    match e.kind
    case Capture => |own| >= 1
    case Refund => |own| >= 2
    case _ => true
  }

  /** A zero refund on a payment refunded in full: the one arrival the ledger turns away. */
  predicate Superfluous(stream: seq<Event>, own: seq<Event>, e: Event)
    requires |stream| >= 2
  {
    e.kind == Refund && Minor(e) == 0 && Minor(stream[1]) > 0 && Sum(own, RefundMinor) == Minor(stream[1])
  }

  lemma {:induction false} SubsetMultiset<T>(xs: seq<T>, ys: seq<T>)
    requires NoRepeats(xs) && forall x <- xs :: x in ys
    ensures multiset(xs) <= multiset(ys)
  {
    forall x ensures multiset(xs)[x] <= multiset(ys)[x] {
      SingleCounted(xs, x);
      if x in xs {
        assert x in ys && x in multiset(ys);
      } else {
        assert x !in multiset(xs);
      }
    }
  }

  lemma {:induction false} RoomForRefund(stream: seq<Event>, own: seq<Event>, e: Event, p: string, currency: string)
    requires PaymentStream(stream, p, currency) && Partway(stream, own) && e in stream && e !in own
    ensures Sum(own, RefundMinor) + RefundMinor(e) <= Minor(stream[1])
    ensures 0 <= Sum(own, RefundMinor)
  {
    SubsetMultiset(own + [e], stream);
    SumSubset(own + [e], stream, RefundMinor);
    SumSnoc(own, e, RefundMinor);
    SumNonNegative(own, RefundMinor);
  }

  lemma KindPlaces(stream: seq<Event>, e: Event, p: string, currency: string)
    requires PaymentStream(stream, p, currency) && e in stream
    ensures e.kind == Authorize <==> e == stream[0]
    ensures e.kind == Capture <==> e == stream[1]
    ensures e.kind in {Authorize, Capture, Refund}
  {
    var i :| 0 <= i < |stream| && stream[i] == e;
  }

  lemma {:induction false} FewRefundNothing(own: seq<Event>, stream: seq<Event>, p: string, currency: string)
    requires PaymentStream(stream, p, currency) && Partway(stream, own) && |own| <= 2
    ensures Sum(own, RefundMinor) == 0
  {
    assert stream[0].kind == Authorize && stream[1].kind == Capture;
    assert Sum([], RefundMinor) == 0;
    if |own| == 1 {
      assert own[1..] == [];
    } else if |own| == 2 {
      assert own[1..][1..] == [] && own[1..][0] == own[1];
      assert Sum(own[1..], RefundMinor) == RefundMinor(own[1]) + Sum([], RefundMinor);
    }
  }

  /** The verdict on an arrival that is not a repeat, for the aggregate partway through the stream. */
  lemma ArrivalVerdict(stream: seq<Event>, own: seq<Event>, e: Event, p: string, currency: string)
    requires PaymentStream(stream, p, currency) && Partway(stream, own) && e in stream && e !in own
    ensures
      ApplyEffect(Reached(stream, own, p, currency), e) ==
        if !Ready(stream, own, e) then Premature
        else if Superfluous(stream, own, e) then Refused(IllegalTransition)
        else Folded(Reached(stream, own + [e], p, currency))
  {
    assert |stream| >= 2;
    hide ApplyEffect, StateAt, PaymentStream, Partway;
    ArrivalFacts(stream, own, e, p, currency);
    var authorized, captured, refunded := Minor(stream[0]), Minor(stream[1]), Sum(own, RefundMinor);
    match e.kind
    case Authorize => Authorizes(p, currency, e);
      AtStart(p, currency, authorized, refunded, NewestSequence(own));
    case Capture =>
      if own == [] {
        WaitsFor(p, currency, authorized, NewestSequence(own), 0, e);
      } else {
        Captures(p, currency, authorized, NewestSequence(own), e);
      }
    case Refund =>
      if |own| < 2 {
        WaitsFor(p, currency, authorized, NewestSequence(own), |own|, e);
      } else {
        Refunds(p, currency, authorized, captured, refunded, |own|, NewestSequence(own), e);
      }
  }

  lemma AtStart(p: string, currency: string, authorized: int, refunded: int, newest: int)
    ensures StateAt(p, currency, authorized, 0, refunded, 0, newest) == Fresh(p, currency)
  {
  }

  lemma {:induction false} ArrivalFacts(stream: seq<Event>, own: seq<Event>, e: Event, p: string, currency: string)
    requires PaymentStream(stream, p, currency) && Partway(stream, own) && e in stream && e !in own
    ensures e.kind in {Authorize, Capture, Refund}
    ensures Priced(Fresh(p, currency), e) && 0 <= Minor(stream[1]) <= Minor(stream[0])
    ensures e.kind == Authorize ==> own == [] && e == stream[0]
    ensures e.kind == Capture ==> |own| <= 1 && e == stream[1]
    ensures |own| <= 2 ==> Sum(own, RefundMinor) == 0
    ensures own == [] ==> NewestSequence(own) == -1
    ensures 0 <= Sum(own, RefundMinor) && Sum(own, RefundMinor) + RefundMinor(e) <= Minor(stream[1])
    ensures Sum(own + [e], RefundMinor) == Sum(own, RefundMinor) + RefundMinor(e)
    ensures NewestSequence(own + [e]) == Max(NewestSequence(own), e.sequence)
  {
    assert |stream| >= 2;
    ArrivalPlace(stream, own, e, p, currency);
    assert (own + [e])[..|own|] == own;
    hide PaymentStream, Partway, Sum, Priced;
    RoomForRefund(stream, own, e, p, currency);
    SumSnoc(own, e, RefundMinor);
    if |own| <= 2 {
      FewRefundNothing(own, stream, p, currency);
    }
  }

  lemma ArrivalPlace(stream: seq<Event>, own: seq<Event>, e: Event, p: string, currency: string)
    requires PaymentStream(stream, p, currency) && Partway(stream, own) && e in stream && e !in own
    ensures e.kind in {Authorize, Capture, Refund}
    ensures Priced(Fresh(p, currency), e) && 0 <= Minor(stream[1]) <= Minor(stream[0])
    ensures e.kind == Authorize ==> own == [] && e == stream[0]
    ensures e.kind == Capture ==> |own| <= 1 && e == stream[1]
  {
    KindPlaces(stream, e, p, currency);
    hide Sum;
    assert stream[0] in stream && stream[1] in stream;
    assert forall i :: 0 <= i < |own| ==> own[i] in own;
  }

  lemma PartwayFront(stream: seq<Event>, own: seq<Event>)
    requires |stream| >= 2 && Partway(stream, own) && own != []
    ensures Partway(stream, own[..|own| - 1])
    ensures own[|own| - 1] in stream && own[|own| - 1] !in own[..|own| - 1]
  {
    assert own[|own| - 1] in own;
  }

  /** Any accepted fold of stream events has the aggregate its sums describe. */
  lemma {:induction false} FoldReached(stream: seq<Event>, own: seq<Event>, p: string, currency: string)
    requires PaymentStream(stream, p, currency) && Partway(stream, own)
    requires StrictFold(Fresh(p, currency), own).Some?
    ensures StrictFold(Fresh(p, currency), own).value == Reached(stream, own, p, currency)
    decreases |own|
  {
    assert |stream| >= 2;
    hide ApplyEffect, PaymentStream, Partway;
    if own != [] {
      var front, last := own[..|own| - 1], own[|own| - 1];
      assert own == front + [last];
      PartwayFront(stream, own);
      FoldReached(stream, front, p, currency);
      ArrivalVerdict(stream, front, last, p, currency);
    }
  }

  lemma PartwayGrows(stream: seq<Event>, own: seq<Event>, e: Event, p: string, currency: string)
    requires PaymentStream(stream, p, currency) && Partway(stream, own) && e in stream && e !in own
          && Ready(stream, own, e)
    ensures Partway(stream, own + [e])
  {
    KindPlaces(stream, e, p, currency);
    var after := own + [e];
    forall i | 0 <= i < |own| ensures after[i] == own[i] && own[i] in own {
    }
  }

  // ------------------------------------------------------------------ on the books

  ghost predicate BooksPartway(stream: seq<Event>, b: Books, p: string)
    requires |stream| >= 2
  {
    BooksSound(b) && Partway(stream, Own(b.effects, p))
  }

  lemma {:induction false} KeyInBooks(stream: seq<Event>, b: Books, e: Event, p: string, currency: string)
    requires PaymentStream(stream, p, currency) && BooksPartway(stream, b, p) && e in stream
    ensures HasKey(b.effects, KeyOf(e)) <==> e in Own(b.effects, p)
  {
    OwnMembers(b.effects, p);
    if HasKey(b.effects, KeyOf(e)) {
      var x :| x in b.effects && KeyOf(x.event) == KeyOf(e);
      assert x.event in Own(b.effects, p);
      var i :| 0 <= i < |stream| && stream[i] == x.event;
      var j :| 0 <= j < |stream| && stream[j] == e;
    }
  }

  lemma {:induction false} StateReached(stream: seq<Event>, b: Books, e: Event, p: string, currency: string)
    requires PaymentStream(stream, p, currency) && BooksPartway(stream, b, p) && e in stream
    ensures StateBefore(b, e) == Some(Reached(stream, Own(b.effects, p), p, currency))
  {
    var own := Own(b.effects, p);
    assert Find(b.payments, p) == RowOf(p, own);
    if own != [] {
      assert own[0] in own;
      FoldReached(stream, own, p, currency);
    }
  }

  /** Posting an arrival on sound books partway through the stream: a repeat is a no-op, an early
      one waits, a superfluous zero refund is refused, anything else is folded. */
  lemma {:induction false} PostArrival(stream: seq<Event>, b: Books, id: string, e: Event, p: string, currency: string)
    requires PaymentStream(stream, p, currency) && BooksPartway(stream, b, p) && e in stream
    ensures
      var own, posting := Own(b.effects, p), Post(b, true, id, e);
      if e in own then posting == NoopDuplicate
      else if !Ready(stream, own, e) then posting == Waits
      else if Superfluous(stream, own, e) then posting == Raised(IllegalTransition)
      else posting.Posted? && BooksPartway(stream, posting.books, p) && Own(posting.books.effects, p) == own + [e]
  {
    hide ApplyEffect, BooksSound, Reached, Ready, Superfluous;
    var own := Own(b.effects, p);
    KeyInBooks(stream, b, e, p, currency);
    StateReached(stream, b, e, p, currency);
    if e !in own {
      ArrivalVerdict(stream, own, e, p, currency);
      PostKeepsBooks(b, true, id, e);
      OwnSnoc(b.effects, Effect(id, e), p);
      if Ready(stream, own, e) {
        PartwayGrows(stream, own, e, p, currency);
      }
    }
  }

  lemma AdmissibleNeverSuperfluous(stream: seq<Event>, own: seq<Event>, e: Event, p: string, currency: string)
    requires PaymentStream(stream, p, currency) && Admissible(stream) && Partway(stream, own) && e in stream
          && e !in own
    ensures !Superfluous(stream, own, e)
  {
    KindPlaces(stream, e, p, currency);
    var i :| 0 <= i < |stream| && stream[i] == e;
    SubsetMultiset(own, stream);
    SumSubset(own, stream, RefundMinor);
  }

  // -------------------------------------------------- which streams settle in any order

  const NO_BOOKS := Books([], map[])

  function PostNextOf(before: Option<Books>, e: Event): Option<Books> {
    if before.None? then None
    else
      match Post(before.value, true, "", e)
      case Posted(after) => Some(after)
      case _ => None
  }

  /** The books after each event of an order has been accepted; None once one is not. */
  function PostAll(order: seq<Event>): Option<Books>
    decreases |order|
  {
    if order == [] then Some(NO_BOOKS)
    else
      PostNextOf(PostAll(order[..|order| - 1]), order[|order| - 1])
  }

  /** An order in which nothing arrives early: the stream's own first two events, then the refunds
      in any order. */
  ghost predicate RefundOrder(stream: seq<Event>, order: seq<Event>)
    requires |stream| >= 2
  {
    multiset(order) == multiset(stream) && |order| == |stream| && order[0] == stream[0] && order[1] == stream[1]
  }

  lemma {:induction false} NoBooksPartway(stream: seq<Event>, p: string)
    requires |stream| >= 2
    ensures BooksPartway(stream, NO_BOOKS, p) && Own(NO_BOOKS.effects, p) == []
  {
    forall q: string ensures Find(NO_BOOKS.payments, q) == RowOf(q, Own(NO_BOOKS.effects, q)) {
    }
  }

  lemma OrderFacts(stream: seq<Event>, order: seq<Event>, p: string, currency: string)
    requires PaymentStream(stream, p, currency) && RefundOrder(stream, order)
    ensures NoRepeats(order) && forall e <- order :: e in stream
  {
    forall e | e in order ensures e in stream {
      assert e in multiset(order);
    }
    assert NoRepeats(stream);
    forall i, j | 0 <= i < j < |order| ensures order[i] != order[j] {
      if order[i] == order[j] {
        RepeatCounted(order, i, j);
        SingleCounted(stream, order[i]);
      }
    }
  }

  lemma {:induction false} PostNext(stream: seq<Event>, order: seq<Event>, n: nat, b: Books, p: string,
      currency: string)
    requires PaymentStream(stream, p, currency) && RefundOrder(stream, order) && n < |order|
    requires BooksPartway(stream, b, p) && Own(b.effects, p) == order[..n]
    ensures
      var posting := Post(b, true, "", order[n]);
      if Superfluous(stream, order[..n], order[n]) then posting == Raised(IllegalTransition)
      else posting.Posted? && BooksPartway(stream, posting.books, p) && Own(posting.books.effects, p) == order[..n] + [order[n]]
    ensures Admissible(stream) ==> !Superfluous(stream, order[..n], order[n])
  {
    hide Post, Superfluous;
    OrderFacts(stream, order, p, currency);
    var e := order[n];
    assert e in order && e !in order[..n];
    KindPlaces(stream, e, p, currency);
    PostArrival(stream, b, "", e, p, currency);
    if Admissible(stream) {
      AdmissibleNeverSuperfluous(stream, order[..n], e, p, currency);
    }
  }

  /** What posting the first n events of an order leaves. */
  ghost predicate PrefixFits(stream: seq<Event>, order: seq<Event>, n: nat, p: string)
    requires |stream| >= 2 && n <= |order|
  {
    && (PostAll(order[..n]).Some? ==>
          BooksPartway(stream, PostAll(order[..n]).value, p) && Own(PostAll(order[..n]).value.effects, p) == order[..n])
    && (Admissible(stream) ==> PostAll(order[..n]).Some?)
  }

  lemma {:induction false} PostAllSnoc(order: seq<Event>, n: nat)
    requires n < |order|
    ensures PostAll(order[..n + 1]) == PostNextOf(PostAll(order[..n]), order[n])
    ensures order[..n + 1] == order[..n] + [order[n]]
  {
    hide PostNextOf;
    assert order[..n + 1][..n] == order[..n];
  }

  lemma {:induction false} PrefixGrows(stream: seq<Event>, order: seq<Event>, n: nat, p: string, currency: string)
    requires PaymentStream(stream, p, currency) && RefundOrder(stream, order) && n < |order|
    requires PrefixFits(stream, order, n, p)
    ensures PrefixFits(stream, order, n + 1, p)
  {
    PostAllSnoc(order, n);
    assert |stream| >= 2;
    hide Post, PostAll, BooksPartway, PaymentStream, Admissible, RefundOrder, Superfluous;
    if PostAll(order[..n]).Some? {
      PostNext(stream, order, n, PostAll(order[..n]).value, p, currency);
    }
  }

  lemma {:induction false} PrefixPosted(stream: seq<Event>, order: seq<Event>, n: nat, p: string, currency: string)
    requires PaymentStream(stream, p, currency) && RefundOrder(stream, order) && n <= |order|
    ensures PrefixFits(stream, order, n, p)
    decreases n
  {
    if n == 0 {
      NoBooksPartway(stream, p);
    } else {
      hide PrefixFits, RefundOrder;
      PrefixPosted(stream, order, n - 1, p, currency);
      PrefixGrows(stream, order, n - 1, p, currency);
    }
  }

  /** The stream with its k-th event, a refund, moved to the end. */
  function Postponed(stream: seq<Event>, k: nat): seq<Event>
    requires 2 <= k < |stream|
  {
    Without(stream, k) + [stream[k]]
  }

  lemma {:induction false} PostponedOrder(stream: seq<Event>, k: nat)
    requires 2 <= k < |stream|
    ensures RefundOrder(stream, Postponed(stream, k))
    ensures Sum(stream, RefundMinor) == RefundMinor(stream[k]) + Sum(Without(stream, k), RefundMinor)
  {
    SumWithout(stream, k, RefundMinor);
  }

  /** Every order of the refunds settles exactly when no zero refund is left over by a full one. */
  lemma AdmissibleIff(stream: seq<Event>, p: string, currency: string)
    requires PaymentStream(stream, p, currency)
    ensures Admissible(stream) <==> forall order :: RefundOrder(stream, order) ==> PostAll(order).Some?
  {
    forall order | RefundOrder(stream, order) ensures Admissible(stream) ==> PostAll(order).Some? {
      assert order[..|order|] == order;
      PrefixPosted(stream, order, |order|, p, currency);
    }
    if !Admissible(stream) {
      var k :| 2 <= k < |stream| && Minor(stream[k]) <= 0;
      assert stream[k] in stream && Minor(stream[k]) == 0;
      LeftOverRefused(stream, k, p, currency);
      PostponedOrder(stream, k);
      assert PostAll(Postponed(stream, k)).None?;
    }
  }

  /** The failing order: a zero refund arriving after refunds that already total the capture. */
  lemma {:induction false} LeftOverRefused(stream: seq<Event>, k: nat, p: string, currency: string)
    requires PaymentStream(stream, p, currency) && 2 <= k < |stream| && Minor(stream[k]) == 0
    requires Minor(stream[1]) > 0 && Sum(stream, RefundMinor) == Minor(stream[1])
    ensures PostAll(Postponed(stream, k)).None?
    ensures PostAll(Without(stream, k)).Some? ==>
              Post(PostAll(Without(stream, k)).value, true, "", stream[k]) == Raised(IllegalTransition)
  {
    var order, front := Postponed(stream, k), Without(stream, k);
    PostponedOrder(stream, k);
    assert order[..|front|] == front && order[|front|] == stream[k];
    PrefixPosted(stream, order, |front|, p, currency);
    if PostAll(front).Some? {
      PostNext(stream, order, |front|, PostAll(front).value, p, currency);
    }
  }
}
