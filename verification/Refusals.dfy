/** The other half of confluence: a stream with a zero refund left over has an order of arrival that three
    drain passes do not settle. */
module Refusals {
  import opened Wrappers
  import opened Ordering
  import opened Sums
  import opened Model
  import opened Store
  import opened Ledger
  import opened LedgerTheorems
  import opened Inbox
  import opened Drain
  import opened Streams
  import opened Confluence

  // --------------------------------------------------------- the refused order

  /** The events that move nothing, or those that move something, in their order. */
  function Kept(events: seq<Event>, zero: bool): seq<Event> {
    if events == [] then []
    else
      var last := events[|events| - 1];
      Kept(events[..|events| - 1], zero) + (if (Minor(last) == 0) == zero then [last] else [])
  }

  lemma {:induction false} KeptMembers(events: seq<Event>, zero: bool)
    ensures forall e :: e in Kept(events, zero) <==> e in events && (Minor(e) == 0) == zero
    decreases |events|
  {
    if events != [] {
      var front, last := events[..|events| - 1], events[|events| - 1];
      KeptMembers(front, zero);
      assert events == front + [last];
    }
  }

  lemma {:induction false} KeptAll(events: seq<Event>)
    ensures multiset(Kept(events, true)) + multiset(Kept(events, false)) == multiset(events)
    decreases |events|
  {
    if events != [] {
      var front, last := events[..|events| - 1], events[|events| - 1];
      KeptAll(front);
      assert events == front + [last];
    }
  }

  predicate LeftOver(stream: seq<Event>, k: nat) {
    2 <= k < |stream| && Minor(stream[k]) == 0 && Minor(stream[1]) > 0 && Sum(stream, RefundMinor) == Minor(stream[1])
  }

  lemma InadmissibleLeavesOver(stream: seq<Event>, p: string, currency: string) returns (k: nat)
    requires PaymentStream(stream, p, currency) && !Admissible(stream)
    ensures LeftOver(stream, k)
  {
    k :| 2 <= k < |stream| && Minor(stream[k]) <= 0;
    assert stream[k] in stream && stream[1] in stream;
  }

  /** The refunds other than the k-th, those of zero first. */
  function OtherRefunds(stream: seq<Event>, k: nat): seq<Event>
    requires 2 <= k < |stream|
  {
    Kept(Without(stream, k)[2..], true) + Kept(Without(stream, k)[2..], false)
  }

  lemma StreamParts(stream: seq<Event>, k: nat)
    requires 2 <= k < |stream|
    ensures multiset(stream) == multiset(stream[..2]) + multiset(OtherRefunds(stream, k)) + multiset{stream[k]}
    ensures |OtherRefunds(stream, k)| == |stream| - 3
    ensures forall e <- OtherRefunds(stream, k) :: e in stream[2..]
  {
    var rest := Without(stream, k)[2..];
    KeptAll(rest);
    KeptMembers(rest, true);
    KeptMembers(rest, false);
    SumWithout(stream, k, RefundMinor);
    assert Without(stream, k) == stream[..2] + rest;
    assert |multiset(OtherRefunds(stream, k))| == |multiset(rest)|;
    forall e | e in OtherRefunds(stream, k) ensures e in stream[2..] {
      RestInStream(stream, k, e);
    }
  }

  /** Authorization and capture, the other refunds, and last the zero refund left over: everything but
      the last is in its place. */
  function LateOrder(stream: seq<Event>, k: nat): (order: seq<Event>)
    requires 2 <= k < |stream|
    ensures |order| == |stream|
  {
    StreamParts(stream, k);
    stream[..2] + OtherRefunds(stream, k) + [stream[k]]
  }

  lemma LateOrderArranges(stream: seq<Event>, k: nat)
    requires 2 <= k < |stream|
    ensures RefundOrder(stream, LateOrder(stream, k))
    ensures LateOrder(stream, k)[|stream| - 1] == stream[k]
    ensures forall i :: 2 <= i < |stream| - 1 ==> LateOrder(stream, k)[i] == OtherRefunds(stream, k)[i - 2]
  {
    StreamParts(stream, k);
    hide OtherRefunds;
  }

  lemma RestInStream(stream: seq<Event>, k: nat, e: Event)
    requires 2 <= k < |stream| && e in Without(stream, k)[2..]
    ensures e in stream[2..]
  {
    var rest := Without(stream, k)[2..];
    var i :| 0 <= i < |rest| && rest[i] == e;
    assert rest[i] == if i + 2 < k then stream[i + 2] else stream[i + 3];
    assert e == if i + 2 < k then stream[2..][i] else stream[2..][i + 1];
  }

  lemma {:induction false} SumOfNothing(events: seq<Event>)
    requires forall e <- events :: RefundMinor(e) == 0
    ensures Sum(events, RefundMinor) == 0
    decreases |events|
  {
    if events != [] {
      SumOfNothing(events[1..]);
    }
  }

  lemma {:induction false} ZerosFirst(stream: seq<Event>, k: nat, i: nat)
    requires 2 <= k < |stream| && 2 <= i < |stream| - 1 && |OtherRefunds(stream, k)| == |stream| - 3
    requires Minor(OtherRefunds(stream, k)[i - 2]) == 0
    ensures forall e <- OtherRefunds(stream, k)[..i - 2] :: Minor(e) == 0
  {
    var rest := Without(stream, k)[2..];
    KeptMembers(rest, true);
    KeptMembers(rest, false);
    hide Kept;
    var calm, moving := Kept(rest, true), Kept(rest, false);
    assert forall j :: 0 <= j < |moving| ==> moving[j] in moving;
    assert i - 2 < |calm|;
    forall e | e in OtherRefunds(stream, k)[..i - 2] ensures Minor(e) == 0 {
      var j :| 0 <= j < i - 2 && OtherRefunds(stream, k)[j] == e;
      assert calm[j] == e && calm[j] in calm;
    }
  }

  lemma LatePrefix(stream: seq<Event>, k: nat, i: nat)
    requires 2 <= k < |stream| && 2 <= i < |stream| - 1
    ensures |OtherRefunds(stream, k)| == |stream| - 3
    ensures LateOrder(stream, k)[..i] == stream[..2] + OtherRefunds(stream, k)[..i - 2]
    ensures LateOrder(stream, k)[i] == OtherRefunds(stream, k)[i - 2]
  {
    StreamParts(stream, k);
    hide OtherRefunds;
  }

  lemma {:induction false} NothingMoves(stream: seq<Event>, calm: seq<Event>, p: string, currency: string)
    requires PaymentStream(stream, p, currency) && forall e <- calm :: Minor(e) == 0
    ensures Sum(stream[..2] + calm, RefundMinor) == 0
  {
    assert stream[0].kind == Authorize && stream[1].kind == Capture && stream[..2] == [stream[0], stream[1]];
    hide PaymentStream;
    SumOfNothing(calm);
    SumOfNothing([stream[0], stream[1]]);
    SumConcat(stream[..2], calm, RefundMinor);
  }

  lemma NothingRefundedYet(stream: seq<Event>, k: nat, p: string, currency: string, i: nat)
    requires PaymentStream(stream, p, currency) && 2 <= k < |stream| && 2 <= i < |stream| - 1
    requires Minor(LateOrder(stream, k)[i]) == 0
    ensures Sum(LateOrder(stream, k)[..i], RefundMinor) == 0
  {
    hide PaymentStream, LateOrder, OtherRefunds, Sum;
    LatePrefix(stream, k, i);
    ZerosFirst(stream, k, i);
    NothingMoves(stream, OtherRefunds(stream, k)[..i - 2], p, currency);
  }

  /** In that order the last arrival is the one superfluous zero refund. */
  lemma OnlyLastSuperfluous(stream: seq<Event>, k: nat, p: string, currency: string, i: nat)
    requires PaymentStream(stream, p, currency) && LeftOver(stream, k) && i < |stream|
    ensures Superfluous(stream, LateOrder(stream, k)[..i], LateOrder(stream, k)[i]) <==> i == |stream| - 1
  {
    var order := LateOrder(stream, k);
    LateOrderArranges(stream, k);
    if i < 2 {
      assert order[i] == stream[i];
    } else if i < |stream| - 1 {
      if Minor(order[i]) == 0 {
        NothingRefundedYet(stream, k, p, currency, i);
      }
    } else {
      SumPermutation(order, stream, RefundMinor);
      assert order == order[..i] + [stream[k]];
      SumSnoc(order[..i], stream[k], RefundMinor);
    }
  }

  /** None of the first m arrivals is superfluous. */
  ghost predicate Clear(stream: seq<Event>, order: seq<Event>, m: nat)
    requires |stream| >= 2 && m <= |order|
  {
    forall i :: 0 <= i < m ==> !Superfluous(stream, order[..i], order[i])
  }

  /** The last arrival is superfluous, and no other is. */
  ghost predicate OnlyLast(stream: seq<Event>, order: seq<Event>)
    requires |stream| >= 2
  {
    order != [] && Clear(stream, order, |order| - 1) && Superfluous(stream, order[..|order| - 1], order[|order| - 1])
  }

  lemma LateOrderOnlyLast(stream: seq<Event>, k: nat, p: string, currency: string)
    requires PaymentStream(stream, p, currency) && LeftOver(stream, k)
    ensures OnlyLast(stream, LateOrder(stream, k))
  {
    assert |LateOrder(stream, k)| == |stream|;
    hide LateOrder, Superfluous, PaymentStream;
    forall i | 0 <= i < |stream|
      ensures Superfluous(stream, LateOrder(stream, k)[..i], LateOrder(stream, k)[i]) <==> i == |stream| - 1
    {
      OnlyLastSuperfluous(stream, k, p, currency, i);
    }
  }

  /** An order without a superfluous arrival is posted in turn. */
  lemma {:induction false} PostedInTurn(stream: seq<Event>, order: seq<Event>, p: string, currency: string, n: nat)
    requires PaymentStream(stream, p, currency) && RefundOrder(stream, order) && n <= |order|
    requires Clear(stream, order, n)
    ensures PostAll(order[..n]).Some?
    decreases n
  {
    if n > 0 {
      assert !Superfluous(stream, order[..n - 1], order[n - 1]) && Clear(stream, order, n - 1);
      PostedInTurn(stream, order, p, currency, n - 1);
      PrefixPosted(stream, order, n - 1, p, currency);
      hide Post, Superfluous, RefundOrder, PaymentStream;
      PostNext(stream, order, n - 1, PostAll(order[..n - 1]).value, p, currency);
      PostAllSnoc(order, n - 1);
    }
  }

  /** An order whose last arrival alone is superfluous is refused there. */
  lemma {:induction false} RefusedLast(stream: seq<Event>, order: seq<Event>, p: string, currency: string)
    requires PaymentStream(stream, p, currency) && RefundOrder(stream, order) && OnlyLast(stream, order)
    ensures
      var n := |order| - 1;
      && PostAll(order[..n]).Some? && PostAll(order).None?
      && Post(PostAll(order[..n]).value, true, "", order[n]) == Raised(IllegalTransition)
  {
    hide Superfluous, RefundOrder, PaymentStream, Post, PostAll;
    RefusedAfter(stream, order, p, currency, |order| - 1);
    assert order[..|order| - 1 + 1] == order;
  }

  lemma RefusedAfter(stream: seq<Event>, order: seq<Event>, p: string, currency: string, n: nat)
    requires PaymentStream(stream, p, currency) && RefundOrder(stream, order) && n < |order|
    requires Clear(stream, order, n) && Superfluous(stream, order[..n], order[n])
    ensures PostAll(order[..n]).Some? && PostAll(order[..n + 1]).None?
    ensures Post(PostAll(order[..n]).value, true, "", order[n]) == Raised(IllegalTransition)
  {
    assert |stream| >= 2;
    hide Clear, Superfluous, RefundOrder, PaymentStream, Post, PostAll;
    PostedInTurn(stream, order, p, currency, n);
    PrefixPosted(stream, order, n, p, currency);
    PostNext(stream, order, n, PostAll(order[..n]).value, p, currency);
    PostAllSnoc(order, n);
  }

  /** For every stream with a zero refund left over: the ledger takes all but the last of the late order
      and turns that one away. */
  lemma LateRefused(stream: seq<Event>, k: nat, p: string, currency: string)
    requires PaymentStream(stream, p, currency) && LeftOver(stream, k)
    ensures
      var order := LateOrder(stream, k);
      && RefundOrder(stream, order) && PostAll(order[..|order| - 1]).Some?
      && Post(PostAll(order[..|order| - 1]).value, true, "", order[|order| - 1]) == Raised(IllegalTransition)
      && PostAll(order).None?
  {
    LateOrderArranges(stream, k);
    hide LateOrder, OnlyLast, RefundOrder, PaymentStream, Post, PostAll;
    LateOrderOnlyLast(stream, k, p, currency);
    RefusedLast(stream, LateOrder(stream, k), p, currency);
  }

  // The smallest such stream: everything captured and refunded, and a refund of nothing besides.

  function Example(kind: Kind, ref: string, minor: int): Event {
    Event("p", kind, ref, Some(Money(minor, "EUR")), 0.0, 0)
  }

  const SMALLEST: seq<Event> :=
    [Example(Authorize, "a", 1), Example(Capture, "c", 1), Example(Refund, "f", 1), Example(Refund, "z", 0)]

  lemma SmallestSums()
    ensures Sum(SMALLEST, RefundMinor) == 1
  {
    assert Sum(SMALLEST[3..], RefundMinor) == 0 + Sum([], RefundMinor);
    assert SMALLEST[2..][1..] == SMALLEST[3..] && SMALLEST[1..][1..] == SMALLEST[2..];
    assert Sum(SMALLEST[2..], RefundMinor) == 1 && Sum(SMALLEST[1..], RefundMinor) == 1;
  }

  lemma SmallestIsStream()
    ensures PaymentStream(SMALLEST, "p", "EUR") && !Admissible(SMALLEST) && LeftOver(SMALLEST, 3)
  {
    SmallestSums();
    assert "f"[0] != "z"[0];
    assert forall e <- SMALLEST :: e == SMALLEST[0] || e == SMALLEST[1] || e == SMALLEST[2] || e == SMALLEST[3];
    hide Sum;
    assert KeyOf(SMALLEST[2]) != KeyOf(SMALLEST[3]);
    assert Minor(SMALLEST[3]) == 0;
  }

  lemma SmallestIsLate()
    ensures LateOrder(SMALLEST, 3) == SMALLEST
  {
    assert Without(SMALLEST, 3)[2..] == [SMALLEST[2]];
    assert [SMALLEST[2]][..0] == [];
    assert Kept([SMALLEST[2]], true) == [] && Kept([SMALLEST[2]], false) == [SMALLEST[2]];
  }

  /** It is a payment stream, and the order it is written in is refused at its last event. */
  lemma SmallestRefused()
    ensures PaymentStream(SMALLEST, "p", "EUR") && RefundOrder(SMALLEST, SMALLEST)
    ensures PostAll(SMALLEST[..3]).Some? && PostAll(SMALLEST).None?
    ensures Post(PostAll(SMALLEST[..3]).value, true, "", SMALLEST[3]) == Raised(IllegalTransition)
  {
    SmallestIsStream();
    SmallestIsLate();
    hide LateOrder, PaymentStream, Post, PostAll, LeftOver;
    LateRefused(SMALLEST, 3, "p", "EUR");
  }

  // ----------------------------------------------------------------- one refused row

  /** A readable row the ledger turns away as an illegal transition dead letters at once. */
  lemma RaisedRow(cfg: Config, t: Tables, now: Time, budgetUsed: int, row: Snapshot, delay: Time, e: Event)
    requires row.id in t.deliveries && cfg.decode(row.provider, row.raw) == Readable(e)
    requires Post(t.books, true, row.id, e) == Raised(IllegalTransition)
    ensures
      var r := DrainRow(cfg, t, now, budgetUsed, row, None, delay);
      && r.report == NOTHING.(deadLettered := 1) && r.tables.books == t.books
      && r.tables.deliveries == t.deliveries[row.id := r.tables.deliveries[row.id]]
      && r.tables.deliveries[row.id].provider == t.deliveries[row.id].provider
      && r.tables.deliveries[row.id].raw == t.deliveries[row.id].raw
      && r.tables.deliveries[row.id].state == DeadLettered
  {
    hide Post;
  }

  /** So does the left over zero refund of a stream, from any books in which the rest has been refunded in
      full. */
  lemma SuperfluousDeadLetters(
    cfg: Config, c: Subject, t: Tables, now: Time, budgetUsed: int, row: Snapshot, delay: Time, e: Event)
    requires c.Streamed() && BooksPartway(c.stream, t.books, c.p) && row.id in t.deliveries
    requires cfg.decode(row.provider, row.raw) == Readable(e) && e in c.stream && e !in OwnOf(t, c.p)
    requires Ready(c.stream, OwnOf(t, c.p), e) && Superfluous(c.stream, OwnOf(t, c.p), e)
    ensures
      var u := DrainRow(cfg, t, now, budgetUsed, row, None, delay).tables;
      && u.books == t.books && u.deliveries == t.deliveries[row.id := u.deliveries[row.id]]
      && u.deliveries[row.id].provider == t.deliveries[row.id].provider
      && u.deliveries[row.id].raw == t.deliveries[row.id].raw
      && u.deliveries[row.id].state == DeadLettered
  {
    assert |c.stream| >= 2;
    hide Post, DrainRow, BooksPartway, PaymentStream, Ready, Superfluous;
    PostArrival(c.stream, t.books, row.id, e, c.p, c.currency);
    RaisedRow(cfg, t, now, budgetUsed, row, delay, e);
  }

  // ------------------------------------------------------- a queue in the late order

  /** The stored bytes of some provider read as this event. */
  ghost predicate Readings(cfg: Config, e: Event) {
    exists provider: Provider, raw: Bytes :: cfg.decode(provider, raw) == Readable(e)
  }

  /** The i-th arrival, claimed at second i. */
  ghost function Arrived(cfg: Config, e: Event, i: nat): (d: Delivery)
    requires Readings(cfg, e)
    ensures cfg.decode(d.provider, d.raw) == Readable(e)
  {
    var provider: Provider, raw: Bytes :| cfg.decode(provider, raw) == Readable(e);
    Received(provider, raw, i as real, 30.0)
  }

  ghost function Arrivals(cfg: Config, order: seq<Event>): map<string, Delivery>
    requires forall e <- order :: Readings(cfg, e)
    decreases |order|
  {
    if order == [] then map[]
    else
      var n := |order| - 1;
      assert order[n] in order;
      Arrivals(cfg, order[..n])[Ident(n) := Arrived(cfg, order[n], n)]
  }

  lemma {:induction false} ArrivalsAt(cfg: Config, order: seq<Event>)
    requires forall e <- order :: Readings(cfg, e)
    ensures forall i :: 0 <= i < |order| ==>
              Ident(i) in Arrivals(cfg, order) && Arrivals(cfg, order)[Ident(i)] == Arrived(cfg, order[i], i)
    ensures forall id <- Arrivals(cfg, order) :: exists i :: 0 <= i < |order| && Ident(i) == id
    decreases |order|
  {
    hide Arrived, Ident;
    if order != [] {
      var n := |order| - 1;
      ArrivalsAt(cfg, order[..n]);
      assert order[n] in order;
      forall i | 0 <= i < n ensures Ident(i) != Ident(n) {
        IdentsDiffer(i, n);
      }
    }
  }

  ghost function Queue(cfg: Config, order: seq<Event>): Tables
    requires forall e <- order :: Readings(cfg, e)
  {
    Tables(Arrivals(cfg, order), NO_BOOKS, map[])
  }

  /** The rows of that queue, first come first. */
  ghost predicate InTurn(cfg: Config, order: seq<Event>, t: Tables, rows: seq<Snapshot>) {
    && |rows| == |order|
    && (forall i :: 0 <= i < |order| ==> Ident(i) in t.deliveries)
    && (forall i :: 0 <= i < |order| ==> Readings(cfg, order[i]) && t.deliveries[Ident(i)] == Arrived(cfg, order[i], i))
    && (forall i :: 0 <= i < |order| ==> rows[i] == SnapshotOf(Ident(i), t.deliveries[Ident(i)]))
    && (forall id <- t.deliveries :: exists i :: 0 <= i < |order| && Ident(i) == id)
  }

  lemma QueueInTurn(cfg: Config, order: seq<Event>) returns (rows: seq<Snapshot>)
    requires forall e <- order :: Readings(cfg, e)
    ensures InTurn(cfg, order, Queue(cfg, order), rows)
  {
    ArrivalsAt(cfg, order);
    var arrivals := Arrivals(cfg, order);
    assert forall i :: 0 <= i < |order| ==> order[i] in order;
    hide Ident, Arrived, Arrivals;
    rows := seq(|order|, i requires 0 <= i < |order| && Ident(i) in arrivals =>
                           SnapshotOf(Ident(i), arrivals[Ident(i)]));
  }

  lemma RowPerArrival(cfg: Config, order: seq<Event>, t: Tables, rows: seq<Snapshot>)
    requires InTurn(cfg, order, t, rows)
    ensures |rows| == |order|
  {
    hide Ident, Arrived;
  }

  lemma InTurnSelected(cfg: Config, order: seq<Event>, t: Tables, rows: seq<Snapshot>)
    requires InTurn(cfg, order, t, rows)
    ensures Selection(t, |order| as real, -1, rows) && AllKnown(t, rows)
  {
    hide Ident;
    forall r | r in rows
      ensures r.id in t.deliveries && Due(t.deliveries[r.id], |order| as real)
            && r == SnapshotOf(r.id, t.deliveries[r.id])
    {
      var i :| 0 <= i < |rows| && rows[i] == r;
    }
    forall i, j | 0 <= i < j < |rows| ensures Earlier(QueueKey(t, rows[i].id), QueueKey(t, rows[j].id)) {
    }
    forall id | id in t.deliveries ensures SnapshotOf(id, t.deliveries[id]) in rows {
      var i :| 0 <= i < |order| && Ident(i) == id;
      assert rows[i] in rows;
    }
  }

  // ------------------------------------------------------------------- the first pass

  /** m rows of the queue taken, all of them applied, the rest as they were. */
  ghost predicate Halfway(c: Subject, order: seq<Event>, t: Tables, u: Tables, m: nat)
    requires c.Streamed() && m <= |order|
  {
    && t.deliveries.Keys == u.deliveries.Keys
    && BooksPartway(c.stream, u.books, c.p) && OwnOf(u, c.p) == order[..m]
    && (forall i :: 0 <= i < |order| ==> Ident(i) in t.deliveries && Ident(i) in u.deliveries)
    && (forall i :: m <= i < |order| ==> u.deliveries[Ident(i)] == t.deliveries[Ident(i)])
    && (forall i :: 0 <= i < m ==>
          u.deliveries[Ident(i)].state == Applied && SameBytes(t.deliveries[Ident(i)], u.deliveries[Ident(i)]))
  }

  predicate SameBytes(d: Delivery, after: Delivery) {
    after.provider == d.provider && after.raw == d.raw
  }

  lemma ArrivesReady(c: Subject, order: seq<Event>, m: nat)
    requires c.Streamed() && RefundOrder(c.stream, order) && m < |order|
    ensures order[m] in c.stream && order[m] !in order[..m] && Ready(c.stream, order[..m], order[m])
    ensures order[..m + 1] == order[..m] + [order[m]]
  {
    OrderFacts(c.stream, order, c.p, c.currency);
    assert order[m] in order;
    KindPlaces(c.stream, order[m], c.p, c.currency);
    assert c.stream[0] != c.stream[1];
  }

  lemma PostsInTurn(c: Subject, u: Tables, id: string, e: Event)
    requires c.Streamed() && BooksPartway(c.stream, u.books, c.p) && e in c.stream && e !in OwnOf(u, c.p)
    requires Ready(c.stream, OwnOf(u, c.p), e) && !Superfluous(c.stream, OwnOf(u, c.p), e)
    ensures
      var posting := Post(u.books, true, id, e);
      && posting.Posted? && BooksPartway(c.stream, posting.books, c.p)
      && Own(posting.books.effects, c.p) == OwnOf(u, c.p) + [e]
  {
    hide Post, BooksPartway, Ready, Superfluous;
    PostArrival(c.stream, u.books, id, e, c.p, c.currency);
  }

  lemma StreamLength(c: Subject)
    requires c.Streamed()
    ensures |c.stream| >= 2
  {
  }

  lemma TurnPosts(
    cfg: Config, c: Subject, order: seq<Event>, u: Tables, row: Snapshot, m: nat, now: Time, budgetUsed: int,
        delay: Time)
    requires c.Streamed() && RefundOrder(c.stream, order) && m < |order|
    requires row.id in u.deliveries && cfg.decode(row.provider, row.raw) == Readable(order[m])
    requires BooksPartway(c.stream, u.books, c.p) && OwnOf(u, c.p) == order[..m]
    requires !Superfluous(c.stream, order[..m], order[m])
    ensures
      var v := DrainRow(cfg, u, now, budgetUsed, row, None, delay).tables;
      && BooksPartway(c.stream, v.books, c.p) && OwnOf(v, c.p) == order[..m + 1]
      && row.id in v.deliveries && v.deliveries == u.deliveries[row.id := v.deliveries[row.id]]
      && v.deliveries[row.id].state == Applied && SameBytes(u.deliveries[row.id], v.deliveries[row.id])
  {
    hide *;
    ArrivesReady(c, order, m);
    EventPosts(cfg, c, u, row, order[m], now, budgetUsed, delay);
  }

  lemma EventPosts(
    cfg: Config, c: Subject, u: Tables, row: Snapshot, e: Event, now: Time, budgetUsed: int, delay: Time)
    requires c.Streamed() && row.id in u.deliveries && cfg.decode(row.provider, row.raw) == Readable(e)
    requires BooksPartway(c.stream, u.books, c.p) && e in c.stream && e !in OwnOf(u, c.p)
    requires Ready(c.stream, OwnOf(u, c.p), e) && !Superfluous(c.stream, OwnOf(u, c.p), e)
    ensures
      var v := DrainRow(cfg, u, now, budgetUsed, row, None, delay).tables;
      && BooksPartway(c.stream, v.books, c.p) && OwnOf(v, c.p) == OwnOf(u, c.p) + [e]
      && row.id in v.deliveries && v.deliveries == u.deliveries[row.id := v.deliveries[row.id]]
      && v.deliveries[row.id].state == Applied && SameBytes(u.deliveries[row.id], v.deliveries[row.id])
  {
    StreamLength(c);
    hide DrainRow, Post, BooksPartway, PaymentStream, Ready, Superfluous, Own;
    PostsInTurn(c, u, row.id, e);
    CleanRow(cfg, u, now, budgetUsed, row, delay, e);
  }

  lemma HalfwayGrows(c: Subject, order: seq<Event>, t: Tables, u: Tables, v: Tables, m: nat)
    requires c.Streamed() && m < |order| && Halfway(c, order, t, u, m)
    requires BooksPartway(c.stream, v.books, c.p) && OwnOf(v, c.p) == order[..m + 1]
    requires Ident(m) in v.deliveries && v.deliveries == u.deliveries[Ident(m) := v.deliveries[Ident(m)]]
    requires v.deliveries[Ident(m)].state == Applied && SameBytes(u.deliveries[Ident(m)], v.deliveries[Ident(m)])
    ensures Halfway(c, order, t, v, m + 1)
  {
    hide Ident, BooksPartway, PaymentStream, OwnOf;
    forall i | 0 <= i < |order| && i != m ensures Ident(i) != Ident(m) {
      IdentsDiffer(i, m);
    }
  }

  lemma RowInTurn(cfg: Config, order: seq<Event>, t: Tables, rows: seq<Snapshot>, m: nat)
    requires InTurn(cfg, order, t, rows) && m < |order|
    ensures rows[m].id == Ident(m) && Ident(m) in t.deliveries
          && cfg.decode(rows[m].provider, rows[m].raw) == Readable(order[m])
  {
    hide Ident;
  }

  lemma TurnTaken(
    cfg: Config, c: Subject, order: seq<Event>, t: Tables, u: Tables, rows: seq<Snapshot>, m: nat, now: Time,
    budgetUsed: int, delay: Time)
    requires c.Streamed() && RefundOrder(c.stream, order) && InTurn(cfg, order, t, rows) && m < |order|
    requires Halfway(c, order, t, u, m) && !Superfluous(c.stream, order[..m], order[m])
    ensures rows[m].id in u.deliveries
    ensures Halfway(c, order, t, DrainRow(cfg, u, now, budgetUsed, rows[m], None, delay).tables, m + 1)
  {
    RowInTurn(cfg, order, t, rows, m);
    assert BooksPartway(c.stream, u.books, c.p) && OwnOf(u, c.p) == order[..m] && Ident(m) in u.deliveries;
    hide Halfway, InTurn, DrainRow, BooksPartway, PaymentStream, Superfluous, RefundOrder, Ident;
    TurnPosts(cfg, c, order, u, rows[m], m, now, budgetUsed, delay);
    HalfwayGrows(c, order, t, u, DrainRow(cfg, u, now, budgetUsed, rows[m], None, delay).tables, m);
  }

  ghost predicate Faultless(faults: Faults) {
    forall id :: faults(id) == None
  }

  lemma ClearPrefix(stream: seq<Event>, order: seq<Event>, m: nat)
    requires |stream| >= 2 && 0 < m <= |order| && Clear(stream, order, m)
    ensures Clear(stream, order, m - 1) && !Superfluous(stream, order[..m - 1], order[m - 1])
  {
  }

  lemma NoneTurned(cfg: Config, c: Subject, order: seq<Event>, t: Tables, rows: seq<Snapshot>)
    requires c.Streamed() && InTurn(cfg, order, t, rows) && t.books == NO_BOOKS
    ensures Halfway(c, order, t, t, 0)
  {
    hide Ident, Arrived;
    NoBooksPartway(c.stream, c.p);
  }

  lemma {:induction false} PassTaken(
    cfg: Config, c: Subject, order: seq<Event>, t: Tables, rows: seq<Snapshot>, now: Time, faults: Faults, draws: Draws,
    m: nat)
    requires c.Streamed() && RefundOrder(c.stream, order) && InTurn(cfg, order, t, rows) && m <= |order|
    requires AllKnown(t, rows[..m]) && t.books == NO_BOOKS && Faultless(faults) && Clear(c.stream, order, m)
    ensures Halfway(c, order, t, DrainRows(cfg, t, now, rows[..m], faults, draws).tables, m)
    decreases m
  {
    hide *;
    StreamLength(c);
    RowPerArrival(cfg, order, t, rows);
    if m == 0 {
      NoneTurned(cfg, c, order, t, rows);
      DrainRowsEmpty(cfg, t, now, faults, draws);
      assert rows[..0] == [];
    } else {
      KnownPrefix(t, rows, m);
      ClearPrefix(c.stream, order, m);
      PassTaken(cfg, c, order, t, rows, now, faults, draws, m - 1);
      PassTurn(cfg, c, order, t, rows, now, faults, draws, m - 1);
    }
  }

  /** The tables after one more row of a pass, as the row left them. */
  lemma NextOfPass(
    cfg: Config, t: Tables, now: Time, front: seq<Snapshot>, row: Snapshot, faults: Faults, draws: Draws)
    returns (used: int, delay: Time)
    requires AllKnown(t, front) && row.id in t.deliveries
    ensures AllKnown(t, front + [row])
    ensures
      var u := DrainRows(cfg, t, now, front, faults, draws).tables;
      DrainRows(cfg, t, now, front + [row], faults, draws).tables ==
      DrainRow(cfg, u, now, used, row, faults(row.id), delay).tables
  {
    hide DrainRow, DrainRows, AllKnown;
    used := DrainRows(cfg, t, now, front, faults, draws).budgetUsed;
    delay := draws(row.id, row.attempts + 1);
    DrainRowsSnoc(cfg, t, now, front, row, faults, draws);
  }

  lemma {:induction false} PassTurn(
    cfg: Config, c: Subject, order: seq<Event>, t: Tables, rows: seq<Snapshot>, now: Time, faults: Faults, draws: Draws,
    m: nat)
    requires c.Streamed() && RefundOrder(c.stream, order) && InTurn(cfg, order, t, rows) && m < |order| == |rows|
    requires AllKnown(t, rows[..m]) && AllKnown(t, rows[..m + 1]) && Faultless(faults)
    requires Halfway(c, order, t, DrainRows(cfg, t, now, rows[..m], faults, draws).tables, m)
    requires !Superfluous(c.stream, order[..m], order[m])
    ensures Halfway(c, order, t, DrainRows(cfg, t, now, rows[..m + 1], faults, draws).tables, m + 1)
  {
    KnownPrefix(t, rows, m + 1);
    hide DrainRow, DrainRows, Superfluous, RefundOrder, PaymentStream, Halfway, InTurn, AllKnown;
    var used, delay := NextOfPass(cfg, t, now, rows[..m], rows[m], faults, draws);
    TurnTaken(cfg, c, order, t, DrainRows(cfg, t, now, rows[..m], faults, draws).tables, rows, m, now, used, delay);
  }

  lemma KnownPrefix(t: Tables, rows: seq<Snapshot>, m: nat)
    requires 0 < m <= |rows| && AllKnown(t, rows[..m])
    ensures rows[..m] == rows[..m - 1] + [rows[m - 1]] && AllKnown(t, rows[..m - 1]) && rows[m - 1].id in t.deliveries
  {
    assert rows[m - 1] in rows[..m];
    assert forall r <- rows[..m - 1] :: r in rows[..m];
  }

  // ----------------------------------------------------------------- three full passes

  ghost predicate ThreeFullPasses(
    cfg: Config, c: Subject, t: Tables, first: PassInput, second: PassInput, third: PassInput)
    requires c.Streamed()
  {
    && Holding(cfg, c, t)
    && FullPass(cfg, c, t, first) && AllKnown(t, first.rows)
    && var one := After(cfg, t, first);
       && FullPass(cfg, c, one, second) && AllKnown(one, second.rows)
       && var two := After(cfg, one, second);
          FullPass(cfg, c, two, third) && AllKnown(two, third.rows)
  }

  function AfterThree(cfg: Config, t: Tables, first: PassInput, second: PassInput, third: PassInput): Tables
    requires AllKnown(t, first.rows) && AllKnown(After(cfg, t, first), second.rows)
    requires AllKnown(After(cfg, After(cfg, t, first), second), third.rows)
  {
    After(cfg, After(cfg, After(cfg, t, first), second), third)
  }

  /** The last row of the queue meets books in which its zero refund is superfluous. */
  lemma LastDeadLetters(
    cfg: Config, c: Subject, order: seq<Event>, t: Tables, u: Tables, rows: seq<Snapshot>, n: nat, now: Time, used: int,
    delay: Time)
    requires c.Streamed() && RefundOrder(c.stream, order) && InTurn(cfg, order, t, rows) && n + 1 == |order|
    requires Halfway(c, order, t, u, n) && Superfluous(c.stream, order[..n], order[n])
    ensures rows[n].id in u.deliveries
    ensures
      var v := DrainRow(cfg, u, now, used, rows[n], None, delay).tables;
      && v.deliveries == u.deliveries[Ident(n) := v.deliveries[Ident(n)]]
      && v.deliveries[Ident(n)].state == DeadLettered && SameBytes(t.deliveries[Ident(n)], v.deliveries[Ident(n)])
  {
    RowInTurn(cfg, order, t, rows, n);
    ArrivesReady(c, order, n);
    assert BooksPartway(c.stream, u.books, c.p) && OwnOf(u, c.p) == order[..n];
    assert Ident(n) in u.deliveries && u.deliveries[Ident(n)] == t.deliveries[Ident(n)];
    hide Halfway, InTurn, DrainRow, BooksPartway, PaymentStream, Superfluous, RefundOrder, Ident, Ready;
    SuperfluousDeadLetters(cfg, c, u, now, used, rows[n], delay, order[n]);
  }

  /** No row is queued any more, and the last arrival is a dead letter. */
  ghost predicate Refused(order: seq<Event>, t: Tables, u: Tables) {
    && order != [] && Ident(|order| - 1) in t.deliveries && Ident(|order| - 1) in u.deliveries
    && (forall id <- u.deliveries :: !Queued(u.deliveries[id].state))
    && u.deliveries[Ident(|order| - 1)].state == DeadLettered
    && SameBytes(t.deliveries[Ident(|order| - 1)], u.deliveries[Ident(|order| - 1)])
  }

  lemma RefusedByLast(cfg: Config, c: Subject, order: seq<Event>, t: Tables, u: Tables, v: Tables, rows: seq<Snapshot>,
      n: nat)
    requires c.Streamed() && InTurn(cfg, order, t, rows) && n + 1 == |order| && Halfway(c, order, t, u, n)
    requires Ident(n) in u.deliveries && Ident(n) in v.deliveries
    requires v.deliveries == u.deliveries[Ident(n) := v.deliveries[Ident(n)]]
    requires v.deliveries[Ident(n)].state == DeadLettered && SameBytes(t.deliveries[Ident(n)], v.deliveries[Ident(n)])
    ensures Refused(order, t, v)
  {
    RowInTurn(cfg, order, t, rows, n);
    hide *;
    forall id | id in u.deliveries && id != Ident(n) ensures u.deliveries[id].state == Applied {
      TakenBefore(cfg, c, order, t, u, rows, n, id);
    }
    NoneQueued(order, t, u, v, n);
  }

  lemma NoneQueued(order: seq<Event>, t: Tables, u: Tables, v: Tables, n: nat)
    requires n + 1 == |order| && Ident(n) in t.deliveries && Ident(n) in u.deliveries && Ident(n) in v.deliveries
    requires v.deliveries == u.deliveries[Ident(n) := v.deliveries[Ident(n)]]
    requires v.deliveries[Ident(n)].state == DeadLettered && SameBytes(t.deliveries[Ident(n)], v.deliveries[Ident(n)])
    requires forall id <- u.deliveries :: id != Ident(n) ==> u.deliveries[id].state == Applied
    ensures Refused(order, t, v)
  {
    hide Ident, SameBytes;
  }

  lemma TakenBefore(cfg: Config, c: Subject, order: seq<Event>, t: Tables, u: Tables, rows: seq<Snapshot>, n: nat,
      id: string)
    requires c.Streamed() && InTurn(cfg, order, t, rows) && n + 1 == |order| && Halfway(c, order, t, u, n)
    requires id in u.deliveries && id != Ident(n)
    ensures u.deliveries[id].state == Applied
  {
    hide Ident, BooksPartway, PaymentStream, OwnOf;
    assert id in t.deliveries.Keys;
    var i :| 0 <= i < |order| && Ident(i) == id;
  }

  lemma LastTurnRefuses(
    cfg: Config, c: Subject, order: seq<Event>, t: Tables, u: Tables, rows: seq<Snapshot>, n: nat, now: Time, used: int,
    delay: Time)
    requires c.Streamed() && RefundOrder(c.stream, order) && InTurn(cfg, order, t, rows) && n + 1 == |order| == |rows|
    requires Halfway(c, order, t, u, n) && Superfluous(c.stream, order[..n], order[n]) && rows[n].id in u.deliveries
    ensures Refused(order, t, DrainRow(cfg, u, now, used, rows[n], None, delay).tables)
  {
    RowInTurn(cfg, order, t, rows, n);
    hide DrainRow, Superfluous, RefundOrder, PaymentStream, Halfway, InTurn, Refused, Ident;
    LastDeadLetters(cfg, c, order, t, u, rows, n, now, used, delay);
    RefusedByLast(cfg, c, order, t, u, DrainRow(cfg, u, now, used, rows[n], None, delay).tables, rows, n);
  }

  /** One pass over that queue applies all but the last row and dead letters that one. */
  lemma {:induction false} FirstPassRefuses(
    cfg: Config, c: Subject, order: seq<Event>, t: Tables, rows: seq<Snapshot>, now: Time, faults: Faults, draws: Draws)
    requires c.Streamed() && RefundOrder(c.stream, order) && InTurn(cfg, order, t, rows) && |order| == |rows|
    requires AllKnown(t, rows) && t.books == NO_BOOKS && Faultless(faults) && OnlyLast(c.stream, order)
    ensures Refused(order, t, DrainRows(cfg, t, now, rows, faults, draws).tables)
  {
    var n := |rows| - 1;
    RowsSplit(t, rows, n);
    assert rows[..n + 1] == rows;
    assert Clear(c.stream, order, n) && Superfluous(c.stream, order[..n], order[n]);
    hide DrainRow, DrainRows, Superfluous, RefundOrder, PaymentStream, Halfway, InTurn, Refused, AllKnown, OnlyLast, Clear,
      Faultless;
    PassTaken(cfg, c, order, t, rows, now, faults, draws, n);
    LastOfPass(cfg, c, order, t, rows, n, now, faults, draws);
  }

  lemma {:induction false} LastOfPass(
    cfg: Config, c: Subject, order: seq<Event>, t: Tables, rows: seq<Snapshot>, n: nat, now: Time, faults: Faults,
    draws: Draws)
    requires c.Streamed() && RefundOrder(c.stream, order) && InTurn(cfg, order, t, rows) && n + 1 == |order| == |rows|
    requires AllKnown(t, rows[..n]) && rows[n].id in t.deliveries && rows == rows[..n] + [rows[n]] && Faultless(faults)
    requires Halfway(c, order, t, DrainRows(cfg, t, now, rows[..n], faults, draws).tables, n)
    requires Superfluous(c.stream, order[..n], order[n])
    ensures AllKnown(t, rows) && Refused(order, t, DrainRows(cfg, t, now, rows, faults, draws).tables)
  {
    assert faults(rows[n].id) == None;
    hide DrainRow, DrainRows, Superfluous, RefundOrder, PaymentStream, Halfway, InTurn, Refused, AllKnown, Faultless;
    var used, delay := NextOfPass(cfg, t, now, rows[..n], rows[n], faults, draws);
    LastTurnRefuses(cfg, c, order, t, DrainRows(cfg, t, now, rows[..n], faults, draws).tables, rows, n, now, used,
        delay);
  }

  // ----------------------------------------------------- and no later pass mends it

  /** A pass that finds nothing queued changes nothing. */
  lemma IdlePass(cfg: Config, c: Subject, t: Tables, pass: PassInput)
    requires forall id <- t.deliveries :: !Queued(t.deliveries[id].state)
    requires pass.rows == [] && pass.limit == -1 && Faultless(pass.faults)
    ensures FullPass(cfg, c, t, pass) && AllKnown(t, pass.rows) && After(cfg, t, pass) == t
  {
    DrainRowsEmpty(cfg, t, pass.now, pass.faults, pass.draws);
  }

  lemma QueuedRow(cfg: Config, c: Subject, order: seq<Event>, t: Tables, rows: seq<Snapshot>, id: string)
    requires InTurn(cfg, order, t, rows) && id in t.deliveries && forall e <- order :: e in c.stream
    ensures EventOf(cfg, t.deliveries[id]).Some? && EventOf(cfg, t.deliveries[id]).value in c.stream
    ensures t.deliveries[id].state == Claimed && SnapshotOf(id, t.deliveries[id]) in rows
  {
    hide Ident;
    var i :| 0 <= i < |order| && Ident(i) == id;
    assert order[i] in order && rows[i] in rows;
  }

  lemma QueuedEvent(cfg: Config, c: Subject, order: seq<Event>, t: Tables, rows: seq<Snapshot>, e: Event)
    requires InTurn(cfg, order, t, rows) && multiset(order) == multiset(c.stream) && e in c.stream
    ensures exists id <- t.deliveries :: EventOf(cfg, t.deliveries[id]) == Some(e)
  {
    hide Ident;
    assert e in multiset(c.stream) && e in multiset(order);
    var i :| 0 <= i < |order| && order[i] == e;
    assert EventOf(cfg, t.deliveries[Ident(i)]) == Some(e);
  }

  /** The queue in the late order is one ThreePasses could start from, and the first pass is full. */
  lemma QueueHolds(cfg: Config, c: Subject, order: seq<Event>, t: Tables, rows: seq<Snapshot>, pass: PassInput)
    requires c.Streamed() && RefundOrder(c.stream, order)
    requires InTurn(cfg, order, t, rows) && t.books == NO_BOOKS
    requires pass.rows == rows && pass.limit == -1 && pass.now == |order| as real && Faultless(pass.faults)
    ensures Holding(cfg, c, t) && FullPass(cfg, c, t, pass) && AllKnown(t, rows)
  {
    StreamLength(c);
    assert multiset(order) == multiset(c.stream);
    hide InTurn, BooksPartway, PaymentStream, Selection, RefundOrder, EventOf;
    InTurnSelected(cfg, order, t, rows);
    OrderFacts(c.stream, order, c.p, c.currency);
    NoBooksPartway(c.stream, c.p);
    forall id | id in t.deliveries
      ensures EventOf(cfg, t.deliveries[id]).Some? && EventOf(cfg, t.deliveries[id]).value in c.stream
              && t.deliveries[id].state == Claimed && SnapshotOf(id, t.deliveries[id]) in rows
    {
      QueuedRow(cfg, c, order, t, rows, id);
    }
    forall e | e in c.stream ensures exists id <- t.deliveries :: EventOf(cfg, t.deliveries[id]) == Some(e) {
      QueuedEvent(cfg, c, order, t, rows, e);
    }
  }

  /** The pass that takes these rows, fails none of them, and draws no delay. */
  function CalmPass(now: Time, rows: seq<Snapshot>): PassInput {
    PassInput(now, -1, rows, (id: string) => None, (id: string, attempt: int) => 0.0, 0.0)
  }

  lemma RefusedUnsettled(cfg: Config, c: Subject, order: seq<Event>, t: Tables, rows: seq<Snapshot>, u: Tables)
    requires c.Streamed() && RefundOrder(c.stream, order) && InTurn(cfg, order, t, rows) && Refused(order, t, u)
    ensures !Settled(cfg, c, u)
  {
    var n := |order| - 1;
    RowInTurn(cfg, order, t, rows, n);
    ArrivesReady(c, order, n);
    hide Ident;
    assert EventOf(cfg, u.deliveries[Ident(n)]) == Some(order[n]) && order[n].paymentId == c.p;
  }

  /** For every stream with a zero refund left over there is a queue that three full passes do not
      settle: the first leaves nothing queued and a dead letter behind, and a dead letter stays one. */
  lemma QueueNeverSettles(cfg: Config, c: Subject, k: nat)
    returns (t: Tables, first: PassInput, second: PassInput, third: PassInput)
    requires c.Streamed() && LeftOver(c.stream, k) && forall e <- c.stream :: Readings(cfg, e)
    ensures ThreeFullPasses(cfg, c, t, first, second, third)
    ensures !Settled(cfg, c, AfterThree(cfg, t, first, second, third))
  {
    var order := LateOrder(c.stream, k);
    LateOrderArranges(c.stream, k);
    OrderFacts(c.stream, order, c.p, c.currency);
    var rows := QueueInTurn(cfg, order);
    t := Queue(cfg, order);
    LateOrderOnlyLast(c.stream, k, c.p, c.currency);
    first := CalmPass(|order| as real, rows);
    second := CalmPass(|order| as real, []);
    third := second;
    assert |rows| == |order|;
    hide LateOrder, OnlyLast, RefundOrder, PaymentStream, InTurn, DrainRows, FullPass, AllKnown, Holding, Settled;
    QueueHolds(cfg, c, order, t, rows, first);
    FirstPassRefuses(cfg, c, order, t, rows, first.now, first.faults, first.draws);
    var one := After(cfg, t, first);
    RefusedUnsettled(cfg, c, order, t, rows, one);
    IdlePass(cfg, c, one, second);
  }

  /** Confluence, exactly. For a decoder that some stored bytes make read every event of the stream:
      three full passes settle the payment, from every queue part way through it, if and only if the
      stream is admissible. */
  lemma ThreePassesExactly(cfg: Config, c: Subject)
    requires c.Streamed() && forall e <- c.stream :: Readings(cfg, e)
    ensures Admissible(c.stream) <==>
            forall t: Tables, first: PassInput, second: PassInput, third: PassInput ::
              ThreeFullPasses(cfg, c, t, first, second, third) ==>
                Settled(cfg, c, AfterThree(cfg, t, first, second, third))
  {
    hide Settled, FullPass, Holding, After, AllKnown;
    if Admissible(c.stream) {
      forall t: Tables, first: PassInput, second: PassInput, third: PassInput
        | ThreeFullPasses(cfg, c, t, first, second, third)
        ensures Settled(cfg, c, AfterThree(cfg, t, first, second, third))
      {
        ThreePasses(cfg, c, t, first, second, third);
      }
    } else {
      var k := InadmissibleLeavesOver(c.stream, c.p, c.currency);
      var t, first, second, third := QueueNeverSettles(cfg, c, k);
    }
  }
}
