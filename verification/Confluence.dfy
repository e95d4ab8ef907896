/** Park and retry settles one payment's stream whatever order it arrives in: three drain passes in
    which its queued rows are due, among any other deliveries, always end in the same aggregate. */
module Confluence {
  import opened Wrappers
  import opened Sums
  import opened Ordering
  import opened Model
  import opened Dlq
  import opened Store
  import opened Ledger
  import opened LedgerTheorems
  import opened Inbox
  import opened Drain
  import opened Machine
  import opened Isolation
  import opened Streams

  /** The stream under study, for one payment in one currency. */
  datatype Subject = Subject(stream: seq<Event>, p: string, currency: string) {
    ghost predicate Streamed() {
      PaymentStream(stream, p, currency)
    }

    ghost predicate Valid() {
      Streamed() && Admissible(stream)
    }
  }

  function EventOf(cfg: Config, d: Delivery): Option<Event> {
    match cfg.decode(d.provider, d.raw)
    case Readable(e) => Some(e)
    case Unreadable(_) => None
  }

  /** The delivery is one of the payment's. */
  predicate About(cfg: Config, d: Delivery, p: string) {
    EventOf(cfg, d).Some? && EventOf(cfg, d).value.paymentId == p
  }

  function OwnOf(t: Tables, p: string): seq<Event> {
    Own(t.books.effects, p)
  }

  /** A queue part way through the stream: the payment's deliveries carry stream events, twins under
      other ids included, each waiting or settled, a settled one with its event in the books; and
      every event of the stream has a delivery. */
  ghost predicate Holding(cfg: Config, c: Subject, t: Tables)
    requires c.Streamed()
  {
    && BooksPartway(c.stream, t.books, c.p)
    && (forall id <- t.deliveries :: About(cfg, t.deliveries[id], c.p) ==> RowFits(cfg, c, t, t.deliveries[id]))
    && (forall e <- c.stream :: exists id <- t.deliveries :: EventOf(cfg, t.deliveries[id]) == Some(e))
  }

  ghost predicate RowFits(cfg: Config, c: Subject, t: Tables, d: Delivery) {
    && EventOf(cfg, d).Some? && EventOf(cfg, d).value in c.stream
    && d.state != DeadLettered
    && (!Queued(d.state) ==> EventOf(cfg, d).value in OwnOf(t, c.p))
  }

  /** One later state of the queue: the same deliveries with the same contents, the books grown, and
      settled rows left alone. */
  ghost predicate Later(t: Tables, u: Tables, p: string) {
    && t.deliveries.Keys == u.deliveries.Keys
    && (forall id <- t.deliveries ::
          && u.deliveries[id].provider == t.deliveries[id].provider && u.deliveries[id].raw == t.deliveries[id].raw)
    && (forall e <- OwnOf(t, p) :: e in OwnOf(u, p))
  }

  lemma ReadyStays(c: Subject, own: seq<Event>, more: seq<Event>, e: Event)
    requires c.Valid() && Ready(c.stream, own, e) && Partway(c.stream, own) && Partway(c.stream, more)
    requires forall x <- own :: x in more
    ensures Ready(c.stream, more, e)
  {
    SubsetMultiset(own, more);
    assert multiset(own) <= multiset(more);
    SmallerNotLonger(own, more);
  }

  // ---------------------------------------------------------------------- one row

  /** A readable row without a fault is settled or parked as its posting says. */
  lemma CleanRow(cfg: Config, t: Tables, now: Time, budgetUsed: int, row: Snapshot, delay: Time, e: Event)
    requires row.id in t.deliveries && cfg.decode(row.provider, row.raw) == Readable(e)
    requires !Post(t.books, true, row.id, e).Raised?
    ensures
      var posting, u := Post(t.books, true, row.id, e), DrainRow(cfg, t, now, budgetUsed, row, None, delay).tables;
      && u.books == BooksAfter(t.books, posting) && u.deliveries == t.deliveries[row.id := u.deliveries[row.id]]
      && u.deliveries[row.id].provider == t.deliveries[row.id].provider
          && u.deliveries[row.id].raw == t.deliveries[row.id].raw
      && u.deliveries[row.id].state == (if posting.Posted? then Applied else if posting.NoopDuplicate? then Duplicate else Parked)
  {
    hide Post;
  }

  /** What a pass makes of one of the payment's own rows: settled if its prerequisite is folded,
      parked otherwise. */
  lemma OwnRow(cfg: Config, c: Subject, t: Tables, now: Time, budgetUsed: int, row: Snapshot, delay: Time)
    requires c.Valid() && Holding(cfg, c, t)
    requires row.id in t.deliveries && Queued(t.deliveries[row.id].state) && About(cfg, t.deliveries[row.id], c.p)
    requires row.provider == t.deliveries[row.id].provider && row.raw == t.deliveries[row.id].raw
    ensures
      var u := DrainRow(cfg, t, now, budgetUsed, row, None, delay).tables;
      var e := EventOf(cfg, t.deliveries[row.id]).value;
      && BooksPartway(c.stream, u.books, c.p)
      && u.deliveries == t.deliveries[row.id := u.deliveries[row.id]]
      && u.deliveries[row.id].provider == row.provider && u.deliveries[row.id].raw == row.raw
      && (forall x <- OwnOf(t, c.p) :: x in OwnOf(u, c.p))
      && u.deliveries[row.id].state in {Applied, Duplicate, Parked}
      && (u.deliveries[row.id].state == Parked ==> !Ready(c.stream, OwnOf(t, c.p), e))
      && (u.deliveries[row.id].state != Parked ==> e in OwnOf(u, c.p))
  {
    assert |c.stream| >= 2 && Partway(c.stream, OwnOf(t, c.p));
    hide Post, BooksPartway, PaymentStream, Admissible, Ready, Superfluous;
    hide DrainRow;
    var e := EventOf(cfg, t.deliveries[row.id]).value;
    PostArrival(c.stream, t.books, row.id, e, c.p, c.currency);
    if e !in OwnOf(t, c.p) {
      AdmissibleNeverSuperfluous(c.stream, OwnOf(t, c.p), e, c.p, c.currency);
    }
    CleanRow(cfg, t, now, budgetUsed, row, delay, e);
  }

  /** A row of any other payment, or one that fails, leaves this payment's events alone. */
  lemma OtherRow(cfg: Config, c: Subject, t: Tables, now: Time, budgetUsed: int, row: Snapshot, fault: Option<Error>,
      delay: Time)
    requires c.Valid() && BooksPartway(c.stream, t.books, c.p)
    requires row.id in t.deliveries && !About(cfg, t.deliveries[row.id], c.p)
    requires row.provider == t.deliveries[row.id].provider && row.raw == t.deliveries[row.id].raw
    ensures
      var u := DrainRow(cfg, t, now, budgetUsed, row, fault, delay).tables;
      && BooksPartway(c.stream, u.books, c.p) && OwnOf(u, c.p) == OwnOf(t, c.p)
      && u.deliveries == t.deliveries[row.id := u.deliveries[row.id]]
      && u.deliveries[row.id].provider == row.provider && u.deliveries[row.id].raw == row.raw
  {
    RowShapeHolds(cfg, t, now, budgetUsed, row, fault, delay);
    RowIsItsBooks(cfg, t, now, budgetUsed, row, fault, delay);
    hide DrainRow, Post, BooksPartway, PaymentStream;
    var decoded := cfg.decode(row.provider, row.raw);
    if decoded.Readable? {
      ForeignPost(c.stream, t.books, row.id, decoded.event, c.p);
    }
  }

  lemma {:induction false} ForeignPost(stream: seq<Event>, b: Books, id: string, e: Event, p: string)
    requires |stream| >= 2 && BooksPartway(stream, b, p) && e.paymentId != p
    ensures
      var after := BooksAfter(b, Post(b, true, id, e));
      BooksPartway(stream, after, p) && Own(after.effects, p) == Own(b.effects, p)
  {
    hide ApplyEffect, BooksSound, Partway;
    PostKeepsBooks(b, true, id, e);
    OwnSnoc(b.effects, Effect(id, e), p);
    assert Own(b.effects, p) + [] == Own(b.effects, p);
  }

  lemma HoldingKept(cfg: Config, c: Subject, t: Tables, u: Tables, id: string)
    requires c.Valid() && Holding(cfg, c, t) && BooksPartway(c.stream, u.books, c.p)
    requires id in t.deliveries && id in u.deliveries && u.deliveries == t.deliveries[id := u.deliveries[id]]
    requires u.deliveries[id].provider == t.deliveries[id].provider && u.deliveries[id].raw == t.deliveries[id].raw
    requires forall e <- OwnOf(t, c.p) :: e in OwnOf(u, c.p)
    requires About(cfg, u.deliveries[id], c.p) ==> RowFits(cfg, c, u, u.deliveries[id])
    ensures Holding(cfg, c, u) && Later(t, u, c.p)
  {
    forall e | e in c.stream ensures exists other <- u.deliveries :: EventOf(cfg, u.deliveries[other]) == Some(e) {
      var other :| other in t.deliveries && EventOf(cfg, t.deliveries[other]) == Some(e);
      assert EventOf(cfg, u.deliveries[other]) == Some(e);
    }
  }

  // --------------------------------------------------------------------- one pass

  /** The rows of a pass as it finds them, none of the payment's own facing a fault. */
  ghost predicate Passable(cfg: Config, c: Subject, t: Tables, rows: seq<Snapshot>, faults: Faults) {
    && DistinctIds(rows)
    && forall r <- rows ::
         && r.id in t.deliveries && Queued(t.deliveries[r.id].state)
         && r.provider == t.deliveries[r.id].provider && r.raw == t.deliveries[r.id].raw
         && (About(cfg, t.deliveries[r.id], c.p) ==> faults(r.id) == None)
  }

  /** What the pass leaves of one of the payment's own rows. */
  ghost predicate RowDone(cfg: Config, c: Subject, t: Tables, u: Tables, id: string)
    requires c.Valid() && id in t.deliveries && id in u.deliveries
  {
    About(cfg, t.deliveries[id], c.p) ==>
      && u.deliveries[id].state in {Applied, Duplicate, Parked}
      && (u.deliveries[id].state == Parked ==>
            && EventOf(cfg, t.deliveries[id]).Some?
            && !Ready(c.stream, OwnOf(t, c.p), EventOf(cfg, t.deliveries[id]).value))
  }

  ghost predicate PassDone(cfg: Config, c: Subject, t: Tables, u: Tables, rows: seq<Snapshot>)
    requires c.Valid()
  {
    && Holding(cfg, c, u) && Later(t, u, c.p)
    && (forall id <- t.deliveries :: id in u.deliveries && (id !in IdsOf(rows) ==> u.deliveries[id] == t.deliveries[id]))
    && (forall r <- rows :: r.id in t.deliveries && r.id in u.deliveries && RowDone(cfg, c, t, u, r.id))
  }

  lemma RowInPass(
    cfg: Config, c: Subject, t: Tables, m: Tables, now: Time, budgetUsed: int, row: Snapshot, fault: Option<Error>,
        delay: Time)
    requires c.Valid() && Holding(cfg, c, t) && Holding(cfg, c, m) && Later(t, m, c.p)
    requires row.id in t.deliveries && row.id in m.deliveries && m.deliveries[row.id] == t.deliveries[row.id]
    requires Queued(t.deliveries[row.id].state)
    requires row.provider == t.deliveries[row.id].provider && row.raw == t.deliveries[row.id].raw
    requires About(cfg, t.deliveries[row.id], c.p) ==> fault == None
    ensures
      var u := DrainRow(cfg, m, now, budgetUsed, row, fault, delay).tables;
      && Holding(cfg, c, u) && Later(m, u, c.p) && u.deliveries == m.deliveries[row.id := u.deliveries[row.id]]
      && RowDone(cfg, c, t, u, row.id)
  {
    assert |c.stream| >= 2;
    var u := DrainRow(cfg, m, now, budgetUsed, row, fault, delay).tables;
    if About(cfg, t.deliveries[row.id], c.p) {
      OwnRow(cfg, c, m, now, budgetUsed, row, delay);
      hide DrainRow;
      HoldingKept(cfg, c, m, u, row.id);
      var e := EventOf(cfg, t.deliveries[row.id]).value;
      if Ready(c.stream, OwnOf(t, c.p), e) {
        ReadyStays(c, OwnOf(t, c.p), OwnOf(m, c.p), e);
      }
    } else {
      OtherRow(cfg, c, m, now, budgetUsed, row, fault, delay);
      hide DrainRow;
      HoldingKept(cfg, c, m, u, row.id);
    }
  }

  lemma NothingPassed(cfg: Config, c: Subject, t: Tables)
    requires c.Valid() && Holding(cfg, c, t)
    ensures PassDone(cfg, c, t, t, [])
  {
    hide Holding;
  }

  lemma {:induction false} PassHolds(
    cfg: Config, c: Subject, t: Tables, now: Time, rows: seq<Snapshot>, faults: Faults, draws: Draws)
    requires c.Valid() && Holding(cfg, c, t) && AllKnown(t, rows) && Passable(cfg, c, t, rows, faults)
    ensures PassDone(cfg, c, t, DrainRows(cfg, t, now, rows, faults, draws).tables, rows)
    decreases |rows|
  {
    hide DrainRow, PassDone, Holding, PaymentStream, Admissible, About;
    if rows == [] {
      NothingPassed(cfg, c, t);
    } else {
      var front, last := rows[..|rows| - 1], rows[|rows| - 1];
      assert last in rows && rows == front + [last];
      LastIsNew(rows);
      PassHolds(cfg, c, t, now, front, faults, draws);
      var before := DrainRows(cfg, t, now, front, faults, draws);
      PassStep(cfg, c, t, before.tables, now, before.budgetUsed, front, last, faults(last.id),
          draws(last.id, last.attempts + 1));
    }
  }

  lemma RowDoneStays(cfg: Config, c: Subject, t: Tables, m: Tables, u: Tables, id: string)
    requires c.Valid() && id in t.deliveries && id in m.deliveries && id in u.deliveries
    requires RowDone(cfg, c, t, m, id) && u.deliveries[id] == m.deliveries[id]
    ensures RowDone(cfg, c, t, u, id)
  {
  }

  lemma LaterTransitive(t: Tables, m: Tables, u: Tables, p: string)
    requires Later(t, m, p) && Later(m, u, p)
    ensures Later(t, u, p)
  {
    forall id | id in t.deliveries
      ensures u.deliveries[id].provider == t.deliveries[id].provider && u.deliveries[id].raw == t.deliveries[id].raw
    {
      assert id in t.deliveries.Keys && id in m.deliveries && id in u.deliveries.Keys;
    }
  }

  lemma PassStep(
    cfg: Config, c: Subject, t: Tables, m: Tables, now: Time, budgetUsed: int, front: seq<Snapshot>, last: Snapshot,
    fault: Option<Error>, delay: Time)
    requires c.Valid() && Holding(cfg, c, t) && PassDone(cfg, c, t, m, front)
    requires last.id !in IdsOf(front) && last.id in t.deliveries && last.id in m.deliveries
          && Queued(t.deliveries[last.id].state)
    requires last.provider == t.deliveries[last.id].provider && last.raw == t.deliveries[last.id].raw
    requires About(cfg, t.deliveries[last.id], c.p) ==> fault == None
    ensures PassDone(cfg, c, t, DrainRow(cfg, m, now, budgetUsed, last, fault, delay).tables, front + [last])
  {
    hide DrainRow, Holding, RowDone, Later, PaymentStream, Admissible, About;
    RowInPass(cfg, c, t, m, now, budgetUsed, last, fault, delay);
    var u := DrainRow(cfg, m, now, budgetUsed, last, fault, delay).tables;
    LaterTransitive(t, m, u, c.p);
    assert IdsOf(front + [last]) == IdsOf(front) + {last.id};
    forall r | r in front ensures r.id in t.deliveries && r.id in u.deliveries && RowDone(cfg, c, t, u, r.id) {
      assert r.id in IdsOf(front);
      RowDoneStays(cfg, c, t, m, u, r.id);
    }
  }

  // ------------------------------------------------------------------ three passes

  /** What a pass starts from, what befalls it, and how long it takes. */
  datatype PassInput = PassInput(
    now: Time, limit: int, rows: seq<Snapshot>, faults: Faults, draws: Draws, took: Time)

  /** A pass over the due queue that reaches every queued row of the payment, without a fault on any. */
  ghost predicate FullPass(cfg: Config, c: Subject, t: Tables, pass: PassInput) {
    && Selection(t, pass.now, pass.limit, pass.rows)
    && forall id <- t.deliveries :: About(cfg, t.deliveries[id], c.p) ==>
         && pass.faults(id) == None
         && (Queued(t.deliveries[id].state) ==> SnapshotOf(id, t.deliveries[id]) in pass.rows)
  }

  function After(cfg: Config, t: Tables, pass: PassInput): Tables
    requires AllKnown(t, pass.rows)
  {
    DrainRows(cfg, t, pass.now, pass.rows, pass.faults, pass.draws).tables
  }

  lemma FullPassDone(cfg: Config, c: Subject, t: Tables, pass: PassInput)
    requires c.Valid() && Holding(cfg, c, t) && FullPass(cfg, c, t, pass)
    ensures AllKnown(t, pass.rows) && PassDone(cfg, c, t, After(cfg, t, pass), pass.rows)
  {
    SelectedOnce(t, pass.now, pass.limit, pass.rows);
    PassHolds(cfg, c, t, pass.now, pass.rows, pass.faults, pass.draws);
  }

  /** A full pass settles every one of the payment's deliveries whose prerequisite it starts with. */
  lemma ReadySettles(cfg: Config, c: Subject, t: Tables, pass: PassInput, id: string)
    requires c.Valid() && Holding(cfg, c, t) && FullPass(cfg, c, t, pass) && AllKnown(t, pass.rows)
    requires PassDone(cfg, c, t, After(cfg, t, pass), pass.rows)
    requires id in t.deliveries && About(cfg, t.deliveries[id], c.p)
    requires Ready(c.stream, OwnOf(t, c.p), EventOf(cfg, t.deliveries[id]).value)
    ensures
      var u := After(cfg, t, pass);
      id in u.deliveries && u.deliveries[id].state in {Applied, Duplicate}
      && EventOf(cfg, t.deliveries[id]).value in OwnOf(u, c.p)
  {
    hide DrainRows, PaymentStream, Admissible, Ready;
    var u := After(cfg, t, pass);
    if Queued(t.deliveries[id].state) {
      assert SnapshotOf(id, t.deliveries[id]) in pass.rows;
    } else {
      assert id !in IdsOf(pass.rows);
    }
    assert id in u.deliveries && About(cfg, u.deliveries[id], c.p);
    assert RowFits(cfg, c, u, u.deliveries[id]);
  }

  lemma EventFolded(cfg: Config, c: Subject, t: Tables, pass: PassInput, e: Event)
    requires c.Valid() && Holding(cfg, c, t) && FullPass(cfg, c, t, pass) && AllKnown(t, pass.rows)
    requires PassDone(cfg, c, t, After(cfg, t, pass), pass.rows)
    requires e in c.stream && Ready(c.stream, OwnOf(t, c.p), e)
    ensures e in OwnOf(After(cfg, t, pass), c.p)
  {
    var id :| id in t.deliveries && EventOf(cfg, t.deliveries[id]) == Some(e);
    ReadySettles(cfg, c, t, pass, id);
  }

  /** Every one of the payment's deliveries is settled and every event of its stream is folded. */
  ghost predicate Settled(cfg: Config, c: Subject, t: Tables) {
    && (forall id <- t.deliveries :: About(cfg, t.deliveries[id], c.p) ==> t.deliveries[id].state in {Applied, Duplicate})
    && (forall e <- c.stream :: e in OwnOf(t, c.p))
  }

  lemma EverythingReady(c: Subject, own: seq<Event>, e: Event)
    requires c.Valid() && |own| >= 2
    ensures Ready(c.stream, own, e)
  {
  }

  lemma ThirdPassSettles(cfg: Config, c: Subject, t: Tables, pass: PassInput)
    requires c.Valid() && Holding(cfg, c, t) && FullPass(cfg, c, t, pass) && |OwnOf(t, c.p)| >= 2
    ensures AllKnown(t, pass.rows) && Holding(cfg, c, After(cfg, t, pass)) && Settled(cfg, c, After(cfg, t, pass))
  {
    FullPassDone(cfg, c, t, pass);
    var u := After(cfg, t, pass);
    forall e | e in c.stream ensures e in OwnOf(u, c.p) {
      EverythingReady(c, OwnOf(t, c.p), e);
      EventFolded(cfg, c, t, pass, e);
    }
    forall id | id in u.deliveries && About(cfg, u.deliveries[id], c.p)
      ensures u.deliveries[id].state in {Applied, Duplicate}
    {
      SettledInThird(cfg, c, t, pass, id);
    }
  }

  lemma SettledInThird(cfg: Config, c: Subject, t: Tables, pass: PassInput, id: string)
    requires c.Valid() && Holding(cfg, c, t) && FullPass(cfg, c, t, pass) && |OwnOf(t, c.p)| >= 2
          && AllKnown(t, pass.rows)
    requires PassDone(cfg, c, t, After(cfg, t, pass), pass.rows)
    requires id in After(cfg, t, pass).deliveries && About(cfg, After(cfg, t, pass).deliveries[id], c.p)
    ensures After(cfg, t, pass).deliveries[id].state in {Applied, Duplicate}
  {
    hide DrainRows, PaymentStream, Admissible, Ready, BooksPartway, FullPass;
    assert id in After(cfg, t, pass).deliveries.Keys && id in t.deliveries && About(cfg, t.deliveries[id], c.p);
    EverythingReady(c, OwnOf(t, c.p), EventOf(cfg, t.deliveries[id]).value);
    ReadySettles(cfg, c, t, pass, id);
  }

  lemma FirstTwoFolded(c: Subject, own: seq<Event>)
    requires c.Valid() && Partway(c.stream, own)
    ensures c.stream[0] in own ==> |own| >= 1
    ensures c.stream[1] in own ==> |own| >= 2
  {
    assert KeyOf(c.stream[0]) != KeyOf(c.stream[1]);
  }

  /** The one aggregate the stream can end in, whatever the order of its parts. */
  function FinalRow(c: Subject): PaymentRow
    requires c.Valid()
  {
    PaymentRow(Reached(c.stream, c.stream, c.p, c.currency), Latest(c.stream))
  }

  lemma SettledRow(cfg: Config, c: Subject, t: Tables)
    requires c.Valid() && Holding(cfg, c, t) && Settled(cfg, c, t)
    ensures Find(t.books.payments, c.p) == Some(FinalRow(c))
    ensures forall key: Key :: key.paymentId == c.p ==>
              (HasKey(t.books.effects, key) <==> exists e <- c.stream :: KeyOf(e) == key)
  {
    var own := OwnOf(t, c.p);
    assert NoRepeats(c.stream);
    SubsetMultiset(own, c.stream);
    SubsetMultiset(c.stream, own);
    SumPermutation(own, c.stream, RefundMinor);
    assert |multiset(own)| == |multiset(c.stream)|;
    MaximaAgree(own, c.stream);
    assert Find(t.books.payments, c.p) == RowOf(c.p, own);
    assert own[0] in own;
    FoldReached(c.stream, own, c.p, c.currency);
    OwnMembers(t.books.effects, c.p);
    forall key: Key | key.paymentId == c.p
      ensures HasKey(t.books.effects, key) <==> exists e <- c.stream :: KeyOf(e) == key
    {
      if e :| e in c.stream && KeyOf(e) == key {
        assert e in own;
      }
      if HasKey(t.books.effects, key) {
        var x :| x in t.books.effects && KeyOf(x.event) == key;
        assert x.event in own;
      }
    }
  }

  lemma {:induction false} MaximaAgree(xs: seq<Event>, ys: seq<Event>)
    requires xs != [] && ys != [] && forall e :: e in xs <==> e in ys
    ensures Latest(xs) == Latest(ys) && NewestSequence(xs) == NewestSequence(ys)
  {
    LatestIsMaximum(xs);
    LatestIsMaximum(ys);
    NewestIsMaximum(xs);
    NewestIsMaximum(ys);
  }

  /** Confluence: after three passes that reach the payment's queued rows, every one of its
      deliveries is applied or a duplicate, and its aggregate and effect keys are those of the
      stream: the same whatever the order of arrival, the twins, and the rest of the queue. */
  lemma ThreePasses(cfg: Config, c: Subject, t: Tables, first: PassInput, second: PassInput, third: PassInput)
    requires c.Valid() && Holding(cfg, c, t)
    requires FullPass(cfg, c, t, first)
    requires AllKnown(t, first.rows) ==> FullPass(cfg, c, After(cfg, t, first), second)
    requires AllKnown(t, first.rows) && AllKnown(After(cfg, t, first), second.rows) ==>
               FullPass(cfg, c, After(cfg, After(cfg, t, first), second), third)
    ensures AllKnown(t, first.rows) && AllKnown(After(cfg, t, first), second.rows)
            && AllKnown(After(cfg, After(cfg, t, first), second), third.rows)
    ensures
      var end := After(cfg, After(cfg, After(cfg, t, first), second), third);
      && Holding(cfg, c, end) && Settled(cfg, c, end)
      && Find(end.books.payments, c.p) == Some(FinalRow(c))
      && (forall key: Key :: key.paymentId == c.p ==>
            (HasKey(end.books.effects, key) <==> exists e <- c.stream :: KeyOf(e) == key))
  {
    hide After;
    FullPassDone(cfg, c, t, first);
    EventFolded(cfg, c, t, first, c.stream[0]);
    var one := After(cfg, t, first);
    FirstTwoFolded(c, OwnOf(one, c.p));
    FullPassDone(cfg, c, one, second);
    EventFolded(cfg, c, one, second, c.stream[1]);
    var two := After(cfg, one, second);
    FirstTwoFolded(c, OwnOf(two, c.p));
    ThirdPassSettles(cfg, c, two, third);
    SettledRow(cfg, c, After(cfg, two, third));
  }
}
