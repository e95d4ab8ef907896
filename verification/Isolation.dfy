/** What one delivery can do to the books of another: nothing. */
module Isolation {
  import opened Wrappers
  import opened Model
  import opened Dlq
  import opened Store
  import opened Ledger
  import opened Inbox
  import opened Drain

  /** The posting a row attempts on the books it meets; None where it fails before reaching them. */
  function Attempt(cfg: Config, b: Books, row: Snapshot, fault: Option<Error>): Option<Posting> {
    if fault.Some? then None
    else
      match cfg.decode(row.provider, row.raw)
      case Unreadable(_) => None
      case Readable(e) => Some(Post(b, true, row.id, e))
  }

  predicate Fails(cfg: Config, b: Books, row: Snapshot, fault: Option<Error>) {
    var attempt := Attempt(cfg, b, row, fault);
    attempt.None? || attempt.value.Raised?
  }

  function RowBooks(cfg: Config, b: Books, row: Snapshot, fault: Option<Error>): Books {
    match Attempt(cfg, b, row, fault)
    case None => b
    case Some(posting) => BooksAfter(b, posting)
  }

  function PassBooks(cfg: Config, b: Books, rows: seq<Snapshot>, faults: Faults): Books
    decreases |rows|
  {
    if rows == [] then b
    else
      var last := rows[|rows| - 1];
      RowBooks(cfg, PassBooks(cfg, b, rows[..|rows| - 1], faults), last, faults(last.id))
  }

  lemma RowIsItsBooks(
    cfg: Config, t: Tables, now: Time, budgetUsed: int, row: Snapshot, fault: Option<Error>, delay: Time)
    requires row.id in t.deliveries
    ensures DrainRow(cfg, t, now, budgetUsed, row, fault, delay).tables.books == RowBooks(cfg, t.books, row, fault)
  {
  }

  /** The books after a pass depend on the books before it and the rows, on nothing else: not on the
      clock, the budget, the delays, or the other columns of the queue. */
  lemma {:induction false} PassIsItsBooks(
    cfg: Config, t: Tables, now: Time, rows: seq<Snapshot>, faults: Faults, draws: Draws)
    requires AllKnown(t, rows)
    ensures DrainRows(cfg, t, now, rows, faults, draws).tables.books == PassBooks(cfg, t.books, rows, faults)
    decreases |rows|
  {
    hide DrainRow, RowBooks;
    if rows != [] {
      var front, last := rows[..|rows| - 1], rows[|rows| - 1];
      assert last in rows;
      PassIsItsBooks(cfg, t, now, front, faults, draws);
      var before := DrainRows(cfg, t, now, front, faults, draws);
      RowIsItsBooks(cfg, before.tables, now, before.budgetUsed, last, faults(last.id),
          draws(last.id, last.attempts + 1));
    }
  }

  // ------------------------------------------------------------- poison isolation

  /** The batch without the rows that fail when their turn comes. */
  function Surviving(cfg: Config, b: Books, rows: seq<Snapshot>, faults: Faults): seq<Snapshot>
    decreases |rows|
  {
    if rows == [] then []
    else
      var front, last := rows[..|rows| - 1], rows[|rows| - 1];
      Surviving(cfg, b, front, faults) +
      (if Fails(cfg, PassBooks(cfg, b, front, faults), last, faults(last.id)) then [] else [last])
  }

  lemma FailureLeavesBooks(cfg: Config, b: Books, row: Snapshot, fault: Option<Error>)
    requires Fails(cfg, b, row, fault)
    ensures RowBooks(cfg, b, row, fault) == b
  {
  }

  lemma {:induction false} SurvivorsSuffice(cfg: Config, b: Books, rows: seq<Snapshot>, faults: Faults)
    ensures PassBooks(cfg, b, Surviving(cfg, b, rows, faults), faults) == PassBooks(cfg, b, rows, faults)
    ensures forall r <- Surviving(cfg, b, rows, faults) :: r in rows
    decreases |rows|
  {
    if rows != [] {
      var front, last := rows[..|rows| - 1], rows[|rows| - 1];
      SurvivorsSuffice(cfg, b, front, faults);
      var kept := Surviving(cfg, b, front, faults);
      if Fails(cfg, PassBooks(cfg, b, front, faults), last, faults(last.id)) {
        FailureLeavesBooks(cfg, PassBooks(cfg, b, front, faults), last, faults(last.id));
        assert kept + [] == kept;
      } else {
        assert (kept + [last])[..|kept|] == kept;
      }
    }
  }

  /** The tables agree on the books and on the delivery row of every id in ids. */
  ghost predicate Agree(t: Tables, u: Tables, ids: set<string>) {
    t.books == u.books && forall id <- ids :: id in t.deliveries && id in u.deliveries && t.deliveries[id] == u.deliveries[id]
  }

  ghost function IdsOf(rows: seq<Snapshot>): set<string> {
    set r <- rows :: r.id
  }

  lemma RowAgrees(
    cfg: Config, t: Tables, u: Tables, now: Time, bt: int, bu: int, row: Snapshot, fault: Option<Error>, delay: Time,
        ids: set<string>)
    requires Agree(t, u, ids) && row.id in ids && !Fails(cfg, t.books, row, fault)
    ensures Agree(DrainRow(cfg, t, now, bt, row, fault, delay).tables, DrainRow(cfg, u, now, bu, row, fault, delay).tables, ids)
  {
  }

  lemma FailureTouchesItself(
    cfg: Config, t: Tables, u: Tables, now: Time, budgetUsed: int, row: Snapshot, fault: Option<Error>, delay: Time,
        ids: set<string>)
    requires Agree(t, u, ids) && row.id in t.deliveries && row.id !in ids && Fails(cfg, t.books, row, fault)
    ensures Agree(DrainRow(cfg, t, now, budgetUsed, row, fault, delay).tables, u, ids)
  {
  }

  ghost predicate DistinctIds(rows: seq<Snapshot>) {
    forall i, j :: 0 <= i < j < |rows| ==> rows[i].id != rows[j].id
  }

  /** The rows that fail are outside ids and the rows that do not are inside. */
  ghost predicate Separates(cfg: Config, b: Books, rows: seq<Snapshot>, faults: Faults, ids: set<string>)
    decreases |rows|
  {
    rows != [] ==>
      var front, last := rows[..|rows| - 1], rows[|rows| - 1];
      && Separates(cfg, b, front, faults, ids)
      && (Fails(cfg, PassBooks(cfg, b, front, faults), last, faults(last.id)) <==> last.id !in ids)
  }

  lemma IsolationStep(
    cfg: Config, t: Tables, u: Tables, now: Time, bt: int, bu: int, row: Snapshot, fault: Option<Error>, delay: Time,
        ids: set<string>)
    requires Agree(t, u, ids) && row.id in t.deliveries
    requires Fails(cfg, t.books, row, fault) <==> row.id !in ids
    ensures
      var after := DrainRow(cfg, t, now, bt, row, fault, delay).tables;
      Agree(after, if row.id in ids then DrainRow(cfg, u, now, bu, row, fault, delay).tables else u, ids)
  {
    hide DrainRow, Fails;
    if row.id in ids {
      RowAgrees(cfg, t, u, now, bt, bu, row, fault, delay, ids);
    } else {
      FailureTouchesItself(cfg, t, u, now, bt, row, fault, delay, ids);
    }
  }

  lemma {:induction false} BatchesAgree(
    cfg: Config, t: Tables, now: Time, rows: seq<Snapshot>, faults: Faults, draws: Draws, ids: set<string>)
    requires AllKnown(t, rows) && ids <= t.deliveries.Keys && Separates(cfg, t.books, rows, faults, ids)
    ensures AllKnown(t, Surviving(cfg, t.books, rows, faults))
    ensures Agree(DrainRows(cfg, t, now, rows, faults, draws).tables,
                  DrainRows(cfg, t, now, Surviving(cfg, t.books, rows, faults), faults, draws).tables, ids)
    decreases |rows|
  {
    hide DrainRow, RowBooks, Fails;
    SurvivorsSuffice(cfg, t.books, rows, faults);
    if rows != [] {
      var front, last := rows[..|rows| - 1], rows[|rows| - 1];
      assert last in rows;
      var kept := Surviving(cfg, t.books, front, faults);
      BatchesAgree(cfg, t, now, front, faults, draws, ids);
      PassIsItsBooks(cfg, t, now, front, faults, draws);
      var before, clean := DrainRows(cfg, t, now, front, faults, draws), DrainRows(cfg, t, now, kept, faults, draws);
      IsolationStep(cfg, before.tables, clean.tables, now, before.budgetUsed, clean.budgetUsed, last, faults(last.id),
                    draws(last.id, last.attempts + 1), ids);
      if last.id in ids {
        DrainRowsSnoc(cfg, t, now, kept, last, faults, draws);
      } else {
        assert kept + [] == kept;
      }
    }
  }

  lemma LastIsNew(rows: seq<Snapshot>)
    requires DistinctIds(rows) && rows != []
    ensures DistinctIds(rows[..|rows| - 1]) && rows[|rows| - 1] !in rows[..|rows| - 1]
    ensures rows[|rows| - 1].id !in IdsOf(rows[..|rows| - 1])
  {
  }

  lemma {:induction false} SurvivorsSeparate(cfg: Config, b: Books, rows: seq<Snapshot>, faults: Faults,
      ids: set<string>)
    requires DistinctIds(rows)
    requires forall r <- rows :: r.id in ids <==> r in Surviving(cfg, b, rows, faults)
    ensures Separates(cfg, b, rows, faults, ids)
    decreases |rows|
  {
    hide Fails, RowBooks, PassBooks, DistinctIds;
    if rows != [] {
      var front, last := rows[..|rows| - 1], rows[|rows| - 1];
      LastIsNew(rows);
      SurvivorsSuffice(cfg, b, front, faults);
      var kept := Surviving(cfg, b, front, faults);
      assert last in rows && last !in kept;
      forall r | r in front ensures r.id in ids <==> r in kept {
        assert r in rows && r != last;
      }
      SurvivorsSeparate(cfg, b, front, faults, ids);
    }
  }

  /** Poison isolation: a batch leaves the same books, and the same row for every delivery that does
      not fail, as the batch with its failing rows taken out. */
  lemma {:induction false} PoisonIsolation(cfg: Config, t: Tables, now: Time, rows: seq<Snapshot>, faults: Faults,
      draws: Draws)
    requires AllKnown(t, rows) && DistinctIds(rows)
    ensures
      var kept := Surviving(cfg, t.books, rows, faults);
      && AllKnown(t, kept)
      && Agree(DrainRows(cfg, t, now, rows, faults, draws).tables, DrainRows(cfg, t, now, kept, faults, draws).tables, IdsOf(kept))
  {
    var kept := Surviving(cfg, t.books, rows, faults);
    SurvivorsSuffice(cfg, t.books, rows, faults);
    forall r | r in rows ensures r.id in IdsOf(kept) <==> r in kept {
      if r.id in IdsOf(kept) {
        var q :| q in kept && q.id == r.id;
        var i :| 0 <= i < |rows| && rows[i] == r;
        var j :| 0 <= j < |rows| && rows[j] == q;
      }
    }
    SurvivorsSeparate(cfg, t.books, rows, faults, IdsOf(kept));
    BatchesAgree(cfg, t, now, rows, faults, draws, IdsOf(kept));
  }

  // ----------------------------------------------------------------------- locality

  function OwnEffects(effects: seq<Effect>, p: string): seq<Effect> {
    if effects == [] then []
    else
      var last := effects[|effects| - 1];
      OwnEffects(effects[..|effects| - 1], p) + (if last.event.paymentId == p then [last] else [])
  }

  /** What the books hold of one payment. */
  ghost predicate SameFor(b: Books, c: Books, p: string) {
    OwnEffects(b.effects, p) == OwnEffects(c.effects, p) && Find(b.payments, p) == Find(c.payments, p)
  }

  predicate Concerns(cfg: Config, row: Snapshot, p: string) {
    var decoded := cfg.decode(row.provider, row.raw);
    decoded.Readable? && decoded.event.paymentId == p
  }

  function RowsFor(cfg: Config, rows: seq<Snapshot>, p: string): seq<Snapshot> {
    if rows == [] then []
    else
      var last := rows[|rows| - 1];
      RowsFor(cfg, rows[..|rows| - 1], p) + (if Concerns(cfg, last, p) then [last] else [])
  }

  lemma {:induction false} OwnKeys(effects: seq<Effect>, key: Key)
    ensures HasKey(effects, key) <==> HasKey(OwnEffects(effects, key.paymentId), key)
    decreases |effects|
  {
    if effects != [] {
      var front, last := effects[..|effects| - 1], effects[|effects| - 1];
      assert effects == front + [last];
      OwnKeys(front, key);
      assert forall x :: x in effects <==> x in front || x == last;
    }
  }

  lemma {:induction false} SnocOwn(effects: seq<Effect>, x: Effect, p: string)
    ensures OwnEffects(effects + [x], p) == OwnEffects(effects, p) + (if x.event.paymentId == p then [x] else [])
  {
    assert (effects + [x])[..|effects|] == effects;
  }

  lemma PostLocal(b: Books, c: Books, id: string, e: Event)
    requires SameFor(b, c, e.paymentId)
    ensures SameFor(BooksAfter(b, Post(b, true, id, e)), BooksAfter(c, Post(c, true, id, e)), e.paymentId)
  {
    hide ApplyEffect, OwnEffects, HasKey, Upserted;
    SameKeys(b, c, KeyOf(e));
    assert StateBefore(b, e) == StateBefore(c, e) by {
      assert Find(b.payments, e.paymentId) == Find(c.payments, e.paymentId);
    }
    SnocOwn(b.effects, Effect(id, e), e.paymentId);
    SnocOwn(c.effects, Effect(id, e), e.paymentId);
  }

  lemma {:induction false} SameKeys(b: Books, c: Books, key: Key)
    requires SameFor(b, c, key.paymentId)
    ensures HasKey(b.effects, key) <==> HasKey(c.effects, key)
  {
    OwnKeys(b.effects, key);
    OwnKeys(c.effects, key);
  }

  lemma RowLocal(cfg: Config, b: Books, c: Books, row: Snapshot, fault: Option<Error>, p: string)
    requires SameFor(b, c, p) && Concerns(cfg, row, p)
    ensures SameFor(RowBooks(cfg, b, row, fault), RowBooks(cfg, c, row, fault), p)
  {
    hide Post;
    PostLocal(b, c, row.id, cfg.decode(row.provider, row.raw).event);
  }

  lemma RowForeign(cfg: Config, b: Books, row: Snapshot, fault: Option<Error>, p: string)
    requires !Concerns(cfg, row, p)
    ensures SameFor(RowBooks(cfg, b, row, fault), b, p)
  {
    var decoded := cfg.decode(row.provider, row.raw);
    if decoded.Readable? {
      SnocOwn(b.effects, Effect(row.id, decoded.event), p);
    }
  }

  /** A batch leaves on one payment what its own rows alone would leave. */
  lemma {:induction false} OwnRowsDecide(cfg: Config, b: Books, rows: seq<Snapshot>, faults: Faults, p: string)
    ensures SameFor(PassBooks(cfg, b, rows, faults), PassBooks(cfg, b, RowsFor(cfg, rows, p), faults), p)
    decreases |rows|
  {
    if rows != [] {
      var front, last := rows[..|rows| - 1], rows[|rows| - 1];
      OwnRowsDecide(cfg, b, front, faults, p);
      var own := RowsFor(cfg, front, p);
      if Concerns(cfg, last, p) {
        assert (own + [last])[..|own|] == own;
        RowLocal(cfg, PassBooks(cfg, b, front, faults), PassBooks(cfg, b, own, faults), last, faults(last.id), p);
      } else {
        assert own + [] == own;
        RowForeign(cfg, PassBooks(cfg, b, front, faults), last, faults(last.id), p);
      }
    }
  }

  lemma {:induction false} SameStartSameEnd(cfg: Config, b: Books, c: Books, rows: seq<Snapshot>, faults: Faults,
      p: string)
    requires SameFor(b, c, p) && forall r <- rows :: Concerns(cfg, r, p)
    ensures SameFor(PassBooks(cfg, b, rows, faults), PassBooks(cfg, c, rows, faults), p)
    decreases |rows|
  {
    if rows != [] {
      var front, last := rows[..|rows| - 1], rows[|rows| - 1];
      assert last in rows;
      SameStartSameEnd(cfg, b, c, front, faults, p);
      RowLocal(cfg, PassBooks(cfg, b, front, faults), PassBooks(cfg, c, front, faults), last, faults(last.id), p);
    }
  }

  lemma {:induction false} RowsForConcern(cfg: Config, rows: seq<Snapshot>, p: string)
    ensures forall r <- RowsFor(cfg, rows, p) :: Concerns(cfg, r, p)
    decreases |rows|
  {
    if rows != [] {
      RowsForConcern(cfg, rows[..|rows| - 1], p);
    }
  }

  /** Locality: two queues over two databases that agree on a payment and on its rows leave the same
      effects and the same aggregate for it, whatever else they hold. */
  lemma {:induction false} Locality(
    cfg: Config, t: Tables, u: Tables, nowT: Time, nowU: Time, rowsT: seq<Snapshot>, rowsU: seq<Snapshot>,
    faults: Faults, draws: Draws, p: string)
    requires AllKnown(t, rowsT) && AllKnown(u, rowsU)
    requires SameFor(t.books, u.books, p) && RowsFor(cfg, rowsT, p) == RowsFor(cfg, rowsU, p)
    ensures SameFor(DrainRows(cfg, t, nowT, rowsT, faults, draws).tables.books,
                    DrainRows(cfg, u, nowU, rowsU, faults, draws).tables.books, p)
  {
    PassIsItsBooks(cfg, t, nowT, rowsT, faults, draws);
    PassIsItsBooks(cfg, u, nowU, rowsU, faults, draws);
    OwnRowsDecide(cfg, t.books, rowsT, faults, p);
    OwnRowsDecide(cfg, u.books, rowsU, faults, p);
    RowsForConcern(cfg, rowsT, p);
    SameStartSameEnd(cfg, t.books, u.books, RowsFor(cfg, rowsT, p), faults, p);
  }
}
