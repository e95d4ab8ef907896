/** Inputs on which draining until idle ends with a delivery queued that one more pass would take. */
module IdleLimits {
  import opened Wrappers
  import opened Ordering
  import opened Model
  import opened Store
  import opened Inbox
  import opened Drain
  import opened Isolation
  import opened Streams
  import opened Confluence
  import opened Idle
  import opened IdleTheorems

  /** The delivery is due, and the pass that would come next takes it. */
  ghost predicate TakenNext(after: IdleState, id: string) {
    && id in after.t.deliveries && Due(after.t.deliveries[id], after.clock)
    && forall rows :: Selection(after.t, after.clock, DEFAULT_LIMIT, rows) ==>
         SnapshotOf(id, after.t.deliveries[id]) in rows
  }

  // --------------------------------------------------------- due while the pass runs

  const LONE := "evt"

  /** One delivery that failed once, to be tried again at second later. */
  function Scheduled(later: Time): Tables {
    Tables(map[LONE := Received(Stripe, [], 0.0, 30.0).(attempts := 1, nextAttemptAt := Some(later))], NO_BOOKS, map[])
  }

  function Quiet(now: Time, rows: seq<Snapshot>, took: Time): PassInput {
    PassInput(now, DEFAULT_LIMIT, rows, (id: string) => None, (id: string, attempt: int) => 0.0, took)
  }

  lemma LoneQueued(later: Time)
    ensures QueuedIds(Scheduled(later)) == {LONE} && DueAt(Scheduled(later).deliveries[LONE]) == MaxReal(later, 0.0)
  {
  }

  lemma NoneSelected(later: Time)
    requires later > 0.0
    ensures Selection(Scheduled(later), 0.0, DEFAULT_LIMIT, [])
  {
  }

  lemma LoneTaken(later: Time)
    requires later > 0.0
    ensures TakenNext(IdleState(Scheduled(later), later), LONE)
  {
    forall rows | Selection(Scheduled(later), later, DEFAULT_LIMIT, rows)
      ensures SnapshotOf(LONE, Scheduled(later).deliveries[LONE]) in rows
    {
      LoneQueued(later);
      SelectionComplete(Scheduled(later), later, DEFAULT_LIMIT, rows, LONE);
    }
  }

  /** A pass that begins at second 0, finds nothing due, and goes on until the scheduled retry is due,
      ends the call: the retry stays queued, and the next pass would have taken it. */
  lemma SlowPassStops(cfg: Config, took: Time) returns (s: IdleState, pass: PassInput, after: IdleState)
    requires took > 0.0
    ensures pass.took == took && PassFrom(cfg, s, pass, after) && Finished(cfg, s, pass)
    ensures after.t == s.t && CameDue(s, pass, after) && TakenNext(after, LONE)
  {
    s := IdleState(Scheduled(took), 0.0);
    pass := Quiet(0.0, [], took);
    after := IdleState(Scheduled(took), took);
    hide Scheduled, Selection, TakenNext;
    NoneSelected(took);
    LoneQueued(took);
    LoneTaken(took);
    DrainRowsEmpty(cfg, s.t, pass.now, pass.faults, pass.draws);
    hide DrainRows;
    assert LONE in QueuedIds(after.t);
    assert EarliestDue(after.t, took);
  }

  // --------------------------------------------------------------- beyond the limit

  /** A parked delivery of these bytes, and a new one. */
  function Parking(provider: Provider, raw: Bytes): Delivery {
    Delivery(provider, raw, 0.0, Parked, 0, Some(0.0), None, Some(0.0), None)
  }

  const NEWEST := Received(Stripe, [], 0.0, 30.0)

  function Names(n: nat): set<string> {
    set i | 0 <= i <= n :: Ident(i)
  }

  /** n parked deliveries, and after them in the queue a new one. */
  function Crowd(provider: Provider, raw: Bytes, n: nat): Tables {
    Tables(map id | id in Names(n) :: if id == Ident(n) then NEWEST else Parking(provider, raw), NO_BOOKS, map[])
  }

  function CrowdRows(provider: Provider, raw: Bytes, n: nat): seq<Snapshot> {
    seq(n, i requires 0 <= i < n => SnapshotOf(Ident(i), Parking(provider, raw)))
  }

  lemma Crowded(provider: Provider, raw: Bytes, n: nat, i: nat)
    requires i <= n
    ensures
      var t := Crowd(provider, raw, n);
      Ident(i) in t.deliveries && t.deliveries[Ident(i)] == if i == n then NEWEST else Parking(provider, raw)
  {
    hide Ident;
    assert Ident(i) in Names(n);
    if i < n {
      IdentsDiffer(i, n);
    }
  }

  lemma OnlyCrowd(provider: Provider, raw: Bytes, n: nat, id: string) returns (i: nat)
    requires id in Crowd(provider, raw, n).deliveries
    ensures i <= n && id == Ident(i)
  {
    hide Ident;
    i :| 0 <= i <= n && Ident(i) == id;
  }

  lemma CrowdRowAt(provider: Provider, raw: Bytes, n: nat, k: nat)
    requires k < n
    ensures
      var t, r := Crowd(provider, raw, n), CrowdRows(provider, raw, n)[k];
      && r.id == Ident(k) && r.id in t.deliveries && Due(t.deliveries[r.id], 0.0)
          && r == SnapshotOf(r.id, t.deliveries[r.id])
      && t.deliveries[r.id].receivedAt == 0.0 && r.state == Parked && r.provider == provider && r.raw == raw
  {
    hide Ident;
    Crowded(provider, raw, n, k);
  }

  /** A pass limited to n takes the parked ones. */
  lemma CrowdSelected(provider: Provider, raw: Bytes, n: nat)
    ensures Selection(Crowd(provider, raw, n), 0.0, n, CrowdRows(provider, raw, n))
    ensures AllKnown(Crowd(provider, raw, n), CrowdRows(provider, raw, n))
  {
    var t, rows := Crowd(provider, raw, n), CrowdRows(provider, raw, n);
    hide Ident, Less, Due, Crowd, CrowdRows;
    assert |rows| == n by {
      CrowdCount(provider, raw, n);
    }
    forall r | r in rows
      ensures r.id in t.deliveries && Due(t.deliveries[r.id], 0.0) && r == SnapshotOf(r.id, t.deliveries[r.id])
    {
      var k :| 0 <= k < n && rows[k] == r;
      CrowdRowAt(provider, raw, n, k);
    }
    forall i, j | 0 <= i < j < n ensures Earlier(QueueKey(t, rows[i].id), QueueKey(t, rows[j].id)) {
      CrowdRowAt(provider, raw, n, i);
      CrowdRowAt(provider, raw, n, j);
      IdentsAscend(i, j);
    }
    forall id | id in t.deliveries
      ensures SnapshotOf(id, t.deliveries[id]) in rows
              || forall r <- rows :: r.id in t.deliveries && Earlier(QueueKey(t, r.id), QueueKey(t, id))
    {
      CrowdMember(provider, raw, n, id);
    }
  }

  lemma CrowdCount(provider: Provider, raw: Bytes, n: nat)
    ensures |CrowdRows(provider, raw, n)| == n
  {
  }

  lemma CrowdMember(provider: Provider, raw: Bytes, n: nat, id: string)
    requires id in Crowd(provider, raw, n).deliveries
    ensures
      var t, rows := Crowd(provider, raw, n), CrowdRows(provider, raw, n);
      || SnapshotOf(id, t.deliveries[id]) in rows
      || (id == Ident(n) && forall r <- rows :: r.id in t.deliveries && Earlier(QueueKey(t, r.id), QueueKey(t, id)))
  {
    var t, rows := Crowd(provider, raw, n), CrowdRows(provider, raw, n);
    CrowdCount(provider, raw, n);
    hide Ident, Less, Due, Crowd, CrowdRows;
    var i := OnlyCrowd(provider, raw, n, id);
    if i < n {
      CrowdRowAt(provider, raw, n, i);
      assert rows[i] in rows;
    } else {
      Crowded(provider, raw, n, n);
      forall r | r in rows ensures r.id in t.deliveries && Earlier(QueueKey(t, r.id), QueueKey(t, id)) {
        var k :| 0 <= k < n && rows[k] == r;
        CrowdRowAt(provider, raw, n, k);
        IdentsAscend(k, n);
      }
    }
  }

  /** An event without an amount for a payment the books do not hold waits, and a row already parked for it
      is parked again without a word. */
  lemma ParksAgain(cfg: Config, t: Tables, now: Time, budgetUsed: int, row: Snapshot, delay: Time, e: Event)
    requires row.id in t.deliveries && row.state == Parked && cfg.decode(row.provider, row.raw) == Readable(e)
    requires e.amount.None? && e.paymentId !in t.books.payments
    ensures
      var r := DrainRow(cfg, t, now, budgetUsed, row, None, delay);
      r.report == NOTHING && r.tables.books == t.books
  {
  }

  /** Rows parked for this event, which waits for a payment the books do not hold. */
  ghost predicate Stuck(cfg: Config, b: Books, rows: seq<Snapshot>, e: Event) {
    && e.amount.None? && e.paymentId !in b.payments
    && forall r <- rows :: r.state == Parked && cfg.decode(r.provider, r.raw) == Readable(e)
  }

  lemma StuckSplit(cfg: Config, b: Books, rows: seq<Snapshot>, e: Event, n: nat)
    requires Stuck(cfg, b, rows, e) && n < |rows|
    ensures Stuck(cfg, b, rows[..n], e)
    ensures rows[n].state == Parked && cfg.decode(rows[n].provider, rows[n].raw) == Readable(e)
    ensures e.amount.None? && e.paymentId !in b.payments
  {
    assert rows[n] in rows && forall r <- rows[..n] :: r in rows;
  }

  lemma {:induction false} ReparksNothing(cfg: Config, t: Tables, now: Time, rows: seq<Snapshot>, faults: Faults,
      draws: Draws, e: Event)
    requires AllKnown(t, rows) && Stuck(cfg, t.books, rows, e) && forall id :: faults(id) == None
    ensures
      var r := DrainRows(cfg, t, now, rows, faults, draws);
      r.report == NOTHING && r.tables.books == t.books
    decreases |rows|
  {
    hide *;
    if rows == [] {
      DrainRowsEmpty(cfg, t, now, faults, draws);
    } else {
      var n := |rows| - 1;
      RowsSplit(t, rows, n);
      StuckSplit(cfg, t.books, rows, e, n);
      ReparksNothing(cfg, t, now, rows[..n], faults, draws, e);
      OneMoreNothing(cfg, t, now, rows[..n], rows[n], faults, draws, e);
    }
  }

  lemma {:induction false} OneMoreNothing(cfg: Config, t: Tables, now: Time, front: seq<Snapshot>, row: Snapshot, faults: Faults,
      draws: Draws, e: Event)
    requires AllKnown(t, front) && row.id in t.deliveries && faults(row.id) == None
    requires row.state == Parked && cfg.decode(row.provider, row.raw) == Readable(e)
    requires e.amount.None? && e.paymentId !in t.books.payments
    requires
      var r := DrainRows(cfg, t, now, front, faults, draws);
      r.report == NOTHING && r.tables.books == t.books
    ensures AllKnown(t, front + [row])
    ensures
      var r := DrainRows(cfg, t, now, front + [row], faults, draws);
      r.report == NOTHING && r.tables.books == t.books
  {
    hide *;
    DrainRowsSnoc(cfg, t, now, front, row, faults, draws);
    var before := DrainRows(cfg, t, now, front, faults, draws);
    assert row.id in before.tables.deliveries.Keys;
    ParksAgain(cfg, before.tables, now, before.budgetUsed, row, draws(row.id, row.attempts + 1), e);
    NothingAdds(NOTHING);
  }

  lemma NothingAdds(r: Report)
    ensures NOTHING.Merge(r) == r
  {
  }

  lemma CrowdStuck(cfg: Config, provider: Provider, raw: Bytes, n: nat, e: Event)
    requires cfg.decode(provider, raw) == Readable(e) && e.amount.None?
    ensures Stuck(cfg, Crowd(provider, raw, n).books, CrowdRows(provider, raw, n), e)
  {
    hide Ident;
    forall r | r in CrowdRows(provider, raw, n)
      ensures r.state == Parked && cfg.decode(r.provider, r.raw) == Readable(e)
    {
      var k :| 0 <= k < n && CrowdRows(provider, raw, n)[k] == r;
    }
  }

  /** What the pass leaves: the parked deliveries put off for one base delay, the new one as it was. */
  ghost predicate PutOff(cfg: Config, u: Tables, n: nat) {
    (forall i: nat :: i < n ==> OnePutOff(cfg, u, Ident(i))) && NewestWaits(u, n)
  }

  ghost predicate OnePutOff(cfg: Config, u: Tables, id: string) {
    && id in u.deliveries && u.deliveries[id].nextAttemptAt == Some(0.0)
    && u.deliveries[id].parkedUntil == Some(cfg.policy.baseSeconds)
  }

  ghost predicate NewestWaits(u: Tables, n: nat) {
    && Ident(n) in u.deliveries && u.deliveries[Ident(n)] == NEWEST
    && forall id <- u.deliveries :: exists i: nat :: i <= n && Ident(i) == id
  }

  lemma NewestOutside(provider: Provider, raw: Bytes, n: nat)
    ensures Ident(n) !in IdsOf(CrowdRows(provider, raw, n))
  {
    hide Ident;
    forall r | r in CrowdRows(provider, raw, n) ensures |r.id| < n {
      var k :| 0 <= k < n && CrowdRows(provider, raw, n)[k] == r;
    }
  }

  /** The pass over the crowd reports nothing. */
  ghost predicate CrowdPass(cfg: Config, provider: Provider, raw: Bytes, n: nat, pass: PassInput) {
    && pass == Quiet(0.0, CrowdRows(provider, raw, n), 0.0)
    && var t := Crowd(provider, raw, n);
       && Selection(t, 0.0, DEFAULT_LIMIT, pass.rows) && AllKnown(t, pass.rows)
       && DrainRows(cfg, t, 0.0, pass.rows, pass.faults, pass.draws).report.Total() == 0
  }

  lemma CrowdPassed(cfg: Config, provider: Provider, raw: Bytes, e: Event)
    requires cfg.decode(provider, raw) == Readable(e) && e.amount.None?
    ensures CrowdPass(cfg, provider, raw, DEFAULT_LIMIT, Quiet(0.0, CrowdRows(provider, raw, DEFAULT_LIMIT), 0.0))
  {
    var t, rows := Crowd(provider, raw, DEFAULT_LIMIT), CrowdRows(provider, raw, DEFAULT_LIMIT);
    var pass := Quiet(0.0, rows, 0.0);
    hide Crowd, CrowdRows, DrainRows, Selection, AllKnown, Stuck;
    CrowdSelected(provider, raw, DEFAULT_LIMIT);
    CrowdStuck(cfg, provider, raw, DEFAULT_LIMIT, e);
    ReparksNothing(cfg, t, 0.0, rows, pass.faults, pass.draws, e);
  }

  lemma RowPutOff(cfg: Config, provider: Provider, raw: Bytes, n: nat, pass: PassInput, i: nat)
    requires CrowdPass(cfg, provider, raw, n, pass) && i < n
    ensures OnePutOff(cfg, After(cfg, Crowd(provider, raw, n), pass), Ident(i))
  {
    CrowdCount(provider, raw, n);
    assert pass.rows[i] in pass.rows;
    hide Ident, Crowd, CrowdRows, Selection, AllKnown, DrainRows, After;
    CrowdRowAt(provider, raw, n, i);
    Crowded(provider, raw, n, i);
    Reparked(cfg, IdleState(Crowd(provider, raw, n), 0.0), pass, pass.rows[i]);
  }

  lemma NewestLeft(cfg: Config, provider: Provider, raw: Bytes, n: nat, pass: PassInput)
    requires CrowdPass(cfg, provider, raw, n, pass)
    ensures NewestWaits(After(cfg, Crowd(provider, raw, n), pass), n)
  {
    var t := Crowd(provider, raw, n);
    hide Ident, Crowd, CrowdRows, Selection, AllKnown, DrainRows;
    Crowded(provider, raw, n, n);
    NewestOutside(provider, raw, n);
    SelectionDistinct(t, 0.0, DEFAULT_LIMIT, pass.rows);
    PassRows(cfg, t, 0.0, pass.rows, pass.faults, pass.draws);
    forall id | id in After(cfg, t, pass).deliveries ensures exists i: nat :: i <= n && Ident(i) == id {
      assert id in After(cfg, t, pass).deliveries.Keys && id in t.deliveries.Keys;
      var i := OnlyCrowd(provider, raw, n, id);
    }
  }

  lemma PassPutsOff(cfg: Config, provider: Provider, raw: Bytes, n: nat, pass: PassInput)
    requires CrowdPass(cfg, provider, raw, n, pass)
    ensures PutOff(cfg, After(cfg, Crowd(provider, raw, n), pass), n)
  {
    hide Crowd, After, Ident, OnePutOff, NewestWaits, DrainRows, AllKnown, Selection;
    forall i: nat | i < n ensures OnePutOff(cfg, After(cfg, Crowd(provider, raw, n), pass), Ident(i)) {
      RowPutOff(cfg, provider, raw, n, pass, i);
    }
    NewestLeft(cfg, provider, raw, n, pass);
  }

  lemma NewestFirst(cfg: Config, after: IdleState, n: nat)
    requires PutOff(cfg, after.t, n) && after.clock == 0.0
    ensures Ident(n) in QueuedIds(after.t) && EarliestDue(after.t, 0.0)
    ensures cfg.policy.baseSeconds > 0.0 ==> TakenNext(after, Ident(n))
  {
    hide Ident;
    forall id | id in QueuedIds(after.t) ensures DueAt(after.t.deliveries[id]) >= 0.0 {
      var i: nat :| i <= n && Ident(i) == id;
    }
    assert DueAt(after.t.deliveries[Ident(n)]) == 0.0;
    if cfg.policy.baseSeconds > 0.0 {
      forall id | id in after.t.deliveries && Due(after.t.deliveries[id], 0.0) ensures id == Ident(n) {
        var i: nat :| i <= n && Ident(i) == id;
      }
      forall rows | Selection(after.t, 0.0, DEFAULT_LIMIT, rows)
        ensures SnapshotOf(Ident(n), after.t.deliveries[Ident(n)]) in rows
      {
        OnlyDueTaken(after.t, rows, Ident(n));
      }
    }
  }

  lemma OnlyDueTaken(t: Tables, rows: seq<Snapshot>, id: string)
    requires Selection(t, 0.0, DEFAULT_LIMIT, rows) && id in t.deliveries && Due(t.deliveries[id], 0.0)
    requires forall other <- t.deliveries :: Due(t.deliveries[other], 0.0) ==> other == id
    ensures SnapshotOf(id, t.deliveries[id]) in rows
  {
    hide Due, Earlier;
    if |rows| == DEFAULT_LIMIT {
      assert rows[0] in rows;
    }
  }

  /** A hundred parked deliveries whose payment never comes fill every pass; it reports nothing, and the call
      ends with a new delivery behind them untouched, due since before it began, though no time went by. */
  lemma CrowdedPassStops(cfg: Config, provider: Provider, raw: Bytes, e: Event)
    returns (s: IdleState, pass: PassInput, after: IdleState)
    requires cfg.decode(provider, raw) == Readable(e) && e.amount.None?
    ensures pass.took == 0.0 && PassFrom(cfg, s, pass, after) && Finished(cfg, s, pass)
    ensures LeftBeyond(s, pass, after)
    ensures
      var id := Ident(DEFAULT_LIMIT);
      && id in after.t.deliveries && after.t.deliveries[id] == NEWEST
      && (cfg.policy.baseSeconds > 0.0 ==> TakenNext(after, id))
  {
    s := IdleState(Crowd(provider, raw, DEFAULT_LIMIT), 0.0);
    pass := Quiet(0.0, CrowdRows(provider, raw, DEFAULT_LIMIT), 0.0);
    hide Crowd, CrowdRows, DrainRows, Selection, AllKnown, Ident, TakenNext, PutOff;
    CrowdPassed(cfg, provider, raw, e);
    after := IdleState(After(cfg, s.t, pass), 0.0);
    PassPutsOff(cfg, provider, raw, DEFAULT_LIMIT, pass);
    NewestFirst(cfg, after, DEFAULT_LIMIT);
    NewestOutside(provider, raw, DEFAULT_LIMIT);
    StopsAtOnce(cfg, s, pass, after);
  }

  lemma {:induction false} StopsAtOnce(cfg: Config, s: IdleState, pass: PassInput, after: IdleState)
    requires s.clock == 0.0 && after.clock == 0.0 && pass.now == 0.0 && pass.took == 0.0 && pass.limit == DEFAULT_LIMIT
    requires Selection(s.t, 0.0, pass.limit, pass.rows) && AllKnown(s.t, pass.rows) && after.t == After(cfg, s.t, pass)
    requires DrainRows(cfg, s.t, 0.0, pass.rows, pass.faults, pass.draws).report.Total() == 0
    requires QueuedIds(after.t) != {} && EarliestDue(after.t, 0.0)
    ensures PassFrom(cfg, s, pass, after) && Finished(cfg, s, pass)
  {
    hide DrainRows, Selection, AllKnown, QueuedIds, DueAt;
  }
}
