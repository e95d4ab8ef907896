/** When draining until idle really ends idle. */
module IdleTheorems {
  import opened Wrappers
  import opened Ordering
  import opened Model
  import opened Store
  import opened Ledger
  import opened Inbox
  import opened Drain
  import opened Machine
  import opened Isolation
  import opened Confluence
  import opened Idle

  // ------------------------------------------------------------- what a pass leaves

  /** Rows outside the pass are untouched; a row it parks waits one base delay from now; a pass that
      reports nothing only parked; and a row it can read, without a fault, is not put off to be retried. */
  ghost predicate PassLeaves(cfg: Config, t: Tables, now: Time, rows: seq<Snapshot>, faults: Faults, r: RowResult) {
    && r.tables.deliveries.Keys == t.deliveries.Keys
    && (forall id <- t.deliveries :: id in r.tables.deliveries && (id !in IdsOf(rows) ==> r.tables.deliveries[id] == t.deliveries[id]))
    && (forall row <- rows :: row.id in t.deliveries && row.id in r.tables.deliveries
          && ParkedRow(cfg, now, t.deliveries[row.id], r.tables.deliveries[row.id], r.report)
          && (Calm(cfg, faults, row) ==> r.tables.deliveries[row.id].state != Claimed))
  }

  /** The handler of this row reads it and meets no fault. */
  predicate Calm(cfg: Config, faults: Faults, row: Snapshot) {
    faults(row.id) == None && cfg.decode(row.provider, row.raw).Readable?
  }

  lemma CalmNotRetried(cfg: Config, t: Tables, now: Time, budgetUsed: int, row: Snapshot, faults: Faults, delay: Time)
    requires row.id in t.deliveries && Calm(cfg, faults, row)
    ensures
      var u := DrainRow(cfg, t, now, budgetUsed, row, faults(row.id), delay).tables;
      row.id in u.deliveries && u.deliveries[row.id].state != Claimed
  {
    hide Post;
  }

  predicate ParkedRow(cfg: Config, now: Time, d: Delivery, after: Delivery, report: Report) {
    && (after.state == Parked ==> after.parkedUntil == Some(now + cfg.policy.baseSeconds) && after.nextAttemptAt == d.nextAttemptAt)
    && (report.Total() == 0 ==> after.state == Parked)
  }

  lemma {:induction false} PassRows(cfg: Config, t: Tables, now: Time, rows: seq<Snapshot>, faults: Faults,
      draws: Draws)
    requires AllKnown(t, rows) && DistinctIds(rows)
    ensures PassLeaves(cfg, t, now, rows, faults, DrainRows(cfg, t, now, rows, faults, draws))
    decreases |rows|
  {
    if rows == [] {
      DrainRowsEmpty(cfg, t, now, faults, draws);
    } else {
      var n := |rows| - 1;
      LastIsNew(rows);
      RowsSplit(t, rows, n);
      hide *;
      PassRows(cfg, t, now, rows[..n], faults, draws);
      OneMoreRow(cfg, t, now, rows[..n], rows[n], faults, draws);
    }
  }

  lemma {:induction false} OneMoreRow(cfg: Config, t: Tables, now: Time, front: seq<Snapshot>, last: Snapshot,
      faults: Faults, draws: Draws)
    requires AllKnown(t, front) && last.id in t.deliveries && last.id !in IdsOf(front)
    requires PassLeaves(cfg, t, now, front, faults, DrainRows(cfg, t, now, front, faults, draws))
    ensures AllKnown(t, front + [last])
    ensures PassLeaves(cfg, t, now, front + [last], faults, DrainRows(cfg, t, now, front + [last], faults, draws))
  {
    hide DrainRow, DrainRows, AllKnown, PassLeaves, IdsOf, RowShape;
    var before, delay := DrainRows(cfg, t, now, front, faults, draws), draws(last.id, last.attempts + 1);
    DrainRowsSnoc(cfg, t, now, front, last, faults, draws);
    assert last.id in before.tables.deliveries.Keys;
    RowShapeHolds(cfg, before.tables, now, before.budgetUsed, last, faults(last.id), delay);
    if Calm(cfg, faults, last) {
      CalmNotRetried(cfg, before.tables, now, before.budgetUsed, last, faults, delay);
    }
    RowLeaves(cfg, t, now, front, last, faults, before,
              DrainRow(cfg, before.tables, now, before.budgetUsed, last, faults(last.id), delay), delay);
  }

  lemma RowLeaves(
    cfg: Config, t: Tables, now: Time, front: seq<Snapshot>, last: Snapshot, faults: Faults, before: RowResult,
    r: RowResult, delay: Time)
    requires PassLeaves(cfg, t, now, front, faults, before) && last.id in t.deliveries && last.id !in IdsOf(front)
    requires last.id in before.tables.deliveries && RowShape(cfg, before.tables, now, before.budgetUsed, last, delay, r)
    requires Calm(cfg, faults, last) ==> r.tables.deliveries[last.id].state != Claimed
    ensures PassLeaves(cfg, t, now, front + [last], faults, RowResult(r.tables, r.budgetUsed, before.report.Merge(r.report)))
  {
    var after := RowResult(r.tables, r.budgetUsed, before.report.Merge(r.report));
    assert IdsOf(front + [last]) == IdsOf(front) + {last.id};
    assert ParkedRow(cfg, now, t.deliveries[last.id], r.tables.deliveries[last.id], after.report);
    forall row | row in front
      ensures row.id in t.deliveries && row.id in r.tables.deliveries
              && ParkedRow(cfg, now, t.deliveries[row.id], r.tables.deliveries[row.id], after.report)
              && (Calm(cfg, faults, row) ==> r.tables.deliveries[row.id].state != Claimed)
    {
      assert row.id in IdsOf(front);
      assert r.tables.deliveries[row.id] == before.tables.deliveries[row.id];
    }
  }

  // ------------------------------------------------------------ within the limit

  lemma {:induction false} IdsCount(rows: seq<Snapshot>)
    requires DistinctIds(rows)
    ensures |IdsOf(rows)| == |rows|
    decreases |rows|
  {
    if rows != [] {
      var front, last := rows[..|rows| - 1], rows[|rows| - 1];
      LastIsNew(rows);
      IdsCount(front);
      assert rows == front + [last];
      assert IdsOf(rows) == IdsOf(front) + {last.id};
    } else {
      assert IdsOf(rows) == {};
    }
  }

  lemma SelectionDistinct(t: Tables, now: Time, limit: int, rows: seq<Snapshot>)
    requires Selection(t, now, limit, rows)
    ensures DistinctIds(rows) && IdsOf(rows) <= QueuedIds(t)
  {
    SelectedOnce(t, now, limit, rows);
  }

  /** With no more queued rows than the limit, a pass takes every due one. */
  lemma SelectionComplete(t: Tables, now: Time, limit: int, rows: seq<Snapshot>, id: string)
    requires Selection(t, now, limit, rows) && |QueuedIds(t)| <= limit
    requires id in t.deliveries && Due(t.deliveries[id], now)
    ensures SnapshotOf(id, t.deliveries[id]) in rows && id in IdsOf(rows)
  {
    SelectionDistinct(t, now, limit, rows);
    IdsCount(rows);
    if SnapshotOf(id, t.deliveries[id]) !in rows {
      assert id !in IdsOf(rows) by {
        assert forall r <- rows :: r == SnapshotOf(r.id, t.deliveries[r.id]);
      }
      SubsetSize(IdsOf(rows), QueuedIds(t) - {id});
      assert false;
    }
  }

  lemma SelectionWithin(t: Tables, now: Time, limit: int, a: seq<Snapshot>, b: seq<Snapshot>, r: Snapshot)
    requires Selection(t, now, limit, a) && Selection(t, now, limit, b) && r in a
    ensures r in b
  {
    if r !in b {
      assert limit >= 0 && |b| == limit && forall q <- b :: Earlier(QueueKey(t, q.id), QueueKey(t, r.id)) by {
        assert SnapshotOf(r.id, t.deliveries[r.id]) == r;
      }
      forall q | q in b ensures q in a {
        BeforeIsSelected(t, now, limit, a, q, r);
      }
      SelectionDistinct(t, now, limit, a);
      SelectionDistinct(t, now, limit, b);
      IdsCount(a);
      IdsCount(b);
      IdsApart(t, now, limit, b, r);
      assert r.id in IdsOf(a);
      SubsetSize(IdsOf(b) + {r.id}, IdsOf(a));
      assert false;
    }
  }

  lemma IdsApart(t: Tables, now: Time, limit: int, b: seq<Snapshot>, r: Snapshot)
    requires Selection(t, now, limit, b) && r.id in t.deliveries && r == SnapshotOf(r.id, t.deliveries[r.id]) && r !in b
    ensures r.id !in IdsOf(b)
  {
    assert forall q <- b :: q == SnapshotOf(q.id, t.deliveries[q.id]);
  }

  lemma BeforeIsSelected(t: Tables, now: Time, limit: int, a: seq<Snapshot>, q: Snapshot, r: Snapshot)
    requires Selection(t, now, limit, a) && r in a && q.id in t.deliveries && Due(t.deliveries[q.id], now)
    requires q == SnapshotOf(q.id, t.deliveries[q.id]) && Earlier(QueueKey(t, q.id), QueueKey(t, r.id))
    ensures q in a
  {
    LessTotal(q.id, r.id);
  }

  lemma {:induction false} SameListing(t: Tables, a: seq<Snapshot>, b: seq<Snapshot>)
    requires forall r <- a + b :: r.id in t.deliveries
    requires forall i, j :: 0 <= i < j < |a| ==> Earlier(QueueKey(t, a[i].id), QueueKey(t, a[j].id))
    requires forall i, j :: 0 <= i < j < |b| ==> Earlier(QueueKey(t, b[i].id), QueueKey(t, b[j].id))
    requires forall r :: r in a <==> r in b
    ensures a == b
  {
    if a == [] {
      assert forall k :: 0 <= k < |b| ==> b[k] in b;
    } else {
      assert a[0] in a && a[0] in b && b[0] in b && b[0] in a;
      var j :| 0 <= j < |a| && a[j] == b[0];
      var k :| 0 <= k < |b| && b[k] == a[0];
      LessTotal(a[0].id, b[0].id);
      assert a[0] == b[0];
      forall r ensures r in a[1..] <==> r in b[1..] {
        RestListed(t, a, r);
        RestListed(t, b, r);
      }
      SameListing(t, a[1..], b[1..]);
    }
  }

  lemma RestListed(t: Tables, a: seq<Snapshot>, r: Snapshot)
    requires a != [] && forall q <- a :: q.id in t.deliveries
    requires forall i, j :: 0 <= i < j < |a| ==> Earlier(QueueKey(t, a[i].id), QueueKey(t, a[j].id))
    ensures r in a[1..] <==> r in a && r != a[0]
  {
    LessTotal(a[0].id, a[0].id);
    if r in a[1..] {
      var k :| 0 <= k < |a| - 1 && a[1..][k] == r;
      assert a[k + 1] == r;
    }
  }

  /** A pass has no choice: the rows it selects are determined by the queue, the time and the limit. */
  lemma SelectionUnique(t: Tables, now: Time, limit: int, a: seq<Snapshot>, b: seq<Snapshot>)
    requires Selection(t, now, limit, a) && Selection(t, now, limit, b)
    ensures a == b
  {
    forall r ensures r in a <==> r in b {
      if r in a {
        SelectionWithin(t, now, limit, a, b, r);
      }
      if r in b {
        SelectionWithin(t, now, limit, b, a, r);
      }
    }
    SameListing(t, a, b);
  }

  lemma {:induction false} SubsetSize<T>(a: set<T>, b: set<T>)
    requires a <= b
    ensures |a| <= |b|
  {
    assert b == a + (b - a);
  }

  /** A pass never adds to the queue. */
  lemma QueueShrinks(cfg: Config, s: IdleState, pass: PassInput, after: IdleState)
    requires PassFrom(cfg, s, pass, after)
    ensures QueuedIds(after.t) <= QueuedIds(s.t) && |QueuedIds(after.t)| <= |QueuedIds(s.t)|
  {
    hide DrainRows;
    SelectionDistinct(s.t, pass.now, pass.limit, pass.rows);
    PassRows(cfg, s.t, pass.now, pass.rows, pass.faults, pass.draws);
    forall id | id in QueuedIds(after.t) ensures id in QueuedIds(s.t) {
      assert id in after.t.deliveries.Keys && id in s.t.deliveries;
    }
    SubsetSize(QueuedIds(after.t), QueuedIds(s.t));
  }

  /** Some row left in the queue came due while the pass was running. */
  ghost predicate CameDue(s: IdleState, pass: PassInput, after: IdleState) {
    exists id <- QueuedIds(after.t) :: s.clock < DueAt(after.t.deliveries[id]) <= s.clock + pass.took
  }

  /** Some row left in the queue was already due when the pass began, and the pass did not select it. */
  ghost predicate LeftBeyond(s: IdleState, pass: PassInput, after: IdleState) {
    exists id <- QueuedIds(after.t) :: id !in IdsOf(pass.rows) && DueAt(after.t.deliveries[id]) <= s.clock
  }

  /** The rows of a pass that reports nothing are parked for one base delay from its start. */
  lemma {:induction false} Reparked(cfg: Config, s: IdleState, pass: PassInput, row: Snapshot)
    requires pass.now == s.clock && Selection(s.t, pass.now, pass.limit, pass.rows) && AllKnown(s.t, pass.rows)
    requires DrainRows(cfg, s.t, pass.now, pass.rows, pass.faults, pass.draws).report.Total() == 0
    requires row in pass.rows
    ensures row.id in QueuedIds(After(cfg, s.t, pass)) && row.id in s.t.deliveries
    ensures
      var d := After(cfg, s.t, pass).deliveries[row.id];
      && d.parkedUntil == Some(s.clock + cfg.policy.baseSeconds)
      && d.nextAttemptAt == s.t.deliveries[row.id].nextAttemptAt
      && (d.nextAttemptAt.Some? ==> d.nextAttemptAt.value <= s.clock)
  {
    hide DrainRows;
    SelectionDistinct(s.t, pass.now, pass.limit, pass.rows);
    PassRows(cfg, s.t, pass.now, pass.rows, pass.faults, pass.draws);
    var r := DrainRows(cfg, s.t, pass.now, pass.rows, pass.faults, pass.draws);
    assert ParkedRow(cfg, pass.now, s.t.deliveries[row.id], r.tables.deliveries[row.id], r.report);
  }

  /** So, with a positive base delay, a row that was due when such a pass began and still is lies outside
      its selection. */
  lemma {:induction false} DueWasLeft(cfg: Config, s: IdleState, pass: PassInput, id: string)
    requires cfg.policy.baseSeconds > 0.0 && pass.now == s.clock
    requires Selection(s.t, pass.now, pass.limit, pass.rows) && AllKnown(s.t, pass.rows)
    requires DrainRows(cfg, s.t, pass.now, pass.rows, pass.faults, pass.draws).report.Total() == 0
    requires id in QueuedIds(After(cfg, s.t, pass)) && DueAt(After(cfg, s.t, pass).deliveries[id]) <= s.clock
    ensures id !in IdsOf(pass.rows)
  {
    if id in IdsOf(pass.rows) {
      var row :| row in pass.rows && row.id == id;
      hide DrainRows, Selection, QueuedIds, AllKnown;
      Reparked(cfg, s, pass, row);
      assert false;
    }
  }

  /** Only a queue longer than the limit has such rows. */
  lemma BeyondTheLimit(cfg: Config, s: IdleState, pass: PassInput, after: IdleState)
    requires PassFrom(cfg, s, pass, after) && LeftBeyond(s, pass, after)
    ensures |QueuedIds(s.t)| > 100
  {
    var id :| id in QueuedIds(after.t) && id !in IdsOf(pass.rows) && DueAt(after.t.deliveries[id]) <= s.clock;
    PassStarts(cfg, s, pass, after);
    SelectionDistinct(s.t, pass.now, pass.limit, pass.rows);
    hide DrainRows, PassFrom, Selection, LeftBeyond;
    PassRows(cfg, s.t, pass.now, pass.rows, pass.faults, pass.draws);
    assert id in after.t.deliveries.Keys && id in s.t.deliveries;
    if |QueuedIds(s.t)| <= DEFAULT_LIMIT {
      SelectionComplete(s.t, pass.now, pass.limit, pass.rows, id);
      assert false;
    }
  }

  /** A pass that stops the loop has emptied the queue, unless some row came due while it was running or
      was due before and lay beyond the limit, or the base delay is not positive. */
  lemma NeverStopsEarly(cfg: Config, s: IdleState, pass: PassInput, after: IdleState)
    requires PassFrom(cfg, s, pass, after) && Finished(cfg, s, pass)
    ensures
      || QueuedIds(after.t) == {} || CameDue(s, pass, after) || LeftBeyond(s, pass, after)
      || cfg.policy.baseSeconds <= 0.0
    ensures cfg.policy.baseSeconds > 0.0 && |QueuedIds(s.t)| <= DEFAULT_LIMIT && pass.took == 0.0 ==>
              QueuedIds(after.t) == {}
  {
    hide PassFrom, Finished, DrainRows, DueAt, After, Selection, AllKnown, IdsOf;
    PassStarts(cfg, s, pass, after);
    StoppedOver(cfg, s, pass, after);
    if QueuedIds(after.t) != {} && cfg.policy.baseSeconds > 0.0 {
      var id :| id in QueuedIds(after.t) && DueAt(after.t.deliveries[id]) <= s.clock + pass.took;
      if DueAt(after.t.deliveries[id]) <= s.clock {
        DueWasLeft(cfg, s, pass, id);
        BeyondTheLimit(cfg, s, pass, after);
      }
    }
  }

  lemma PassStarts(cfg: Config, s: IdleState, pass: PassInput, after: IdleState)
    requires PassFrom(cfg, s, pass, after)
    ensures pass.now == s.clock && pass.limit == DEFAULT_LIMIT && pass.took >= 0.0
    ensures AllKnown(s.t, pass.rows) && Selection(s.t, pass.now, pass.limit, pass.rows)
          && after.t == After(cfg, s.t, pass)
  {
    hide DrainRows, Overdue, QueuedIds, Selection, AllKnown;
  }

  /** If the loop stops while work is queued, the pass reported nothing and some of the work is due. */
  lemma {:induction false} StoppedOver(cfg: Config, s: IdleState, pass: PassInput, after: IdleState)
    requires PassFrom(cfg, s, pass, after) && Finished(cfg, s, pass)
    ensures QueuedIds(after.t) != {} ==>
              && Overdue(after.t, s.clock + pass.took) && AllKnown(s.t, pass.rows)
              && DrainRows(cfg, s.t, pass.now, pass.rows, pass.faults, pass.draws).report.Total() == 0
  {
    hide DrainRows, Overdue, QueuedIds, Selection, AllKnown;
  }

  /** Under a base delay that is not positive, a pass that took rows and reports nothing leaves them due. */
  lemma {:induction false} ReparkedStaysDue(cfg: Config, s: IdleState, pass: PassInput, after: IdleState)
    requires cfg.policy.baseSeconds <= 0.0 && s.clock >= 0.0 && PassFrom(cfg, s, pass, after) && pass.rows != []
    requires AllKnown(s.t, pass.rows)
    requires DrainRows(cfg, s.t, pass.now, pass.rows, pass.faults, pass.draws).report.Total() == 0
    ensures Overdue(after.t, s.clock + pass.took)
  {
    PassStarts(cfg, s, pass, after);
    var row := pass.rows[0];
    assert row in pass.rows;
    hide DrainRows, PassFrom, Selection, AllKnown, QueuedIds, After;
    Reparked(cfg, s, pass, row);
    assert DueAt(after.t.deliveries[row.id]) <= s.clock + pass.took;
  }

  /** Exactly when a turn ends the loop: the queue is empty, or the pass reported nothing and a row came
      due while it was running, or one due before lay beyond the limit, or it only put off rows for a
      base delay that is not positive. */
  lemma {:induction false} StopsExactly(cfg: Config, s: IdleState, pass: PassInput, after: IdleState)
    requires s.clock >= 0.0 && PassFrom(cfg, s, pass, after)
    ensures AllKnown(s.t, pass.rows)
    ensures Finished(cfg, s, pass) <==>
            || QueuedIds(after.t) == {}
            || (DrainRows(cfg, s.t, pass.now, pass.rows, pass.faults, pass.draws).report.Total() == 0
                && (|| CameDue(s, pass, after) || LeftBeyond(s, pass, after)
                    || (cfg.policy.baseSeconds <= 0.0 && pass.rows != [])))
  {
    hide PassFrom, DrainRows, DueAt, Selection, AllKnown, IdsOf;
    PassStarts(cfg, s, pass, after);
    if Finished(cfg, s, pass) {
      StoppedOver(cfg, s, pass, after);
      NeverStopsEarly(cfg, s, pass, after);
      if pass.rows == [] && QueuedIds(after.t) != {} {
        var id :| id in QueuedIds(after.t) && DueAt(after.t.deliveries[id]) <= s.clock + pass.took;
        assert id !in IdsOf(pass.rows) by {
          NoIds();
        }
      }
    } else if AllKnown(s.t, pass.rows) && cfg.policy.baseSeconds <= 0.0 && pass.rows != []
        && DrainRows(cfg, s.t, pass.now, pass.rows, pass.faults, pass.draws).report.Total() == 0 {
      ReparkedStaysDue(cfg, s, pass, after);
    }
  }

  lemma NoIds()
    ensures IdsOf([]) == {}
  {
  }

  lemma PassesShape(cfg: Config, states: seq<IdleState>, passes: seq<PassInput>, maxPasses: int)
    requires Passes(cfg, states, passes, maxPasses)
    ensures |states| == |passes| + 1
  {
    hide PassFrom, Finished;
  }

  lemma PassOf(cfg: Config, states: seq<IdleState>, passes: seq<PassInput>, maxPasses: int, i: nat)
    requires Passes(cfg, states, passes, maxPasses) && i < |passes|
    ensures |states| == |passes| + 1 && PassFrom(cfg, states[i], passes[i], states[i + 1])
  {
    hide PassFrom, Finished;
  }

  lemma QueueStep(cfg: Config, states: seq<IdleState>, passes: seq<PassInput>, maxPasses: int, i: nat)
    requires Passes(cfg, states, passes, maxPasses) && i < |passes|
    ensures i + 1 < |states| && |QueuedIds(states[i + 1].t)| <= |QueuedIds(states[i].t)|
  {
    PassOf(cfg, states, passes, maxPasses, i);
    hide PassFrom, Passes, QueuedIds;
    QueueShrinks(cfg, states[i], passes[i], states[i + 1]);
  }

  lemma {:induction false} QueueStaysSmall(cfg: Config, states: seq<IdleState>, passes: seq<PassInput>, maxPasses: int,
      i: nat)
    requires Passes(cfg, states, passes, maxPasses) && i < |states|
    ensures |QueuedIds(states[i].t)| <= |QueuedIds(states[0].t)|
    decreases i
  {
    hide *;
    PassesShape(cfg, states, passes, maxPasses);
    if i > 0 {
      QueueStaysSmall(cfg, states, passes, maxPasses, i - 1);
      QueueStep(cfg, states, passes, maxPasses, i - 1);
    }
  }

  /** So a whole call ends with an empty queue, or has used every pass it was allowed, or is excused by
      what StopsExactly lists, for its last pass. */
  lemma IdleOrSpent(cfg: Config, states: seq<IdleState>, passes: seq<PassInput>, maxPasses: int)
    requires Passes(cfg, states, passes, maxPasses)
    requires |passes| < maxPasses ==> passes != [] && Finished(cfg, states[|passes| - 1], passes[|passes| - 1])
    ensures
      var n := |passes|;
      || QueuedIds(states[n].t) == {} || n == (if maxPasses > 0 then maxPasses else 0)
      || CameDue(states[n - 1], passes[n - 1], states[n]) || LeftBeyond(states[n - 1], passes[n - 1], states[n])
      || cfg.policy.baseSeconds <= 0.0
    ensures
      && cfg.policy.baseSeconds > 0.0 && |QueuedIds(states[0].t)| <= DEFAULT_LIMIT
      && (forall p <- passes :: p.took == 0.0) ==>
        QueuedIds(states[|passes|].t) == {} || |passes| == (if maxPasses > 0 then maxPasses else 0)
  {
    if |passes| < maxPasses {
      var n := |passes| - 1;
      QueueStaysSmall(cfg, states, passes, maxPasses, n);
      PassOf(cfg, states, passes, maxPasses, n);
      assert passes[n] in passes;
      hide PassFrom, Finished, CameDue, LeftBeyond, QueuedIds;
      NeverStopsEarly(cfg, states[n], passes[n], states[n + 1]);
    }
  }
}
