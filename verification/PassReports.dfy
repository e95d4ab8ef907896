/** What a pass reports is what it did: each row is counted once, by how it ended, and the stored counters
    move by the report. */
module PassReports {
  import opened Wrappers
  import opened Sums
  import opened Model
  import opened Dlq
  import opened Store
  import opened Inbox
  import opened Drain
  import opened Machine
  import opened Isolation
  import opened Confluence
  import opened Idle
  import opened IdleTheorems

  // ------------------------------------------------------------------- the counters

  /** The stored counters have moved by this report. */
  predicate Moved(before: map<Counter, int>, after: map<Counter, int>, report: Report) {
    && CountOf(after, AppliedCount) == CountOf(before, AppliedCount) + report.applied
    && CountOf(after, DedupedCount) == CountOf(before, DedupedCount) + report.duplicate
    && CountOf(after, ParkedCount) == CountOf(before, ParkedCount) + report.parked
    && CountOf(after, DeadLetteredCount) == CountOf(before, DeadLetteredCount) + report.deadLettered
  }

  lemma RowMoves(cfg: Config, t: Tables, now: Time, budgetUsed: int, row: Snapshot, fault: Option<Error>, delay: Time)
    requires row.id in t.deliveries
    ensures
      var r := DrainRow(cfg, t, now, budgetUsed, row, fault, delay);
      Moved(t.counters, r.tables.counters, r.report) && r.budgetUsed == budgetUsed + r.report.retried
  {
    RowShapeHolds(cfg, t, now, budgetUsed, row, fault, delay);
    hide DrainRow;
  }

  lemma MovedTwice(a: map<Counter, int>, b: map<Counter, int>, c: map<Counter, int>, first: Report, second: Report)
    requires Moved(a, b, first) && Moved(b, c, second)
    ensures Moved(a, c, first.Merge(second))
  {
  }

  /** A pass moves the counters by what it reports, and the budget by the retries it reports. */
  lemma {:induction false} PassMoves(
    cfg: Config, t: Tables, now: Time, rows: seq<Snapshot>, faults: Faults, draws: Draws)
    requires AllKnown(t, rows)
    ensures
      var r := DrainRows(cfg, t, now, rows, faults, draws);
      Moved(t.counters, r.tables.counters, r.report) && r.budgetUsed == BudgetUsedAt(t.counters, now) + r.report.retried
    decreases |rows|
  {
    hide DrainRow, DrainRows, AllKnown, Moved;
    if rows == [] {
      DrainRowsEmpty(cfg, t, now, faults, draws);
      NothingMoved(t.counters);
    } else {
      var n := |rows| - 1;
      RowsSplit(t, rows, n);
      PassMoves(cfg, t, now, rows[..n], faults, draws);
      var before, last := DrainRows(cfg, t, now, rows[..n], faults, draws), rows[n];
      DrainRowsSnoc(cfg, t, now, rows[..n], last, faults, draws);
      assert last.id in before.tables.deliveries.Keys;
      var delay := draws(last.id, last.attempts + 1);
      RowMoves(cfg, before.tables, now, before.budgetUsed, last, faults(last.id), delay);
      var r := DrainRow(cfg, before.tables, now, before.budgetUsed, last, faults(last.id), delay);
      MovedTwice(t.counters, before.tables.counters, r.tables.counters, before.report, r.report);
    }
  }

  lemma NothingMoved(counters: map<Counter, int>)
    ensures Moved(counters, counters, NOTHING)
  {
  }

  /** So does a whole call by its totals. */
  lemma {:induction false} CallMoves(cfg: Config, states: seq<IdleState>, passes: seq<PassInput>, maxPasses: int)
    requires Passes(cfg, states, passes, maxPasses)
    ensures Moved(states[0].t.counters, states[|passes|].t.counters, TotalOf(cfg, states, passes))
  {
    PassesShape(cfg, states, passes, maxPasses);
    CallMovesTo(cfg, states, passes, maxPasses, |passes|);
    assert passes[..|passes|] == passes;
  }

  lemma {:induction false} CallMovesTo(
    cfg: Config, states: seq<IdleState>, passes: seq<PassInput>, maxPasses: int, n: nat)
    requires Passes(cfg, states, passes, maxPasses) && n <= |passes|
    ensures |states| == |passes| + 1 && forall i :: 0 <= i < n ==> AllKnown(states[i].t, passes[i].rows)
    ensures Moved(states[0].t.counters, states[n].t.counters, TotalOf(cfg, states, passes[..n]))
    decreases n
  {
    hide PassFrom, Finished, DrainRows, Moved, AllKnown;
    if n == 0 {
      NothingMoved(states[0].t.counters);
    } else {
      CallMovesTo(cfg, states, passes, maxPasses, n - 1);
      PassOf(cfg, states, passes, maxPasses, n - 1);
      var pass := passes[n - 1];
      PassStarts(cfg, states[n - 1], pass, states[n]);
      PassMoves(cfg, states[n - 1].t, pass.now, pass.rows, pass.faults, pass.draws);
      assert passes[..n][..n - 1] == passes[..n - 1];
      var r := DrainRows(cfg, states[n - 1].t, pass.now, pass.rows, pass.faults, pass.draws);
      MovedTwice(states[0].t.counters, states[n - 1].t.counters, states[n].t.counters,
                 TotalOf(cfg, states, passes[..n - 1]), r.report);
    }
  }

  // ----------------------------------------------------------------------- the rows

  /** The row ends in this state. */
  function EndsIn(t: Tables, state: DeliveryState): Snapshot -> int {
    (row: Snapshot) => if row.id in t.deliveries && t.deliveries[row.id].state == state then 1 else 0
  }

  /** The row ends parked and was not parked before. */
  function NewlyParked(t: Tables): Snapshot -> int {
    (row: Snapshot) =>
      if row.state != Parked && row.id in t.deliveries && t.deliveries[row.id].state == Parked then 1 else 0
  }

  /** Every row is reported once, by how it ended; one parked again is not reported. */
  predicate Accounted(rows: seq<Snapshot>, t: Tables, report: Report) {
    && report.applied == Sum(rows, EndsIn(t, Applied)) && report.duplicate == Sum(rows, EndsIn(t, Duplicate))
    && report.deadLettered == Sum(rows, EndsIn(t, DeadLettered)) && report.retried == Sum(rows, EndsIn(t, Claimed))
    && report.parked == Sum(rows, NewlyParked(t))
  }

  lemma {:induction false} EndsSnoc(front: seq<Snapshot>, row: Snapshot, t: Tables, u: Tables, state: DeliveryState)
    requires row.id in u.deliveries && u.deliveries == t.deliveries[row.id := u.deliveries[row.id]]
    requires row.id !in IdsOf(front)
    ensures Sum(front + [row], EndsIn(u, state)) == Sum(front, EndsIn(t, state)) + EndsIn(u, state)(row)
  {
    SumSnoc(front, row, EndsIn(u, state));
    forall r | r in front ensures r.id != row.id {
      assert r.id in IdsOf(front);
    }
    SumSame(front, EndsIn(t, state), EndsIn(u, state));
  }

  lemma {:induction false} ParkedSnoc(front: seq<Snapshot>, row: Snapshot, t: Tables, u: Tables)
    requires row.id in u.deliveries && u.deliveries == t.deliveries[row.id := u.deliveries[row.id]]
    requires row.id !in IdsOf(front)
    ensures Sum(front + [row], NewlyParked(u)) == Sum(front, NewlyParked(t)) + NewlyParked(u)(row)
  {
    SumSnoc(front, row, NewlyParked(u));
    forall r | r in front ensures r.id != row.id {
      assert r.id in IdsOf(front);
    }
    SumSame(front, NewlyParked(t), NewlyParked(u));
  }

  /** What the report of one row has to say. */
  predicate Reported(row: Snapshot, t: Tables, report: Report) {
    && report.applied == EndsIn(t, Applied)(row) && report.duplicate == EndsIn(t, Duplicate)(row)
    && report.deadLettered == EndsIn(t, DeadLettered)(row) && report.retried == EndsIn(t, Claimed)(row)
    && report.parked == NewlyParked(t)(row)
  }

  lemma RowReported(
    cfg: Config, t: Tables, now: Time, budgetUsed: int, row: Snapshot, fault: Option<Error>, delay: Time)
    requires row.id in t.deliveries
    ensures
      var r := DrainRow(cfg, t, now, budgetUsed, row, fault, delay);
      && row.id in r.tables.deliveries && r.tables.deliveries == t.deliveries[row.id := r.tables.deliveries[row.id]]
      && Reported(row, r.tables, r.report)
  {
    RowShapeHolds(cfg, t, now, budgetUsed, row, fault, delay);
    hide DrainRow;
    match DrainRow(cfg, t, now, budgetUsed, row, fault, delay).tables.deliveries[row.id].state
    case Applied =>
    case Duplicate =>
    case Parked =>
    case Claimed =>
    case DeadLettered =>
  }

  lemma RowAccounted(front: seq<Snapshot>, row: Snapshot, t: Tables, u: Tables, before: Report, r: Report)
    requires Accounted(front, t, before) && row.id !in IdsOf(front) && row.id in u.deliveries
    requires u.deliveries == t.deliveries[row.id := u.deliveries[row.id]] && Reported(row, u, r)
    ensures Accounted(front + [row], u, before.Merge(r))
  {
    hide Sum, IdsOf, EndsIn, NewlyParked;
    EndsSnoc(front, row, t, u, Applied);
    EndsSnoc(front, row, t, u, Duplicate);
    EndsSnoc(front, row, t, u, DeadLettered);
    EndsSnoc(front, row, t, u, Claimed);
    ParkedSnoc(front, row, t, u);
  }

  /** A pass reports each of its rows once, by the state it left it in. */
  lemma {:induction false} PassAccounted(
    cfg: Config, t: Tables, now: Time, rows: seq<Snapshot>, faults: Faults, draws: Draws)
    requires AllKnown(t, rows) && DistinctIds(rows)
    ensures
      var r := DrainRows(cfg, t, now, rows, faults, draws);
      Accounted(rows, r.tables, r.report)
    decreases |rows|
  {
    if rows == [] {
      DrainRowsEmpty(cfg, t, now, faults, draws);
    } else {
      var n := |rows| - 1;
      LastIsNew(rows);
      RowsSplit(t, rows, n);
      hide DrainRow, DrainRows, AllKnown, Accounted, IdsOf, DistinctIds, Reported;
      PassAccounted(cfg, t, now, rows[..n], faults, draws);
      var before, last := DrainRows(cfg, t, now, rows[..n], faults, draws), rows[n];
      DrainRowsSnoc(cfg, t, now, rows[..n], last, faults, draws);
      assert last.id in before.tables.deliveries.Keys;
      var delay := draws(last.id, last.attempts + 1);
      RowReported(cfg, before.tables, now, before.budgetUsed, last, faults(last.id), delay);
      var r := DrainRow(cfg, before.tables, now, before.budgetUsed, last, faults(last.id), delay);
      RowAccounted(rows[..n], last, before.tables, r.tables, before.report, r.report);
    }
  }
}
