/** The drain method's pass is a run of the protocol, so whatever holds of every run holds of it. */
module PassRuns {
  import opened Wrappers
  import opened Model
  import opened Dlq
  import opened Store
  import opened Ledger
  import opened LedgerTheorems
  import opened Inbox
  import opened Drain
  import opened Machine
  import opened Safety

  function StepOf(row: Snapshot, faults: Faults, draws: Draws): Step {
    RowStep(faults(row.id), draws(row.id, row.attempts + 1))
  }

  function PassSteps(rows: seq<Snapshot>, faults: Faults, draws: Draws): seq<Step> {
    seq(|rows|, i requires 0 <= i < |rows| => StepOf(rows[i], faults, draws))
  }

  ghost predicate Reaches(w: World, clock: Time, r: RowResult, rest: seq<Snapshot>) {
    w.t == r.tables && w.clock == clock && w.pass == Some(Pass(clock, r.budgetUsed, rest))
  }

  lemma RowStepReaches(
    cfg: Config, w: World, clock: Time, before: RowResult, rows: seq<Snapshot>, fault: Option<Error>, delay: Time,
        after: RowResult)
    requires rows != [] && Reaches(w, clock, before, rows) && rows[0].id in w.t.deliveries
    requires Drawable(cfg.policy, rows[0].attempts + 1, delay)
    requires var r := DrainRow(cfg, before.tables, clock, before.budgetUsed, rows[0], fault, delay);
             after.tables == r.tables && after.budgetUsed == r.budgetUsed
    ensures Reaches(Next(cfg, w, RowStep(fault, delay)), clock, after, rows[1..])
  {
    hide DrainRow;
  }

  lemma StepsSnoc(begin: Step, rows: seq<Snapshot>, faults: Faults, draws: Draws, n: nat)
    requires 0 < n <= |rows|
    ensures [begin] + PassSteps(rows[..n], faults, draws) ==
            [begin] + PassSteps(rows[..n - 1], faults, draws) + [StepOf(rows[n - 1], faults, draws)]
    ensures rows[..n] == rows[..n - 1] + [rows[n - 1]] && rows[n - 1..] != []
    ensures rows[n - 1..][0] == rows[n - 1] && rows[n - 1..][1..] == rows[n..]
  {
  }

  /** World w has taken the first n rows of the pass that start began. */
  ghost predicate Taken(
    cfg: Config, start: World, limit: int, rows: seq<Snapshot>, faults: Faults, draws: Draws, n: nat)
    requires n <= |rows| && AllKnown(start.t, rows)
  {
    assert forall r <- rows[..n] :: r in rows;
    Reaches(Run(cfg, start, [BeginPass(limit, rows)] + PassSteps(rows[..n], faults, draws)), start.clock,
            DrainRows(cfg, start.t, start.clock, rows[..n], faults, draws), rows[n..])
  }

  lemma OneMoreTaken(
    cfg: Config, start: World, limit: int, rows: seq<Snapshot>, faults: Faults, draws: Draws, n: nat)
    requires 0 < n <= |rows| && AllKnown(start.t, rows)
    requires Jitter(cfg.policy, draws)
    requires Taken(cfg, start, limit, rows, faults, draws, n - 1)
    ensures Taken(cfg, start, limit, rows, faults, draws, n)
  {
    hide DrainRow, DrainRows, Run, Next, Drawable, PassSteps;
    var row := rows[n - 1];
    StepsSnoc(BeginPass(limit, rows), rows, faults, draws, n);
    DrainRowsSnoc(cfg, start.t, start.clock, rows[..n - 1], row, faults, draws);
    var front := [BeginPass(limit, rows)] + PassSteps(rows[..n - 1], faults, draws);
    RunSnoc(cfg, start, front, StepOf(row, faults, draws));
    RowStepReaches(cfg, Run(cfg, start, front), start.clock,
        DrainRows(cfg, start.t, start.clock, rows[..n - 1], faults, draws),
                   rows[n - 1..], faults(row.id), draws(row.id, row.attempts + 1),
                   DrainRows(cfg, start.t, start.clock, rows[..n], faults, draws));
  }

  lemma NoneTaken(cfg: Config, start: World, limit: int, rows: seq<Snapshot>, faults: Faults, draws: Draws)
    requires start.pass.None? && Selection(start.t, start.clock, limit, rows) && AllKnown(start.t, rows)
    ensures Taken(cfg, start, limit, rows, faults, draws, 0)
  {
    hide Selection;
    var begin := BeginPass(limit, rows);
    assert rows[..0] == [] && rows[0..] == rows;
    assert [begin] + PassSteps([], faults, draws) == [] + [begin];
    RunSnoc(cfg, start, [], begin);
    assert Run(cfg, start, []) == start;
  }

  /** The first n transactions of a pass are n steps of the protocol. */
  lemma {:induction false} PassIsRun(
    cfg: Config, start: World, limit: int, rows: seq<Snapshot>, faults: Faults, draws: Draws, n: nat)
    requires start.pass.None? && Selection(start.t, start.clock, limit, rows) && n <= |rows|
    requires Jitter(cfg.policy, draws)
    ensures AllKnown(start.t, rows) && Taken(cfg, start, limit, rows, faults, draws, n)
    decreases n
  {
    SelectionKnown(start.t, start.clock, limit, rows);
    hide Selection, Taken;
    if n == 0 {
      NoneTaken(cfg, start, limit, rows, faults, draws);
    } else {
      assert rows[n - 1] in rows;
      PassIsRun(cfg, start, limit, rows, faults, draws, n - 1);
      OneMoreTaken(cfg, start, limit, rows, faults, draws, n);
    }
  }

  /** So a drain may be called in any reachable world, and leaves its tables sound, whatever faults it
      met. */
  lemma {:induction false} DrainKeepsSafe(
    cfg: Config, clock: Time, steps: seq<Step>, limit: int, rows: seq<Snapshot>, faults: Faults, draws: Draws)
    requires var w := Run(cfg, Start(clock), steps);
             w.pass.None? && Selection(w.t, w.clock, limit, rows)
    requires Jitter(cfg.policy, draws)
    ensures AllKnown(Run(cfg, Start(clock), steps).t, rows)
    ensures RowsKeyed(Run(cfg, Start(clock), steps).t.books)
    ensures
      var w := Run(cfg, Start(clock), steps);
      var u := DrainRows(cfg, w.t, w.clock, rows, faults, draws).tables;
      BooksSound(u.books) && Matched(u) && Counted(u)
  {
    hide Selection, DrainRows, BooksSound, Matched, Counted, Run;
    var w := Run(cfg, Start(clock), steps);
    PassIsRun(cfg, w, limit, rows, faults, draws, |rows|);
    assert rows[..|rows|] == rows;
    var more := [BeginPass(limit, rows)] + PassSteps(rows, faults, draws);
    RunAppend(cfg, Start(clock), steps, more);
    EveryRunSafe(cfg, clock, steps);
    SoundBooksKeyed(w.t.books);
    EveryRunSafe(cfg, clock, steps + more);
  }
}
