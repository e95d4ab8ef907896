/** Drain until nothing is due: passes with the clock slept forward between them. */
module Idle {
  import opened Wrappers
  import opened Model
  import opened Store
  import opened Inbox
  import opened Drain
  import opened Confluence

  class Clock {
    var t: Time

    constructor (start: Time)
      ensures t == start
    {
      t := start;
    }

    /** Time goes by while something else runs. */
    method Elapse(seconds: Time)
      modifies this
      ensures t == old(t) + seconds
    {
      t := t + seconds;
    }

    method Sleep(seconds: Time)
      modifies this
      ensures t == old(t) + seconds
    {
      t := t + seconds;
    }
  }

  const DEFAULT_LIMIT := 100

  /** When a queued row asks to be looked at again. */
  function DueAt(d: Delivery): Time {
    MaxReal(d.nextAttemptAt.GetOr(0.0), d.parkedUntil.GetOr(0.0))
  }

  function QueuedIds(t: Tables): set<string> {
    set id | id in t.deliveries && Queued(t.deliveries[id].state)
  }

  ghost predicate EarliestDue(t: Tables, due: Time) {
    && (exists id <- QueuedIds(t) :: DueAt(t.deliveries[id]) == due)
    && (forall id <- QueuedIds(t) :: due <= DueAt(t.deliveries[id]))
  }

  datatype IdleState = IdleState(t: Tables, clock: Time)

  /** One pass from s, which takes its time, and the clock the turn leaves behind. */
  ghost predicate PassFrom(cfg: Config, s: IdleState, pass: PassInput, after: IdleState) {
    && pass.now == s.clock && pass.limit == DEFAULT_LIMIT && pass.took >= 0.0
    && Selection(s.t, pass.now, pass.limit, pass.rows) && AllKnown(s.t, pass.rows)
    && after.t == After(cfg, s.t, pass)
    && (QueuedIds(after.t) == {} ==> after.clock == s.clock + pass.took)
    && (QueuedIds(after.t) != {} ==>
          exists due: Time :: EarliestDue(after.t, due) && after.clock == MaxReal(s.clock + pass.took, due))
  }

  /** Some queued row is due by now. */
  ghost predicate Overdue(t: Tables, now: Time) {
    exists id <- QueuedIds(t) :: DueAt(t.deliveries[id]) <= now
  }

  /** The two early exits: an empty queue, or work due now that the pass did not change. */
  ghost predicate Finished(cfg: Config, s: IdleState, pass: PassInput) {
    && AllKnown(s.t, pass.rows)
    && var r := DrainRows(cfg, s.t, pass.now, pass.rows, pass.faults, pass.draws);
       || QueuedIds(r.tables) == {}
       || (r.report.Total() == 0 && Overdue(r.tables, s.clock + pass.took))
  }

  /** The passes of one call: each from where the last left off, none after an early exit, and no
      more than allowed. */
  ghost predicate Passes(cfg: Config, states: seq<IdleState>, passes: seq<PassInput>, maxPasses: int) {
    && |states| == |passes| + 1
    && (forall i :: 0 <= i < |passes| ==> AllKnown(states[i].t, passes[i].rows))
    && (forall i :: 0 <= i < |passes| ==> PassFrom(cfg, states[i], passes[i], states[i + 1]))
    && (forall i :: 0 <= i < |passes| - 1 ==> !Finished(cfg, states[i], passes[i]))
    && |passes| <= (if maxPasses > 0 then maxPasses else 0)
  }

  method FindEarliestDue(t: Tables) returns (due: Time)
    requires QueuedIds(t) != {}
    ensures EarliestDue(t, due)
  {
    var todo := QueuedIds(t);
    var first :| first in todo;
    due := DueAt(t.deliveries[first]);
    while todo != {}
      invariant todo <= QueuedIds(t)
      invariant exists id <- QueuedIds(t) :: DueAt(t.deliveries[id]) == due
      invariant forall id <- QueuedIds(t) - todo :: due <= DueAt(t.deliveries[id])
      decreases |todo|
    {
      var id :| id in todo;
      if DueAt(t.deliveries[id]) < due {
        due := DueAt(t.deliveries[id]);
      }
      todo := todo - {id};
    }
  }

  /** One turn of the loop: drain, which takes a while, then sleep to the next due row, or say that it is
      time to stop. */
  method Turn(cfg: Config, conn: Connection, clock: Clock, faults: Faults, draws: Draws, took: Time)
    returns (report: Report, stop: bool, ghost pass: PassInput)
    requires conn.begun == None && conn.marked == None && RowsKeyed(conn.tables.books) && took >= 0.0
    modifies conn, clock
    ensures conn.begun == None && conn.marked == None && RowsKeyed(conn.tables.books)
    ensures pass.faults == faults && pass.draws == draws && pass.took == took
    ensures PassFrom(cfg, IdleState(old(conn.tables), old(clock.t)), pass, IdleState(conn.tables, clock.t))
    ensures stop <==> Finished(cfg, IdleState(old(conn.tables), old(clock.t)), pass)
    ensures AllKnown(old(conn.tables), pass.rows)
            && report == DrainRows(cfg, old(conn.tables), pass.now, pass.rows, faults, draws).report
  {
    hide DrainRows, Selection;
    ghost var rows;
    report, rows := DrainPass(cfg, conn, clock.t, DEFAULT_LIMIT, faults, draws);
    pass := PassInput(clock.t, DEFAULT_LIMIT, rows, faults, draws, took);
    clock.Elapse(took);
    stop := QueuedIds(conn.tables) == {};
    if !stop {
      var due := FindEarliestDue(conn.tables);
      var wait := due - clock.t;
      if wait > 0.0 {
        clock.Sleep(wait);
      } else {
        stop := report.Total() == 0;
      }
    }
  }

  /** The totals of a call are those of its passes. */
  ghost function TotalOf(cfg: Config, states: seq<IdleState>, passes: seq<PassInput>): Report
    requires |states| > |passes| && forall i :: 0 <= i < |passes| ==> AllKnown(states[i].t, passes[i].rows)
  {
    if passes == [] then NOTHING
    else
      var n := |passes| - 1;
      TotalOf(cfg, states, passes[..n]).Merge(
        DrainRows(cfg, states[n].t, passes[n].now, passes[n].rows, passes[n].faults, passes[n].draws).report)
  }

  lemma {:induction false} TotalSnoc(cfg: Config, states: seq<IdleState>, passes: seq<PassInput>, after: IdleState,
      pass: PassInput)
    requires |states| == |passes| + 1 && forall i :: 0 <= i < |passes| ==> AllKnown(states[i].t, passes[i].rows)
    requires AllKnown(states[|passes|].t, pass.rows)
    ensures
      var n := |passes|;
      var more, longer := states + [after], passes + [pass];
      && (forall i :: 0 <= i < |longer| ==> AllKnown(more[i].t, longer[i].rows))
      && TotalOf(cfg, more, longer) == TotalOf(cfg, states, passes).Merge(
           DrainRows(cfg, states[n].t, pass.now, pass.rows, pass.faults, pass.draws).report)
  {
    hide DrainRows, AllKnown;
    var longer, more := passes + [pass], states + [after];
    assert longer[..|passes|] == passes && longer[|passes|] == pass && more[..|states|] == states;
    TotalPrefix(cfg, states, states + [after], passes);
  }

  lemma {:induction false} TotalPrefix(cfg: Config, states: seq<IdleState>, more: seq<IdleState>,
      passes: seq<PassInput>)
    requires |passes| < |states| <= |more| && more[..|states|] == states
    requires forall i :: 0 <= i < |passes| ==> AllKnown(states[i].t, passes[i].rows)
    ensures forall i :: 0 <= i < |passes| ==> AllKnown(more[i].t, passes[i].rows)
    ensures TotalOf(cfg, more, passes) == TotalOf(cfg, states, passes)
    decreases |passes|
  {
    forall i | 0 <= i < |passes| ensures more[i] == states[i] {
      assert more[..|states|][i] == more[i];
    }
    if passes != [] {
      TotalPrefix(cfg, states, more, passes[..|passes| - 1]);
    }
  }

  lemma PassesGrow(cfg: Config, states: seq<IdleState>, passes: seq<PassInput>, maxPasses: int, pass: PassInput,
      after: IdleState)
    requires Passes(cfg, states, passes, maxPasses) && |passes| < maxPasses
    requires AllKnown(states[|passes|].t, pass.rows) && PassFrom(cfg, states[|passes|], pass, after)
    requires passes != [] ==> !Finished(cfg, states[|passes| - 1], passes[|passes| - 1])
    ensures Passes(cfg, states + [after], passes + [pass], maxPasses)
  {
    hide PassFrom, Finished, AllKnown;
  }

  /** faults names, for each pass, the rows whose handler escapes with an exception of its own, and took
      how long the pass goes on. */
  method DrainUntilIdle(cfg: Config, conn: Connection, clock: Clock, maxPasses: int, faults: nat -> Faults,
      draws: Draws, took: nat -> Time)
    returns (total: Report, ghost states: seq<IdleState>, ghost passes: seq<PassInput>)
    requires conn.begun == None && conn.marked == None && RowsKeyed(conn.tables.books)
    requires forall i :: took(i) >= 0.0
    modifies conn, clock
    ensures conn.begun == None && conn.marked == None && RowsKeyed(conn.tables.books)
    ensures Passes(cfg, states, passes, maxPasses) && total == TotalOf(cfg, states, passes)
    ensures states[0] == IdleState(old(conn.tables), old(clock.t))
    ensures states[|states| - 1] == IdleState(conn.tables, clock.t)
    ensures forall i :: 0 <= i < |passes| ==> passes[i].faults == faults(i) && passes[i].took == took(i)
    ensures |passes| < maxPasses ==> passes != [] && Finished(cfg, states[|passes| - 1], passes[|passes| - 1])
  {
    hide PassFrom, Finished, DrainRows, After, QueuedIds;
    total := NOTHING;
    states, passes := [IdleState(conn.tables, clock.t)], [];
    var done, stop := 0, false;
    while done < maxPasses && !stop
      invariant conn.begun == None && conn.marked == None && RowsKeyed(conn.tables.books)
      invariant 0 <= done && |passes| == done && (done > 0 ==> done <= maxPasses)
      invariant Passes(cfg, states, passes, maxPasses) && total == TotalOf(cfg, states, passes)
      invariant states[0] == IdleState(old(conn.tables), old(clock.t))
      invariant states[done] == IdleState(conn.tables, clock.t)
      invariant forall i :: 0 <= i < done ==> passes[i].faults == faults(i) && passes[i].took == took(i)
      invariant if stop then done > 0 && Finished(cfg, states[done - 1], passes[done - 1])
                else done == 0 || !Finished(cfg, states[done - 1], passes[done - 1])
      decreases maxPasses - done, !stop
    {
      var report;
      ghost var pass;
      report, stop, pass := Turn(cfg, conn, clock, faults(done), draws, took(done));
      total := total.Merge(report);
      TotalSnoc(cfg, states, passes, IdleState(conn.tables, clock.t), pass);
      PassesGrow(cfg, states, passes, maxPasses, pass, IdleState(conn.tables, clock.t));
      states, passes := states + [IdleState(conn.tables, clock.t)], passes + [pass];
      done := done + 1;
    }
  }
}
