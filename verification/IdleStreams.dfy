/** A payment's stream under draining until idle: when one call settles it. */
module IdleStreams {
  import opened Wrappers
  import opened Sums
  import opened Model
  import opened Store
  import opened Inbox
  import opened Drain
  import opened Isolation
  import opened Streams
  import opened Confluence
  import opened Idle
  import opened IdleTheorems

  // ------------------------------------------------ one call settles one stream

  /** The queue holds the payment's stream, whatever else waits in it can be read, and what waits is
      due. */
  ghost predicate QuietQueue(cfg: Config, c: Subject, s: IdleState)
    requires c.Valid()
  {
    && Holding(cfg, c, s.t)
    && |QueuedIds(s.t)| <= DEFAULT_LIMIT
    && forall id <- QueuedIds(s.t) :: EventOf(cfg, s.t.deliveries[id]).Some? && Due(s.t.deliveries[id], s.clock)
  }

  lemma QuietHolds(cfg: Config, c: Subject, s: IdleState)
    requires c.Valid() && QuietQueue(cfg, c, s)
    ensures Holding(cfg, c, s.t) && |QueuedIds(s.t)| <= DEFAULT_LIMIT
  {
  }

  ghost predicate NoFaults(pass: PassInput) {
    forall id :: pass.faults(id) == None
  }

  lemma QuietIsFull(cfg: Config, c: Subject, s: IdleState, pass: PassInput, after: IdleState)
    requires c.Valid() && QuietQueue(cfg, c, s) && PassFrom(cfg, s, pass, after) && NoFaults(pass)
    ensures FullPass(cfg, c, s.t, pass)
  {
    forall id | id in s.t.deliveries && About(cfg, s.t.deliveries[id], c.p) && Queued(s.t.deliveries[id].state)
      ensures SnapshotOf(id, s.t.deliveries[id]) in pass.rows
    {
      assert id in QueuedIds(s.t);
      SelectionComplete(s.t, pass.now, pass.limit, pass.rows, id);
    }
  }

  lemma StaysReadable(cfg: Config, c: Subject, t: Tables, u: Tables, id: string)
    requires c.Valid() && Later(t, u, c.p) && id in t.deliveries
    ensures id in u.deliveries && EventOf(cfg, u.deliveries[id]) == EventOf(cfg, t.deliveries[id])
  {
    assert id in t.deliveries.Keys;
  }

  lemma RowTaken(s: IdleState, pass: PassInput, id: string)
    requires Selection(s.t, s.clock, pass.limit, pass.rows) && |QueuedIds(s.t)| <= pass.limit
    requires id in QueuedIds(s.t) && Due(s.t.deliveries[id], s.clock)
    ensures SnapshotOf(id, s.t.deliveries[id]) in pass.rows
  {
    SelectionComplete(s.t, s.clock, pass.limit, pass.rows, id);
  }

  /** What a pass leaves of a readable row it took without a fault: settled, dead, or parked for one base
      delay. */
  lemma TakenRow(cfg: Config, s: IdleState, pass: PassInput, after: IdleState, row: Snapshot)
    requires PassFrom(cfg, s, pass, after) && row in pass.rows && Calm(cfg, pass.faults, row)
    ensures row.id in s.t.deliveries && row.id in after.t.deliveries
    ensures
      var d := after.t.deliveries[row.id];
      Queued(d.state) ==>
        && d.state == Parked && d.parkedUntil == Some(s.clock + cfg.policy.baseSeconds)
        && d.nextAttemptAt == s.t.deliveries[row.id].nextAttemptAt
  {
    hide *;
    PassStarts(cfg, s, pass, after);
    SelectionDistinct(s.t, pass.now, pass.limit, pass.rows);
    PassRows(cfg, s.t, pass.now, pass.rows, pass.faults, pass.draws);
    AfterIs(cfg, s.t, pass);
    LeftBehind(cfg, s.t, pass.now, pass.rows, pass.faults,
               DrainRows(cfg, s.t, pass.now, pass.rows, pass.faults, pass.draws), row);
  }

  lemma LeftBehind(cfg: Config, t: Tables, now: Time, rows: seq<Snapshot>, faults: Faults, r: RowResult, row: Snapshot)
    requires PassLeaves(cfg, t, now, rows, faults, r) && row in rows && Calm(cfg, faults, row)
    ensures row.id in t.deliveries && row.id in r.tables.deliveries
    ensures
      var d := r.tables.deliveries[row.id];
      Queued(d.state) ==>
        && d.state == Parked && d.parkedUntil == Some(now + cfg.policy.baseSeconds)
        && d.nextAttemptAt == t.deliveries[row.id].nextAttemptAt
  {
    assert ParkedRow(cfg, now, t.deliveries[row.id], r.tables.deliveries[row.id], r.report);
  }

  lemma QuietRow(cfg: Config, c: Subject, s: IdleState, pass: PassInput, after: IdleState, id: string)
    requires cfg.policy.baseSeconds > 0.0 && c.Valid() && QuietQueue(cfg, c, s)
    requires PassFrom(cfg, s, pass, after) && NoFaults(pass)
    requires Later(s.t, after.t, c.p) && id in QueuedIds(after.t)
    ensures id in QueuedIds(s.t) && EventOf(cfg, after.t.deliveries[id]).Some?
    ensures
      var d := after.t.deliveries[id];
      && d.state == Parked && d.parkedUntil == Some(s.clock + cfg.policy.baseSeconds)
      && (d.nextAttemptAt.Some? ==> d.nextAttemptAt.value <= s.clock)
  {
    hide Holding, DrainRows;
    QueueShrinks(cfg, s, pass, after);
    RowTaken(s, pass, id);
    StaysReadable(cfg, c, s.t, after.t, id);
    hide Selection, Later;
    TakenRow(cfg, s, pass, after, SnapshotOf(id, s.t.deliveries[id]));
  }

  lemma QuietLeft(cfg: Config, c: Subject, s: IdleState, pass: PassInput, after: IdleState, id: string)
    requires cfg.policy.baseSeconds > 0.0 && s.clock >= 0.0 && c.Valid() && QuietQueue(cfg, c, s)
    requires PassFrom(cfg, s, pass, after) && NoFaults(pass) && Later(s.t, after.t, c.p) && id in QueuedIds(after.t)
    ensures
      var d, later := after.t.deliveries[id], s.clock + cfg.policy.baseSeconds;
      EventOf(cfg, d).Some? && DueAt(d) == later && forall now: Time :: now >= later ==> Due(d, now)
  {
    hide PassFrom, QuietQueue, Later, Holding, Selection;
    QuietRow(cfg, c, s, pass, after, id);
  }

  /** All that waits can be read, waits for that time, and is due from then on. */
  ghost predicate DueFrom(cfg: Config, t: Tables, later: Time) {
    forall id <- QueuedIds(t) ::
      && EventOf(cfg, t.deliveries[id]).Some? && DueAt(t.deliveries[id]) == later
      && forall now: Time :: now >= later ==> Due(t.deliveries[id], now)
  }

  lemma AllLeft(cfg: Config, c: Subject, s: IdleState, pass: PassInput, after: IdleState)
    requires cfg.policy.baseSeconds > 0.0 && s.clock >= 0.0 && c.Valid() && QuietQueue(cfg, c, s)
    requires PassFrom(cfg, s, pass, after) && NoFaults(pass) && Later(s.t, after.t, c.p)
    ensures DueFrom(cfg, after.t, s.clock + cfg.policy.baseSeconds)
  {
    hide QuietQueue, NoFaults, PassFrom, Later, EventOf, DueAt, Due;
    forall id | id in QueuedIds(after.t) ensures
      var d, later := after.t.deliveries[id], s.clock + cfg.policy.baseSeconds;
      EventOf(cfg, d).Some? && DueAt(d) == later && forall now: Time :: now >= later ==> Due(d, now)
    {
      QuietLeft(cfg, c, s, pass, after, id);
    }
  }

  /** The clock is left no earlier than the pass began, nor than the time all that waits is due. */
  lemma SleptTo(cfg: Config, s: IdleState, pass: PassInput, after: IdleState, due: Time)
    requires PassFrom(cfg, s, pass, after) && DueFrom(cfg, after.t, due)
    ensures after.clock >= s.clock && (QueuedIds(after.t) != {} ==> after.clock >= due)
  {
    hide Selection, After, DueAt, QueuedIds;
  }

  lemma QuietAgain(cfg: Config, c: Subject, after: IdleState, due: Time)
    requires c.Valid() && Holding(cfg, c, after.t) && |QueuedIds(after.t)| <= DEFAULT_LIMIT
    requires DueFrom(cfg, after.t, due) && (QueuedIds(after.t) != {} ==> after.clock >= due)
    ensures QuietQueue(cfg, c, after)
  {
    hide Holding, EventOf, DueAt, Due;
  }

  /** What is left after a pass is parked until one base delay on, and the clock is not left before that,
      so the next pass again finds all of it due. */
  lemma QuietStays(cfg: Config, c: Subject, s: IdleState, pass: PassInput, after: IdleState)
    requires cfg.policy.baseSeconds > 0.0 && s.clock >= 0.0 && c.Valid() && QuietQueue(cfg, c, s)
    requires PassFrom(cfg, s, pass, after) && NoFaults(pass)
    ensures QuietQueue(cfg, c, after) && after.clock >= s.clock
  {
    hide *;
    QuietHolds(cfg, c, s);
    AfterQuiet(cfg, c, s, pass, after);
    QueueShrinks(cfg, s, pass, after);
    AllLeft(cfg, c, s, pass, after);
    SleptTo(cfg, s, pass, after, s.clock + cfg.policy.baseSeconds);
    QuietAgain(cfg, c, after, s.clock + cfg.policy.baseSeconds);
  }

  lemma AfterQuiet(cfg: Config, c: Subject, s: IdleState, pass: PassInput, after: IdleState)
    requires c.Valid() && QuietQueue(cfg, c, s) && PassFrom(cfg, s, pass, after) && NoFaults(pass)
    ensures FullPass(cfg, c, s.t, pass) && Later(s.t, after.t, c.p) && Holding(cfg, c, after.t)
  {
    QuietIsFull(cfg, c, s, pass, after);
    FullPassDone(cfg, c, s.t, pass);
    hide Holding, Later, FullPass;
  }

  /** None of the payment's deliveries waits. */
  ghost predicate NoneWaits(cfg: Config, c: Subject, t: Tables) {
    forall id <- t.deliveries :: About(cfg, t.deliveries[id], c.p) ==> !Queued(t.deliveries[id].state)
  }

  lemma EventsOfPayment(c: Subject)
    requires c.Streamed()
    ensures forall e <- c.stream :: e.paymentId == c.p
  {
  }

  lemma NoneWaitsSettled(cfg: Config, c: Subject, t: Tables)
    requires c.Valid() && Holding(cfg, c, t) && NoneWaits(cfg, c, t)
    ensures Settled(cfg, c, t)
  {
    EventsOfPayment(c);
    hide EventOf, BooksPartway, PaymentStream, Admissible, OwnOf;
    forall e | e in c.stream ensures e in OwnOf(t, c.p) {
      var id :| id in t.deliveries && EventOf(cfg, t.deliveries[id]) == Some(e);
      assert About(cfg, t.deliveries[id], c.p);
    }
  }

  /** While one of the payment's deliveries waits, one that is ready does. */
  lemma SomeReady(cfg: Config, c: Subject, t: Tables, waiting: string) returns (id: string)
    requires c.Valid() && Holding(cfg, c, t) && waiting in t.deliveries
    requires About(cfg, t.deliveries[waiting], c.p) && Queued(t.deliveries[waiting].state)
    ensures id in t.deliveries && About(cfg, t.deliveries[id], c.p) && Queued(t.deliveries[id].state)
    ensures Ready(c.stream, OwnOf(t, c.p), EventOf(cfg, t.deliveries[id]).value)
  {
    var own := OwnOf(t, c.p);
    if Ready(c.stream, own, EventOf(cfg, t.deliveries[waiting]).value) {
      id := waiting;
    } else {
      var next := c.stream[|own|];
      assert |own| <= 1 && next in c.stream && next !in own by {
        assert |own| == 1 ==> own[0] == c.stream[0] && KeyOf(c.stream[0]) != KeyOf(c.stream[1]);
      }
      id :| id in t.deliveries && EventOf(cfg, t.deliveries[id]) == Some(next);
      assert About(cfg, t.deliveries[id], c.p);
    }
  }

  /** A full pass that reports nothing finds none of the payment's deliveries waiting. */
  lemma {:induction false} NothingReported(cfg: Config, c: Subject, s: IdleState, pass: PassInput, after: IdleState)
    requires c.Valid() && Holding(cfg, c, s.t) && FullPass(cfg, c, s.t, pass) && PassFrom(cfg, s, pass, after)
    requires DrainRows(cfg, s.t, pass.now, pass.rows, pass.faults, pass.draws).report.Total() == 0
    ensures NoneWaits(cfg, c, s.t)
  {
    forall waiting | waiting in s.t.deliveries && About(cfg, s.t.deliveries[waiting], c.p)
      ensures !Queued(s.t.deliveries[waiting].state)
    {
      if Queued(s.t.deliveries[waiting].state) {
        var id := SomeReady(cfg, c, s.t, waiting);
        ReadyReported(cfg, c, s, pass, after, id);
        assert false;
      }
    }
  }

  /** A ready delivery of the payment that waits makes a full pass report something. */
  lemma {:induction false} ReadyReported(cfg: Config, c: Subject, s: IdleState, pass: PassInput, after: IdleState,
      id: string)
    requires c.Valid() && Holding(cfg, c, s.t) && FullPass(cfg, c, s.t, pass) && PassFrom(cfg, s, pass, after)
    requires id in s.t.deliveries && About(cfg, s.t.deliveries[id], c.p) && Queued(s.t.deliveries[id].state)
    requires Ready(c.stream, OwnOf(s.t, c.p), EventOf(cfg, s.t.deliveries[id]).value)
    ensures DrainRows(cfg, s.t, pass.now, pass.rows, pass.faults, pass.draws).report.Total() > 0
  {
    FullPassDone(cfg, c, s.t, pass);
    ReadySettles(cfg, c, s.t, pass, id);
    SelectionDistinct(s.t, pass.now, pass.limit, pass.rows);
    PassRows(cfg, s.t, pass.now, pass.rows, pass.faults, pass.draws);
    var row := SnapshotOf(id, s.t.deliveries[id]);
    assert row in pass.rows;
    hide DrainRows, Holding, PassDone, Ready, Selection, FullPass;
    var r := DrainRows(cfg, s.t, pass.now, pass.rows, pass.faults, pass.draws);
    assert ParkedRow(cfg, pass.now, s.t.deliveries[row.id], r.tables.deliveries[row.id], r.report);
  }

  lemma {:induction false} QuietAlong(
    cfg: Config, c: Subject, states: seq<IdleState>, passes: seq<PassInput>, maxPasses: int, i: nat)
    requires cfg.policy.baseSeconds > 0.0 && c.Valid() && Passes(cfg, states, passes, maxPasses) && i < |states|
    requires QuietQueue(cfg, c, states[0]) && states[0].clock >= 0.0
    requires forall p <- passes :: NoFaults(p)
    ensures QuietQueue(cfg, c, states[i]) && states[i].clock >= 0.0
    ensures i >= 1 ==> |OwnOf(states[i].t, c.p)| >= 1
    ensures i >= 2 ==> |OwnOf(states[i].t, c.p)| >= 2
    ensures i >= 3 ==> Settled(cfg, c, states[i].t)
    decreases i
  {
    hide *;
    if i > 0 {
      PassesShape(cfg, states, passes, maxPasses);
      PassOf(cfg, states, passes, maxPasses, i - 1);
      assert passes[i - 1] in passes;
      QuietAlong(cfg, c, states, passes, maxPasses, i - 1);
      QuietStays(cfg, c, states[i - 1], passes[i - 1], states[i]);
      StreamProgress(cfg, c, states[i - 1], passes[i - 1], states[i]);
    }
  }

  lemma StreamProgress(cfg: Config, c: Subject, s: IdleState, pass: PassInput, after: IdleState)
    requires cfg.policy.baseSeconds > 0.0 && c.Valid() && QuietQueue(cfg, c, s) && PassFrom(cfg, s, pass, after)
          && NoFaults(pass)
    ensures |OwnOf(after.t, c.p)| >= 1
    ensures |OwnOf(s.t, c.p)| >= 1 ==> |OwnOf(after.t, c.p)| >= 2
    ensures |OwnOf(s.t, c.p)| >= 2 ==> Settled(cfg, c, after.t)
  {
    hide *;
    QuietHolds(cfg, c, s);
    QuietIsFull(cfg, c, s, pass, after);
    FullPassProgress(cfg, c, s, pass, after);
  }

  /** Each full pass folds at least one more stage of the stream. */
  lemma FullPassProgress(cfg: Config, c: Subject, s: IdleState, pass: PassInput, after: IdleState)
    requires c.Valid() && Holding(cfg, c, s.t) && FullPass(cfg, c, s.t, pass) && PassFrom(cfg, s, pass, after)
    ensures |OwnOf(after.t, c.p)| >= 1
    ensures |OwnOf(s.t, c.p)| >= 1 ==> |OwnOf(after.t, c.p)| >= 2
    ensures |OwnOf(s.t, c.p)| >= 2 ==> Settled(cfg, c, after.t)
  {
    hide DrainRows;
    FullPassDone(cfg, c, s.t, pass);
    EventFolded(cfg, c, s.t, pass, c.stream[0]);
    FirstTwoFolded(c, OwnOf(after.t, c.p));
    if |OwnOf(s.t, c.p)| >= 1 {
      EventFolded(cfg, c, s.t, pass, c.stream[1]);
    }
    if |OwnOf(s.t, c.p)| >= 2 {
      ThirdPassSettles(cfg, c, s.t, pass);
    }
  }

  /** A pass that stops the loop leaves the payment settled. */
  lemma StopsSettled(cfg: Config, c: Subject, s: IdleState, pass: PassInput, after: IdleState)
    requires cfg.policy.baseSeconds > 0.0 && s.clock >= 0.0 && c.Valid() && QuietQueue(cfg, c, s)
    requires PassFrom(cfg, s, pass, after) && NoFaults(pass) && Finished(cfg, s, pass)
    ensures Settled(cfg, c, after.t)
  {
    QuietIsFull(cfg, c, s, pass, after);
    QuietStays(cfg, c, s, pass, after);
    QueueShrinks(cfg, s, pass, after);
    FullPassDone(cfg, c, s.t, pass);
    if QueuedIds(after.t) != {} {
      NothingReported(cfg, c, s, pass, after);
    }
    forall id | id in after.t.deliveries && About(cfg, after.t.deliveries[id], c.p)
      ensures !Queued(after.t.deliveries[id].state)
    {
      WaitsBefore(cfg, c, s, after, id);
    }
    NoneWaitsSettled(cfg, c, after.t);
  }

  lemma WaitsBefore(cfg: Config, c: Subject, s: IdleState, after: IdleState, id: string)
    requires c.Valid() && Later(s.t, after.t, c.p) && QueuedIds(after.t) <= QueuedIds(s.t)
    requires QueuedIds(after.t) == {} || NoneWaits(cfg, c, s.t)
    requires id in after.t.deliveries && About(cfg, after.t.deliveries[id], c.p)
    ensures !Queued(after.t.deliveries[id].state)
  {
    assert Queued(after.t.deliveries[id].state) ==> id in QueuedIds(after.t) && id in QueuedIds(s.t);
    if id in s.t.deliveries {
      StaysReadable(cfg, c, s.t, after.t, id);
    }
  }

  /** One call is enough: draining a payment's stream until idle, with three passes or more allowed,
      settles every delivery of it and leaves its one aggregate, whatever readable deliveries of other
      payments wait beside it and however long the passes take. */
  lemma OneCallSettles(cfg: Config, c: Subject, states: seq<IdleState>, passes: seq<PassInput>, maxPasses: int)
    requires cfg.policy.baseSeconds > 0.0 && maxPasses >= 3 && c.Valid()
    requires Passes(cfg, states, passes, maxPasses) && forall p <- passes :: NoFaults(p)
    requires |passes| < maxPasses ==> passes != [] && Finished(cfg, states[|passes| - 1], passes[|passes| - 1])
    requires QuietQueue(cfg, c, states[0]) && states[0].clock >= 0.0
    ensures
      var end := states[|passes|].t;
      Settled(cfg, c, end) && Find(end.books.payments, c.p) == Some(FinalRow(c))
  {
    hide *;
    var n := |passes|;
    PassesShape(cfg, states, passes, maxPasses);
    QuietAlong(cfg, c, states, passes, maxPasses, n);
    QuietHolds(cfg, c, states[n]);
    if n < maxPasses {
      QuietAlong(cfg, c, states, passes, maxPasses, n - 1);
      PassOf(cfg, states, passes, maxPasses, n - 1);
      assert passes[n - 1] in passes;
      StopsSettled(cfg, c, states[n - 1], passes[n - 1], states[n]);
    }
    SettledRow(cfg, c, states[n].t);
  }

  // -------------------------------------------- any call with three such passes

  /** The pass fails none of the payment's own rows. */
  ghost predicate OwnUnharmed(cfg: Config, c: Subject, t: Tables, pass: PassInput) {
    forall id <- t.deliveries :: About(cfg, t.deliveries[id], c.p) ==> pass.faults(id) == None
  }

  /** What waits of the payment is due. */
  ghost predicate OwnDue(cfg: Config, c: Subject, s: IdleState) {
    forall id <- s.t.deliveries ::
      About(cfg, s.t.deliveries[id], c.p) && Queued(s.t.deliveries[id].state) ==> Due(s.t.deliveries[id], s.clock)
  }

  lemma SelectionPassable(cfg: Config, c: Subject, t: Tables, pass: PassInput)
    requires Selection(t, pass.now, pass.limit, pass.rows) && OwnUnharmed(cfg, c, t, pass)
    ensures Passable(cfg, c, t, pass.rows, pass.faults)
  {
    SelectedOnce(t, pass.now, pass.limit, pass.rows);
    hide About;
  }

  lemma PassHeld(cfg: Config, c: Subject, s: IdleState, pass: PassInput, after: IdleState)
    requires c.Valid() && Holding(cfg, c, s.t) && PassFrom(cfg, s, pass, after) && OwnUnharmed(cfg, c, s.t, pass)
    ensures PassDone(cfg, c, s.t, after.t, pass.rows) && IdsOf(pass.rows) <= QueuedIds(s.t)
  {
    hide *;
    PassStarts(cfg, s, pass, after);
    SelectionPassable(cfg, c, s.t, pass);
    SelectionDistinct(s.t, pass.now, pass.limit, pass.rows);
    PassHolds(cfg, c, s.t, pass.now, pass.rows, pass.faults, pass.draws);
    AfterIs(cfg, s.t, pass);
  }

  lemma {:induction false} AfterIs(cfg: Config, t: Tables, pass: PassInput)
    requires AllKnown(t, pass.rows)
    ensures After(cfg, t, pass) == DrainRows(cfg, t, pass.now, pass.rows, pass.faults, pass.draws).tables
  {
  }

  lemma {:induction false} OwnGrows(c: Subject, own: seq<Event>, more: seq<Event>)
    requires c.Valid() && Partway(c.stream, own) && forall e <- own :: e in more
    ensures |own| <= |more|
  {
    SubsetMultiset(own, more);
    SmallerNotLonger(own, more);
  }

  lemma SettledKept(cfg: Config, c: Subject, t: Tables, u: Tables, rows: seq<Snapshot>)
    requires c.Valid() && PassDone(cfg, c, t, u, rows) && IdsOf(rows) <= QueuedIds(t) && Settled(cfg, c, t)
    ensures Settled(cfg, c, u)
  {
    hide Holding, RowDone;
    forall id | id in u.deliveries && About(cfg, u.deliveries[id], c.p)
      ensures u.deliveries[id].state in {Applied, Duplicate}
    {
      assert id in u.deliveries.Keys && id in t.deliveries && About(cfg, t.deliveries[id], c.p);
    }
  }

  /** A pass that fails none of the payment's rows, whichever of them it takes, keeps what is settled of it. */
  lemma AnyPass(cfg: Config, c: Subject, s: IdleState, pass: PassInput, after: IdleState)
    requires c.Valid() && Holding(cfg, c, s.t) && PassFrom(cfg, s, pass, after) && OwnUnharmed(cfg, c, s.t, pass)
    ensures Holding(cfg, c, after.t) && |OwnOf(s.t, c.p)| <= |OwnOf(after.t, c.p)|
    ensures Settled(cfg, c, s.t) ==> Settled(cfg, c, after.t)
  {
    PassHeld(cfg, c, s, pass, after);
    hide PassFrom, PaymentStream, Admissible, RowDone, Settled, OwnUnharmed;
    OwnGrows(c, OwnOf(s.t, c.p), OwnOf(after.t, c.p));
    if Settled(cfg, c, s.t) {
      SettledKept(cfg, c, s.t, after.t, pass.rows);
    }
  }

  lemma DueIsFull(cfg: Config, c: Subject, s: IdleState, pass: PassInput, after: IdleState)
    requires PassFrom(cfg, s, pass, after) && OwnUnharmed(cfg, c, s.t, pass) && OwnDue(cfg, c, s)
    requires |QueuedIds(s.t)| <= DEFAULT_LIMIT
    ensures FullPass(cfg, c, s.t, pass)
  {
    PassStarts(cfg, s, pass, after);
    hide PassFrom, About, Due;
    forall id | id in s.t.deliveries && About(cfg, s.t.deliveries[id], c.p) && Queued(s.t.deliveries[id].state)
      ensures SnapshotOf(id, s.t.deliveries[id]) in pass.rows
    {
      assert id in QueuedIds(s.t);
      SelectionComplete(s.t, pass.now, pass.limit, pass.rows, id);
    }
  }

  /** The passes of a call, none of which fails a row of the payment. */
  ghost predicate Unharmed(cfg: Config, c: Subject, states: seq<IdleState>, passes: seq<PassInput>, maxPasses: int) {
    && Passes(cfg, states, passes, maxPasses)
    && forall n :: 0 <= n < |passes| ==> OwnUnharmed(cfg, c, states[n].t, passes[n])
  }

  lemma UnharmedAt(cfg: Config, c: Subject, states: seq<IdleState>, passes: seq<PassInput>, maxPasses: int, n: nat)
    requires Unharmed(cfg, c, states, passes, maxPasses) && n < |passes|
    ensures |states| == |passes| + 1 && PassFrom(cfg, states[n], passes[n], states[n + 1])
    ensures OwnUnharmed(cfg, c, states[n].t, passes[n])
  {
    hide PassFrom, Finished, OwnUnharmed;
  }

  lemma {:induction false} CarriedOn(cfg: Config, c: Subject, states: seq<IdleState>, passes: seq<PassInput>,
      maxPasses: int, m: nat, n: nat)
    requires c.Valid() && Unharmed(cfg, c, states, passes, maxPasses) && m <= n <= |passes| < |states|
    requires Holding(cfg, c, states[m].t)
    ensures Holding(cfg, c, states[n].t) && |OwnOf(states[m].t, c.p)| <= |OwnOf(states[n].t, c.p)|
    ensures Settled(cfg, c, states[m].t) ==> Settled(cfg, c, states[n].t)
    decreases n
  {
    hide *;
    if m < n {
      CarriedOn(cfg, c, states, passes, maxPasses, m, n - 1);
      UnharmedAt(cfg, c, states, passes, maxPasses, n - 1);
      AnyPass(cfg, c, states[n - 1], passes[n - 1], states[n]);
    }
  }

  /** One pass of a call that finds all the payment's waiting deliveries due. */
  lemma DueProgress(cfg: Config, c: Subject, states: seq<IdleState>, passes: seq<PassInput>, maxPasses: int, n: nat)
    requires c.Valid() && Unharmed(cfg, c, states, passes, maxPasses) && n < |passes| < |states|
    requires |QueuedIds(states[0].t)| <= DEFAULT_LIMIT && Holding(cfg, c, states[n].t) && OwnDue(cfg, c, states[n])
    ensures Holding(cfg, c, states[n + 1].t) && |OwnOf(states[n + 1].t, c.p)| >= 1
    ensures |OwnOf(states[n].t, c.p)| >= 1 ==> |OwnOf(states[n + 1].t, c.p)| >= 2
    ensures |OwnOf(states[n].t, c.p)| >= 2 ==> Settled(cfg, c, states[n + 1].t)
  {
    hide *;
    UnharmedAt(cfg, c, states, passes, maxPasses, n);
    UnharmedPasses(cfg, c, states, passes, maxPasses);
    QueueStaysSmall(cfg, states, passes, maxPasses, n);
    DueIsFull(cfg, c, states[n], passes[n], states[n + 1]);
    AnyPass(cfg, c, states[n], passes[n], states[n + 1]);
    FullPassProgress(cfg, c, states[n], passes[n], states[n + 1]);
  }

  lemma UnharmedPasses(cfg: Config, c: Subject, states: seq<IdleState>, passes: seq<PassInput>, maxPasses: int)
    requires Unharmed(cfg, c, states, passes, maxPasses)
    ensures Passes(cfg, states, passes, maxPasses) && |states| == |passes| + 1
  {
    hide PassFrom, Finished, OwnUnharmed;
  }

  /** From any queue within the limit, whatever else waits in it and however that fails: a call settles the
      payment once three of its passes have found all the payment's waiting deliveries due. */
  lemma ThreeDuePasses(cfg: Config, c: Subject, states: seq<IdleState>, passes: seq<PassInput>, maxPasses: int,
      first: nat, second: nat, third: nat)
    requires c.Valid() && Unharmed(cfg, c, states, passes, maxPasses) && first < second < third < |passes| < |states|
    requires |QueuedIds(states[0].t)| <= DEFAULT_LIMIT && Holding(cfg, c, states[0].t)
    requires OwnDue(cfg, c, states[first]) && OwnDue(cfg, c, states[second]) && OwnDue(cfg, c, states[third])
    ensures
      var end := states[|passes|].t;
      Settled(cfg, c, end) && Find(end.books.payments, c.p) == Some(FinalRow(c))
  {
    hide *;
    CarriedOn(cfg, c, states, passes, maxPasses, 0, first);
    DueProgress(cfg, c, states, passes, maxPasses, first);
    CarriedOn(cfg, c, states, passes, maxPasses, first + 1, second);
    DueProgress(cfg, c, states, passes, maxPasses, second);
    CarriedOn(cfg, c, states, passes, maxPasses, second + 1, third);
    DueProgress(cfg, c, states, passes, maxPasses, third);
    CarriedOn(cfg, c, states, passes, maxPasses, third + 1, |passes|);
    SettledRow(cfg, c, states[|passes|].t);
  }
}
