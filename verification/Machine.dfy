/** The inbox as a protocol: claims, per-row drain transactions, crashes and the clock, in any
    interleaving that has a single drain worker. */
module Machine {
  import opened Wrappers
  import opened Model
  import opened Dlq
  import opened Store
  import opened Ledger
  import opened Inbox
  import opened Drain

  /** A drain pass under way: the time and budget it started from, and the rows it still holds. */
  datatype Pass = Pass(now: Time, budgetUsed: int, rows: seq<Snapshot>)

  /** What an observer of the run remembers beside the tables: the retries scheduled, by the minute
      their pass began in and by the minute the clock stood in; those a pass carried over into a later
      minute than its own; the failed attempts; and the key of the payload each settled delivery was
      settled with. */
  datatype History = History(
    retries: map<int, nat>, committed: map<int, nat>, carried: map<int, nat>, failures: nat, read: map<string, Key>)

  datatype World = World(t: Tables, clock: Time, pass: Option<Pass>, history: History)

  datatype Step =
    | ClaimStep(provider: Provider, identity: string, raw: Bytes, lease: Time)
    | ParkStep(id: string, until: Time)
    | BeginPass(limit: int, rows: seq<Snapshot>)
    | RowStep(fault: Option<Error>, delay: Time)
    | EndPass
    | Tick(seconds: Time)

  function Start(clock: Time): World {
    World(EMPTY, clock, None, History(map[], map[], map[], 0, map[]))
  }

  ghost predicate Enabled(cfg: Config, w: World, s: Step) {
    match s
    case ClaimStep(_, _, _, _) => true
    case ParkStep(id, _) => id in w.t.deliveries && Queued(w.t.deliveries[id].state)
    case BeginPass(limit, rows) => w.pass.None? && Selection(w.t, w.clock, limit, rows)
    case RowStep(_, delay) =>
      && w.pass.Some? && w.pass.value.rows != []
      && w.pass.value.rows[0].id in w.t.deliveries
      && Drawable(cfg.policy, w.pass.value.rows[0].attempts + 1, delay)
    case EndPass => w.pass.Some?
    case Tick(seconds) => seconds >= 0.0
  }

  function TallyOf(tally: map<int, nat>, minute: int): nat {
    if minute in tally then tally[minute] else 0
  }

  function Tallied(tally: map<int, nat>, minute: int): map<int, nat> {
    tally[minute := TallyOf(tally, minute) + 1]
  }

  /** Retries scheduled by the passes that began in this minute. */
  function RetriesIn(h: History, minute: int): nat {
    TallyOf(h.retries, minute)
  }

  /** Retries scheduled while the clock stood in this minute, whenever their pass began. */
  function CommittedIn(h: History, minute: int): nat {
    TallyOf(h.committed, minute)
  }

  function Remembered(cfg: Config, h: History, clock: Time, now: Time, row: Snapshot, report: Report): History {
    var failed := report.retried + report.deadLettered > 0;
    var settled := report.applied + report.duplicate > 0;
    History(
      if report.retried > 0 then Tallied(h.retries, Minute(now)) else h.retries,
      if report.retried > 0 then Tallied(h.committed, Minute(clock)) else h.committed,
      if report.retried > 0 && Minute(now) != Minute(clock) then Tallied(h.carried, Minute(clock)) else h.carried,
      if failed then h.failures + 1 else h.failures,
      if settled && cfg.decode(row.provider, row.raw).Readable? then
        h.read[row.id := KeyOf(cfg.decode(row.provider, row.raw).event)]
      else h.read)
  }

  function RowWorld(cfg: Config, w: World, fault: Option<Error>, delay: Time): World
    requires w.pass.Some? && w.pass.value.rows != [] && w.pass.value.rows[0].id in w.t.deliveries
  {
    var pass := w.pass.value;
    var row := pass.rows[0];
    var r := DrainRow(cfg, w.t, pass.now, pass.budgetUsed, row, fault, delay);
    World(r.tables, w.clock, Some(Pass(pass.now, r.budgetUsed, pass.rows[1..])),
          Remembered(cfg, w.history, w.clock, pass.now, row, r.report))
  }

  /** A transaction commits as a whole or not at all, so a crash is the end of the pass between two
      of them: EndPass at any moment. A step that is not enabled changes nothing. */
  ghost function Next(cfg: Config, w: World, s: Step): World {
    if !Enabled(cfg, w, s) then w
    else
      match s
      case ClaimStep(provider, identity, raw, lease) =>
        w.(t := ClaimTables(w.t, provider, DeliveryId(provider, identity), raw, w.clock, lease))
      case ParkStep(id, until) => w.(t := ParkTables(w.t, id, until))
      case BeginPass(_, rows) => w.(pass := Some(Pass(w.clock, BudgetUsedAt(w.t.counters, w.clock), rows)))
      case RowStep(fault, delay) => RowWorld(cfg, w, fault, delay)
      case EndPass => w.(pass := None)
      case Tick(seconds) => w.(clock := w.clock + seconds)
  }

  ghost function Run(cfg: Config, w: World, steps: seq<Step>): World
    decreases |steps|
  {
    if steps == [] then w else Next(cfg, Run(cfg, w, steps[..|steps| - 1]), steps[|steps| - 1])
  }

  lemma {:induction false} RunSnoc(cfg: Config, w: World, steps: seq<Step>, s: Step)
    ensures Run(cfg, w, steps + [s]) == Next(cfg, Run(cfg, w, steps), s)
  {
    hide Next;
    assert (steps + [s])[..|steps|] == steps;
  }

  lemma {:induction false} RunAppend(cfg: Config, w: World, first: seq<Step>, second: seq<Step>)
    ensures Run(cfg, w, first + second) == Run(cfg, Run(cfg, w, first), second)
    decreases |second|
  {
    if second == [] {
      assert first + second == first;
    } else {
      var front, last := second[..|second| - 1], second[|second| - 1];
      assert (first + second)[..|first + second| - 1] == first + front;
      RunAppend(cfg, w, first, front);
    }
  }

  lemma ClockMonotone(cfg: Config, w: World, s: Step)
    ensures w.clock <= Next(cfg, w, s).clock
  {
  }

  // ------------------------------------------------------------ one row, in one view

  /** Everything a row transaction does to the rest of the tables, case by case. */
  ghost predicate RowShape(cfg: Config, t: Tables, now: Time, budgetUsed: int, row: Snapshot, delay: Time, r: RowResult)
    requires row.id in t.deliveries
  {
    && row.id in r.tables.deliveries
    && r.tables.deliveries == t.deliveries[row.id := r.tables.deliveries[row.id]]
    && var d, after := t.deliveries[row.id], r.tables.deliveries[row.id];
       && after.receivedAt == d.receivedAt && after.provider == d.provider && after.raw == d.raw
       && (match after.state
           case Applied =>
             && r.report == NOTHING.(applied := 1) && after.attempts == d.attempts
             && cfg.decode(row.provider, row.raw).Readable?
             && Post(t.books, true, row.id, cfg.decode(row.provider, row.raw).event) == Posted(r.tables.books)
             && r.tables.counters == Bumped(t.counters, AppliedCount) && r.budgetUsed == budgetUsed
           case Duplicate =>
             && r.report == NOTHING.(duplicate := 1) && after.attempts == d.attempts
             && cfg.decode(row.provider, row.raw).Readable?
             && HasKey(t.books.effects, KeyOf(cfg.decode(row.provider, row.raw).event))
             && r.tables.books == t.books
             && r.tables.counters == Bumped(t.counters, DedupedCount) && r.budgetUsed == budgetUsed
           case Parked =>
             && r.report == (if row.state == Parked then NOTHING else NOTHING.(parked := 1))
             && after.attempts == d.attempts && after.parkedUntil == Some(now + cfg.policy.baseSeconds)
             && after.nextAttemptAt == d.nextAttemptAt
             && r.tables.books == t.books && r.budgetUsed == budgetUsed
             && r.tables.counters == (if row.state == Parked then t.counters else Bumped(t.counters, ParkedCount))
           case Claimed =>
             && r.report == NOTHING.(retried := 1) && after.attempts == row.attempts + 1
             && after.nextAttemptAt == Some(now + delay)
             && after.attempts < cfg.policy.maxAttempts && budgetUsed < cfg.policy.budgetPerMinute
             && r.tables.books == t.books && r.budgetUsed == budgetUsed + 1
             && r.tables.counters == WithBudget(t.counters, now, budgetUsed + 1)
           case DeadLettered =>
             && r.report == NOTHING.(deadLettered := 1) && after.attempts == row.attempts + 1
             && r.tables.books == t.books && r.budgetUsed == budgetUsed
             && r.tables.counters == Bumped(t.counters, DeadLetteredCount))
  }

  lemma RowShapeHolds(
    cfg: Config, t: Tables, now: Time, budgetUsed: int, row: Snapshot, fault: Option<Error>, delay: Time)
    requires row.id in t.deliveries
    ensures RowShape(cfg, t, now, budgetUsed, row, delay, DrainRow(cfg, t, now, budgetUsed, row, fault, delay))
  {
    var handled := Handle(cfg, t, now, row, fault);
    if handled.Failed? {
      FailureShape(cfg, t, now, budgetUsed, row, handled.error, delay);
    }
  }

  lemma FailureShape(cfg: Config, t: Tables, now: Time, budgetUsed: int, row: Snapshot, error: Error, delay: Time)
    requires row.id in t.deliveries
    ensures RowShape(cfg, t, now, budgetUsed, row, delay, AfterFailure(cfg, t, now, budgetUsed, row, error, delay))
  {
  }
}
