/** The drain pass: one transaction per due delivery, and a bounded retry for what fails. */
module Drain {
  import opened Wrappers
  import opened Model
  import opened Dlq
  import opened Store
  import opened Ledger
  import opened Inbox

  datatype Report = Report(applied: nat, duplicate: nat, parked: nat, deadLettered: nat, retried: nat) {
    function Total(): nat {
      applied + duplicate + parked + deadLettered + retried
    }

    function Merge(other: Report): Report {
      Report(applied + other.applied, duplicate + other.duplicate, parked + other.parked,
             deadLettered + other.deadLettered, retried + other.retried)
    }
  }

  const NOTHING := Report(0, 0, 0, 0, 0)

  function Minute(now: Time): int {
    (now / 60.0).Floor
  }

  lemma MinuteMonotone(a: Time, b: Time)
    requires a <= b
    ensures Minute(a) <= Minute(b)
  {
  }

  /** A minute is the sixty seconds that begin with it. */
  lemma MinuteExact(now: Time, minute: int)
    ensures Minute(now) == minute <==> 60.0 * minute as real <= now < 60.0 * (minute + 1) as real
  {
    var m := now / 60.0;
    assert m * 60.0 == now;
  }

  function BudgetUsedAt(counters: map<Counter, int>, now: Time): int {
    if BudgetMinute in counters && counters[BudgetMinute] == Minute(now) then CountOf(counters, BudgetUsed) else 0
  }

  function WithBudget(counters: map<Counter, int>, now: Time, used: int): map<Counter, int> {
    counters[BudgetMinute := Minute(now)][BudgetUsed := used]
  }

  /** How the transaction for one row ends. */
  datatype Handled = Done(tables: Tables, report: Report) | Failed(error: Error)

  function SettleTables(t: Tables, row: Snapshot, outcome: Outcome, now: Time, policy: RetryPolicy):
      (r: (Tables, Report))
    requires row.id in t.deliveries && !outcome.RaisedOutcome?
  {
    var d := t.deliveries[row.id];
    match outcome
    case ParkedOutcome =>
      var parked := t.(deliveries := t.deliveries[row.id := d.(
                         state := Parked, parkedUntil := Some(now + policy.baseSeconds), leaseExpiresAt := None)]);
      if row.state == Parked then (parked, NOTHING)
      else (parked.(counters := Bumped(t.counters, ParkedCount)), NOTHING.(parked := 1))
    case DuplicateOutcome =>
      (Tables(t.deliveries[row.id := d.(state := Duplicate, leaseExpiresAt := None, nextAttemptAt := None)],
              t.books, Bumped(t.counters, DedupedCount)),
       NOTHING.(duplicate := 1))
    case AppliedOutcome =>
      (Tables(t.deliveries[row.id := d.(state := Applied, parkedUntil := None, leaseExpiresAt := None, nextAttemptAt := None)],
              t.books, Bumped(t.counters, AppliedCount)),
       NOTHING.(applied := 1))
  }

  /** The transaction of one row. A fault stands for any other exception the handler escapes with,
      a locked database or an amount the store cannot hold among them. */
  function Handle(cfg: Config, t: Tables, now: Time, row: Snapshot, fault: Option<Error>): Handled
    requires row.id in t.deliveries
  {
    if fault.Some? then Failed(fault.value)
    else
      match cfg.decode(row.provider, row.raw)
      case Unreadable(error) => Failed(error)
      case Readable(e) =>
        var posting := Post(t.books, row.id in t.deliveries, row.id, e);
        match OutcomeOf(posting)
        case RaisedOutcome(rejection) => Failed(Rejected(rejection))
        case outcome =>
          var (tables, report) := SettleTables(t.(books := BooksAfter(t.books, posting)), row, outcome, now, cfg.policy);
          Done(tables, report)
  }

  datatype RowResult = RowResult(tables: Tables, budgetUsed: int, report: Report)

  /** The second transaction of a row whose first one failed. */
  function AfterFailure(
    cfg: Config, t: Tables, now: Time, budgetUsed: int, row: Snapshot, error: Error, delay: Time): RowResult
    requires row.id in t.deliveries
  {
    var d := t.deliveries[row.id];
    var reason := Classify(error);
    var attempts := row.attempts + 1;
    if ShouldRetry(cfg.policy, reason, attempts, budgetUsed) then
      RowResult(
        Tables(t.deliveries[row.id := d.(state := Claimed, attempts := attempts, nextAttemptAt := Some(now + delay),
                                         reasonCode := Some(reason.code), leaseExpiresAt := None)],
               t.books, WithBudget(t.counters, now, budgetUsed + 1)),
        budgetUsed + 1, NOTHING.(retried := 1))
    else
      RowResult(
        Tables(t.deliveries[row.id := d.(state := DeadLettered, attempts := attempts, nextAttemptAt := None,
                                         reasonCode := Some(reason.code), leaseExpiresAt := None)],
               t.books, Bumped(t.counters, DeadLetteredCount)),
        budgetUsed, NOTHING.(deadLettered := 1))
  }

  function DrainRow(
    cfg: Config, t: Tables, now: Time, budgetUsed: int, row: Snapshot, fault: Option<Error>,
        delay: Time): (r: RowResult)
    requires row.id in t.deliveries
    ensures r.tables.deliveries.Keys == t.deliveries.Keys
  {
    match Handle(cfg, t, now, row, fault)
    case Done(tables, report) => RowResult(tables, budgetUsed, report)
    case Failed(error) => AfterFailure(cfg, t, now, budgetUsed, row, error, delay)
  }

  /** The generator a worker draws its delays from: one draw per delivery and attempt. */
  type Draws = (string, int) -> Time

  ghost predicate Jitter(policy: RetryPolicy, draws: Draws) {
    forall id, attempt: nat :: Drawable(policy, attempt, draws(id, attempt))
  }

  type Faults = string -> Option<Error>

  predicate AllKnown(t: Tables, rows: seq<Snapshot>) {
    forall r <- rows :: r.id in t.deliveries
  }

  /** The rows of a pass in turn, with no claim landing between them. */
  function DrainRows(cfg: Config, t: Tables, now: Time, rows: seq<Snapshot>, faults: Faults, draws: Draws):
      (r: RowResult)
    requires AllKnown(t, rows)
    ensures r.tables.deliveries.Keys == t.deliveries.Keys
    decreases |rows|
  {
    if rows == [] then RowResult(t, BudgetUsedAt(t.counters, now), NOTHING)
    else
      var row := rows[|rows| - 1];
      assert row in rows;
      var before := DrainRows(cfg, t, now, rows[..|rows| - 1], faults, draws);
      var step := DrainRow(cfg, before.tables, now, before.budgetUsed, row, faults(row.id), draws(row.id, row.attempts + 1));
      RowResult(step.tables, step.budgetUsed, before.report.Merge(step.report))
  }

  // ----------------------------------------------------------------- the methods

  method Settle(conn: Connection, row: Snapshot, outcome: Outcome, now: Time, policy: RetryPolicy)
    returns (report: Report)
    requires row.id in conn.tables.deliveries && !outcome.RaisedOutcome?
    modifies conn`tables
    ensures (conn.tables, report) == SettleTables(old(conn.tables), row, outcome, now, policy)
  {
    var d := conn.tables.deliveries[row.id];
    match outcome {
      case ParkedOutcome =>
        conn.UpdateDelivery(row.id, d.(state := Parked, parkedUntil := Some(now + policy.baseSeconds), leaseExpiresAt := None));
        if row.state == Parked {
          return NOTHING;
        }
        conn.Bump(ParkedCount);
        report := NOTHING.(parked := 1);
      case DuplicateOutcome =>
        conn.UpdateDelivery(row.id, d.(state := Duplicate, leaseExpiresAt := None, nextAttemptAt := None));
        conn.Bump(DedupedCount);
        report := NOTHING.(duplicate := 1);
      case AppliedOutcome =>
        conn.UpdateDelivery(row.id, d.(state := Applied, parkedUntil := None, leaseExpiresAt := None, nextAttemptAt := None));
        conn.Bump(AppliedCount);
        report := NOTHING.(applied := 1);
    }
  }

  /** The first transaction of a row: committed as a whole, or rolled back as a whole. */
  method TryRow(cfg: Config, conn: Connection, now: Time, row: Snapshot, fault: Option<Error>)
    returns (handled: Handled)
    requires conn.begun == None && conn.marked == None && RowsKeyed(conn.tables.books)
    requires row.id in conn.tables.deliveries
    modifies conn
    ensures conn.begun == None && conn.marked == None && RowsKeyed(conn.tables.books)
    ensures handled == Handle(cfg, old(conn.tables), now, row, fault)
    ensures conn.tables == if handled.Done? then handled.tables else old(conn.tables)
  {
    var _ := conn.Begin();
    var decoded := cfg.decode(row.provider, row.raw);
    if decoded.Unreadable? || fault.Some? {
      conn.Rollback();
      return Failed(if fault.Some? then fault.value else decoded.error);
    }
    var outcome := ApplyDelivery(conn, row.id, decoded.event);
    if outcome.RaisedOutcome? {
      conn.Rollback();
      return Failed(Rejected(outcome.rejection));
    }
    var report := Settle(conn, row, outcome, now, cfg.policy);
    conn.Commit();
    return Done(conn.tables, report);
  }

  /** The second transaction, after a failure. */
  method FailRow(cfg: Config, conn: Connection, now: Time, budgetUsed: int, row: Snapshot, error: Error, delay: Time)
    returns (used: int, report: Report)
    requires conn.begun == None && row.id in conn.tables.deliveries
    modifies conn`tables, conn`begun
    ensures conn.begun == None
    ensures RowResult(conn.tables, used, report) == AfterFailure(cfg, old(conn.tables), now, budgetUsed, row, error, delay)
  {
    var reason := Classify(error);
    var attempts := row.attempts + 1;
    used := budgetUsed;
    var _ := conn.Begin();
    var d := conn.tables.deliveries[row.id];
    if ShouldRetry(cfg.policy, reason, attempts, budgetUsed) {
      conn.UpdateDelivery(row.id, d.(state := Claimed, attempts := attempts, nextAttemptAt := Some(now + delay),
                                     reasonCode := Some(reason.code), leaseExpiresAt := None));
      used := used + 1;
      conn.SetCounter(BudgetMinute, Minute(now));
      conn.SetCounter(BudgetUsed, used);
      report := NOTHING.(retried := 1);
    } else {
      conn.UpdateDelivery(row.id, d.(state := DeadLettered, attempts := attempts, nextAttemptAt := None,
                                     reasonCode := Some(reason.code), leaseExpiresAt := None));
      conn.Bump(DeadLetteredCount);
      report := NOTHING.(deadLettered := 1);
    }
    conn.Commit();
  }

  method ProcessRow(cfg: Config, conn: Connection, now: Time, budgetUsed: int, row: Snapshot, fault: Option<Error>,
      delay: Time)
    returns (used: int, report: Report)
    requires conn.begun == None && conn.marked == None && RowsKeyed(conn.tables.books)
    requires row.id in conn.tables.deliveries
    modifies conn
    ensures conn.begun == None && conn.marked == None && RowsKeyed(conn.tables.books)
    ensures RowResult(conn.tables, used, report) == DrainRow(cfg, old(conn.tables), now, budgetUsed, row, fault, delay)
  {
    var handled := TryRow(cfg, conn, now, row, fault);
    if handled.Done? {
      return budgetUsed, handled.report;
    }
    used, report := FailRow(cfg, conn, now, budgetUsed, row, handled.error, delay);
  }

  lemma {:induction false} DrainRowsSnoc(cfg: Config, t: Tables, now: Time, rows: seq<Snapshot>, row: Snapshot,
      faults: Faults, draws: Draws)
    requires AllKnown(t, rows) && row.id in t.deliveries
    ensures AllKnown(t, rows + [row])
    ensures
      var before := DrainRows(cfg, t, now, rows, faults, draws);
      var step := DrainRow(cfg, before.tables, now, before.budgetUsed, row, faults(row.id), draws(row.id, row.attempts + 1));
      DrainRows(cfg, t, now, rows + [row], faults, draws) ==
      RowResult(step.tables, step.budgetUsed, before.report.Merge(step.report))
  {
    hide DrainRow;
    var more := rows + [row];
    assert more[..|rows|] == rows && more[|rows|] == row;
    forall r | r in more ensures r.id in t.deliveries {
    }
  }

  lemma {:induction false} DrainRowsEmpty(cfg: Config, t: Tables, now: Time, faults: Faults, draws: Draws)
    ensures DrainRows(cfg, t, now, [], faults, draws) == RowResult(t, BudgetUsedAt(t.counters, now), NOTHING)
  {
  }

  lemma RowsSplit(t: Tables, rows: seq<Snapshot>, n: nat)
    requires AllKnown(t, rows) && n < |rows|
    ensures AllKnown(t, rows[..n]) && rows[n].id in t.deliveries && rows[..n + 1] == rows[..n] + [rows[n]]
    ensures n + 1 == |rows| ==> rows == rows[..n] + [rows[n]]
  {
    assert forall r <- rows[..n] :: r in rows;
    assert rows[n] in rows;
  }

  lemma SelectionKnown(t: Tables, now: Time, limit: int, rows: seq<Snapshot>)
    requires Selection(t, now, limit, rows)
    ensures AllKnown(t, rows)
  {
  }

  /** One pass: the due rows in queue order, a pair of transactions for each, so that a row that fails
      costs the others nothing. */
  method DrainPass(cfg: Config, conn: Connection, now: Time, limit: int, faults: Faults, draws: Draws)
    returns (report: Report, ghost rows: seq<Snapshot>)
    requires conn.begun == None && conn.marked == None && RowsKeyed(conn.tables.books)
    modifies conn
    ensures conn.begun == None && conn.marked == None && RowsKeyed(conn.tables.books)
    ensures Selection(old(conn.tables), now, limit, rows) && AllKnown(old(conn.tables), rows)
    ensures conn.tables == DrainRows(cfg, old(conn.tables), now, rows, faults, draws).tables
    ensures report == DrainRows(cfg, old(conn.tables), now, rows, faults, draws).report
  {
    hide DrainRow, DrainRows, Selection, RowsKeyed, BudgetUsedAt;
    ghost var start := conn.tables;
    var budgetUsed := BudgetUsedAt(conn.tables.counters, now);
    var due := SelectDue(conn.tables, now, limit);
    rows := due;
    report := NOTHING;
    DrainRowsEmpty(cfg, start, now, faults, draws);
    assert due[..0] == [] && AllKnown(start, due) by {
      SelectionKnown(start, now, limit, due);
    }
    for i := 0 to |due|
      invariant conn.begun == None && conn.marked == None && RowsKeyed(conn.tables.books)
      invariant AllKnown(start, due[..i])
      invariant RowResult(conn.tables, budgetUsed, report) == DrainRows(cfg, start, now, due[..i], faults, draws)
    {
      var row := due[i];
      assert row in due && due[..i + 1] == due[..i] + [row];
      DrainRowsSnoc(cfg, start, now, due[..i], row, faults, draws);
      var rowReport: Report;
      budgetUsed, rowReport := ProcessRow(cfg, conn, now, budgetUsed, row, faults(row.id), draws(row.id, row.attempts + 1));
      report := report.Merge(rowReport);
    }
    assert due[..|due|] == due;
  }
}
