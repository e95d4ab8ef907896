/** Bounded retries over every run: per delivery, per minute, and never before their time. */
module Retries {
  import opened Wrappers
  import opened Model
  import opened Dlq
  import opened Store
  import opened Inbox
  import opened Drain
  import opened Machine
  import opened Safety

  // ------------------------------------------------------------- the attempt cap

  ghost function TotalAttempts(deliveries: map<string, Delivery>): int
    decreases |deliveries|
  {
    if deliveries == map[] then 0
    else
      var id :| id in deliveries;
      deliveries[id].attempts + TotalAttempts(deliveries - {id})
  }

  lemma {:induction false} TotalWithout(deliveries: map<string, Delivery>, id: string)
    requires id in deliveries
    ensures TotalAttempts(deliveries) == deliveries[id].attempts + TotalAttempts(deliveries - {id})
    decreases |deliveries|
  {
    var first :| first in deliveries && TotalAttempts(deliveries) == deliveries[first].attempts + TotalAttempts(deliveries - {first});
    if first != id {
      TotalWithout(deliveries - {first}, id);
      TotalWithout(deliveries - {id}, first);
      assert deliveries - {first} - {id} == deliveries - {id} - {first};
    }
  }

  lemma TotalUpdate(deliveries: map<string, Delivery>, id: string, d: Delivery)
    ensures TotalAttempts(deliveries[id := d]) ==
            TotalAttempts(deliveries) + d.attempts - (if id in deliveries then deliveries[id].attempts else 0)
  {
    var after := deliveries[id := d];
    TotalWithout(after, id);
    assert after - {id} == deliveries - {id};
    if id in deliveries {
      TotalWithout(deliveries, id);
    } else {
      assert deliveries - {id} == deliveries;
    }
  }

  lemma OneMoreTimes(cap: int, n: nat)
    ensures cap * (n + 1) == cap * n + cap
  {
  }

  lemma {:induction false} TotalBound(deliveries: map<string, Delivery>, cap: int)
    requires forall id <- deliveries :: deliveries[id].attempts <= cap
    ensures TotalAttempts(deliveries) <= cap * |deliveries|
    decreases |deliveries|
  {
    if deliveries != map[] {
      var id :| id in deliveries && TotalAttempts(deliveries) == deliveries[id].attempts + TotalAttempts(deliveries - {id});
      var rest := deliveries - {id};
      TotalBound(rest, cap);
      assert |rest| == |deliveries| - 1;
      OneMoreTimes(cap, |rest|);
    }
  }

  /** A queued row has an attempt left; no row goes over the cap; every failure is on some row. */
  ghost predicate AttemptsBounded(cfg: Config, w: World) {
    && (forall id <- w.t.deliveries ::
          && w.t.deliveries[id].attempts <= cfg.policy.maxAttempts
          && (Queued(w.t.deliveries[id].state) ==> w.t.deliveries[id].attempts < cfg.policy.maxAttempts))
    && w.history.failures == TotalAttempts(w.t.deliveries)
  }

  /** The attempts a run may still fail: what each known delivery has left. */
  ghost function AttemptsLeft(cfg: Config, w: World): int {
    cfg.policy.maxAttempts * |w.t.deliveries| - TotalAttempts(w.t.deliveries)
  }

  lemma RowAttempts(cfg: Config, w: World, fault: Option<Error>, delay: Time)
    requires PassFits(w) && Enabled(cfg, w, RowStep(fault, delay))
    requires w.history.failures == TotalAttempts(w.t.deliveries)
    ensures
      var v := RowWorld(cfg, w, fault, delay);
      && v.history.failures == TotalAttempts(v.t.deliveries) && |v.t.deliveries| == |w.t.deliveries|
      && v.history.failures - w.history.failures == AttemptsLeft(cfg, w) - AttemptsLeft(cfg, v)
  {
    hide DrainRow;
    var pass := w.pass.value;
    var row := pass.rows[0];
    assert row in pass.rows;
    RowShapeHolds(cfg, w.t, pass.now, pass.budgetUsed, row, fault, delay);
    var v := RowWorld(cfg, w, fault, delay);
    TotalUpdate(w.t.deliveries, row.id, v.t.deliveries[row.id]);
    assert v.t.deliveries.Keys == w.t.deliveries.Keys;
    assert |v.t.deliveries| == |v.t.deliveries.Keys|;
  }

  lemma AttemptsKept(cfg: Config, w: World, s: Step)
    requires cfg.policy.maxAttempts >= 1 && PassFits(w) && AttemptsBounded(cfg, w)
    ensures AttemptsBounded(cfg, Next(cfg, w, s))
  {
    hide DrainRow, TotalAttempts;
    if Enabled(cfg, w, s) {
      var u := Next(cfg, w, s).t;
      match s
      case ClaimStep(provider, identity, raw, lease) =>
        var id := DeliveryId(provider, identity);
        if u != w.t {
          TotalUpdate(w.t.deliveries, id, u.deliveries[id]);
        }
      case ParkStep(id, until) => TotalUpdate(w.t.deliveries, id, u.deliveries[id]);
      case RowStep(fault, delay) =>
        var pass := w.pass.value;
        assert pass.rows[0] in pass.rows;
        RowShapeHolds(cfg, w.t, pass.now, pass.budgetUsed, pass.rows[0], fault, delay);
        RowAttempts(cfg, w, fault, delay);
      case _ =>
    }
  }

  /** No retry storm. Whatever the run, no delivery is tried more than the cap allows, so all
      failures together number at most the cap times the deliveries. */
  lemma {:induction false} NoRetryStorm(cfg: Config, clock: Time, steps: seq<Step>)
    requires cfg.policy.maxAttempts >= 1
    ensures
      var w := Run(cfg, Start(clock), steps);
      PassFits(w) && AttemptsBounded(cfg, w)
      && w.history.failures <= cfg.policy.maxAttempts * |w.t.deliveries|
    decreases |steps|
  {
    if steps != [] {
      var front, last := steps[..|steps| - 1], steps[|steps| - 1];
      NoRetryStorm(cfg, clock, front);
      PassFitsKept(cfg, Run(cfg, Start(clock), front), last);
      AttemptsKept(cfg, Run(cfg, Start(clock), front), last);
    }
    TotalBound(Run(cfg, Start(clock), steps).t.deliveries, cfg.policy.maxAttempts);
  }

  /** Each failure uses up exactly one of the attempts left, which are never fewer than none; only a
      new delivery adds to them. */
  lemma FailureUsesAnAttempt(cfg: Config, w: World, s: Step)
    requires cfg.policy.maxAttempts >= 1 && PassFits(w) && AttemptsBounded(cfg, w)
    ensures
      var v := Next(cfg, w, s);
      && AttemptsLeft(cfg, v) >= 0
      && w.history.failures <= v.history.failures <= w.history.failures + 1
      && AttemptsLeft(cfg, v) == AttemptsLeft(cfg, w) - (v.history.failures - w.history.failures)
           + cfg.policy.maxAttempts * (|v.t.deliveries| - |w.t.deliveries|)
  {
    hide DrainRow;
    AttemptsKept(cfg, w, s);
    TotalBound(Next(cfg, w, s).t.deliveries, cfg.policy.maxAttempts);
    if Enabled(cfg, w, s) && s.RowStep? {
      RowAttempts(cfg, w, s.fault, s.delay);
    }
  }

  // ------------------------------------------------------------- the global budget

  /** The stored counters and the pass agree with the retries actually scheduled this minute, and
      none is recorded for a minute still to come. */
  ghost predicate BudgetKept(cfg: Config, w: World) {
    var h, c := w.history, w.t.counters;
    && (forall m: int :: RetriesIn(h, m) <= Max(0, cfg.policy.budgetPerMinute))
    && (forall m: int :: m > Minute(w.clock) ==> RetriesIn(h, m) == 0)
    && (BudgetMinute !in c ==> forall m: int :: RetriesIn(h, m) == 0)
    && (BudgetMinute in c ==>
          && c[BudgetMinute] <= Minute(w.clock)
          && BudgetUsed in c && c[BudgetUsed] == RetriesIn(h, c[BudgetMinute])
          && forall m: int :: m > c[BudgetMinute] ==> RetriesIn(h, m) == 0)
    && (w.pass.Some? ==>
          && w.pass.value.now <= w.clock
          && (BudgetMinute in c ==> c[BudgetMinute] <= Minute(w.pass.value.now))
          && w.pass.value.budgetUsed == RetriesIn(h, Minute(w.pass.value.now)))
  }

  predicate SameBudget(before: map<Counter, int>, after: map<Counter, int>) {
    && (BudgetMinute in before <==> BudgetMinute in after) && (BudgetUsed in before <==> BudgetUsed in after)
    && (BudgetMinute in before ==> after[BudgetMinute] == before[BudgetMinute])
    && (BudgetUsed in before ==> after[BudgetUsed] == before[BudgetUsed])
  }

  /** What one row adds to the tallies of a run. */
  lemma RowTallies(cfg: Config, w: World, fault: Option<Error>, delay: Time, m: int)
    requires Enabled(cfg, w, RowStep(fault, delay))
    ensures
      var pass, v := w.pass.value, RowWorld(cfg, w, fault, delay);
      var one := if v.t.deliveries[pass.rows[0].id].state == Claimed then 1 else 0;
      && v.clock == w.clock && v.pass.Some? && v.pass.value.now == pass.now
          && v.pass.value.budgetUsed == pass.budgetUsed + one
      && (one == 1 ==> pass.budgetUsed < cfg.policy.budgetPerMinute
                       && pass.rows[0].attempts + 1 < cfg.policy.maxAttempts
                       && v.t.counters == WithBudget(w.t.counters, pass.now, pass.budgetUsed + 1))
      && (one == 0 ==> SameBudget(w.t.counters, v.t.counters))
      && RetriesIn(v.history, m) == RetriesIn(w.history, m) + (if m == Minute(pass.now) then one else 0)
      && CommittedIn(v.history, m) == CommittedIn(w.history, m) + (if m == Minute(w.clock) then one else 0)
      && TallyOf(v.history.carried, m) == TallyOf(w.history.carried, m) +
         (if m == Minute(w.clock) && Minute(pass.now) != Minute(w.clock) then one else 0)
  {
    hide DrainRow;
    RowShapeHolds(cfg, w.t, w.pass.value.now, w.pass.value.budgetUsed, w.pass.value.rows[0], fault, delay);
  }

  lemma BudgetRow(cfg: Config, w: World, fault: Option<Error>, delay: Time)
    requires BudgetKept(cfg, w) && Enabled(cfg, w, RowStep(fault, delay))
    ensures BudgetKept(cfg, RowWorld(cfg, w, fault, delay))
  {
    hide RowWorld, RetriesIn, CommittedIn, TallyOf, Minute;
    MinuteMonotone(w.pass.value.now, w.clock);
    forall m: int {
      RowTallies(cfg, w, fault, delay, m);
    }
    RowTallies(cfg, w, fault, delay, Minute(w.pass.value.now));
    hide Enabled;
  }

  lemma BudgetStep(cfg: Config, w: World, s: Step)
    requires BudgetKept(cfg, w)
    ensures BudgetKept(cfg, Next(cfg, w, s))
  {
    hide RowWorld;
    if Enabled(cfg, w, s) {
      match s
      case RowStep(fault, delay) => BudgetRow(cfg, w, fault, delay);
      case Tick(seconds) => MinuteMonotone(w.clock, w.clock + seconds);
      case _ =>
    }
  }

  /** The global retry budget holds over any number of passes, crashes included: the passes that begin
      within one minute schedule no more retries than the policy allows. */
  lemma {:induction false} RetryBudget(cfg: Config, clock: Time, steps: seq<Step>, minute: int)
    ensures BudgetKept(cfg, Run(cfg, Start(clock), steps))
    ensures RetriesIn(Run(cfg, Start(clock), steps).history, minute) <= Max(0, cfg.policy.budgetPerMinute)
    decreases |steps|
  {
    if steps != [] {
      RetryBudget(cfg, clock, steps[..|steps| - 1], minute);
      BudgetStep(cfg, Run(cfg, Start(clock), steps[..|steps| - 1]), steps[|steps| - 1]);
    }
  }

  /** Of the retries scheduled while the clock stands in a minute, those of passes begun in it are
      within the budget, and so are those carried over, since at most one pass can be open when the
      minute starts. */
  ghost predicate CarriedKept(cfg: Config, w: World) {
    var h := w.history;
    && (forall m: int :: CommittedIn(h, m) <= RetriesIn(h, m) + TallyOf(h.carried, m))
    && (forall m: int :: TallyOf(h.carried, m) <= Max(0, cfg.policy.budgetPerMinute))
    && (forall m: int :: m > Minute(w.clock) ==> TallyOf(h.carried, m) == 0)
    && (w.pass.Some? && Minute(w.pass.value.now) < Minute(w.clock) ==>
          TallyOf(h.carried, Minute(w.clock)) <= w.pass.value.budgetUsed)
  }

  lemma CarriedRow(cfg: Config, w: World, fault: Option<Error>, delay: Time)
    requires BudgetKept(cfg, w) && CarriedKept(cfg, w) && Enabled(cfg, w, RowStep(fault, delay))
    ensures CarriedKept(cfg, RowWorld(cfg, w, fault, delay))
  {
    hide RowWorld, RetriesIn, CommittedIn, TallyOf, Minute, SameBudget;
    MinuteMonotone(w.pass.value.now, w.clock);
    forall m: int {
      RowTallies(cfg, w, fault, delay, m);
    }
    RowTallies(cfg, w, fault, delay, Minute(w.clock));
    hide Enabled;
  }

  lemma CarriedStep(cfg: Config, w: World, s: Step)
    requires BudgetKept(cfg, w) && CarriedKept(cfg, w)
    ensures CarriedKept(cfg, Next(cfg, w, s))
  {
    hide RowWorld;
    if Enabled(cfg, w, s) {
      match s
      case RowStep(fault, delay) => CarriedRow(cfg, w, fault, delay);
      case Tick(seconds) => MinuteMonotone(w.clock, w.clock + seconds);
      case _ =>
    }
  }

  /** By the clock itself the bound is twice the budget: a pass that is still going when a minute starts
      spends what its own minute left it, and the passes begun in the new minute spend theirs. */
  lemma {:induction false} ClockBudget(cfg: Config, clock: Time, steps: seq<Step>, minute: int)
    ensures CarriedKept(cfg, Run(cfg, Start(clock), steps))
    ensures CommittedIn(Run(cfg, Start(clock), steps).history, minute) <= 2 * Max(0, cfg.policy.budgetPerMinute)
    decreases |steps|
  {
    RetryBudget(cfg, clock, steps, minute);
    if steps != [] {
      var front := steps[..|steps| - 1];
      ClockBudget(cfg, clock, front, minute);
      RetryBudget(cfg, clock, front, minute);
      CarriedStep(cfg, Run(cfg, Start(clock), front), steps[|steps| - 1]);
    }
  }

  /** Every row is taken in the minute its pass began in. */
  ghost predicate Prompt(cfg: Config, clock: Time, steps: seq<Step>) {
    forall n :: 0 <= n < |steps| && steps[n].RowStep? ==> InItsMinute(Run(cfg, Start(clock), steps[..n]))
  }

  predicate InItsMinute(w: World) {
    w.pass.Some? ==> Minute(w.pass.value.now) == Minute(w.clock)
  }

  lemma {:induction false} PromptFront(cfg: Config, clock: Time, steps: seq<Step>)
    requires Prompt(cfg, clock, steps) && steps != []
    ensures
      var front, last := steps[..|steps| - 1], steps[|steps| - 1];
      Prompt(cfg, clock, front) && (last.RowStep? ==> InItsMinute(Run(cfg, Start(clock), front)))
  {
    hide Run, InItsMinute;
    var front := steps[..|steps| - 1];
    assert forall n :: 0 <= n <= |front| ==> front[..n] == steps[..n];
  }

  lemma PromptStep(cfg: Config, w: World, s: Step, minute: int)
    requires s.RowStep? ==> InItsMinute(w)
    requires CommittedIn(w.history, minute) == RetriesIn(w.history, minute)
    ensures CommittedIn(Next(cfg, w, s).history, minute) == RetriesIn(Next(cfg, w, s).history, minute)
  {
    hide RowWorld;
    if Enabled(cfg, w, s) && s.RowStep? {
      RowTallies(cfg, w, s.fault, s.delay, minute);
    }
  }

  /** Where no pass outlasts its minute the budget holds by the clock as well. */
  lemma {:induction false} PromptBudget(cfg: Config, clock: Time, steps: seq<Step>, minute: int)
    requires Prompt(cfg, clock, steps)
    ensures
      var h := Run(cfg, Start(clock), steps).history;
      CommittedIn(h, minute) == RetriesIn(h, minute) <= Max(0, cfg.policy.budgetPerMinute)
    decreases |steps|
  {
    hide Prompt, InItsMinute, CommittedIn, RetriesIn, Next;
    RetryBudget(cfg, clock, steps, minute);
    if steps != [] {
      var front := steps[..|steps| - 1];
      PromptFront(cfg, clock, steps);
      PromptBudget(cfg, clock, front, minute);
      PromptStep(cfg, Run(cfg, Start(clock), front), steps[|steps| - 1], minute);
    } else {
      NothingYet(clock, minute);
    }
  }

  lemma NothingYet(clock: Time, minute: int)
    ensures CommittedIn(Start(clock).history, minute) == RetriesIn(Start(clock).history, minute) == 0
  {
  }

  lemma OneAttemptStep(cfg: Config, w: World, s: Step, minute: int)
    requires cfg.policy.maxAttempts <= 1 && CommittedIn(w.history, minute) == 0
    ensures CommittedIn(Next(cfg, w, s).history, minute) == 0
  {
    hide RowWorld;
    if Enabled(cfg, w, s) && s.RowStep? {
      RowTallies(cfg, w, s.fault, s.delay, minute);
    }
  }

  /** And where a delivery is attempted once at most, nothing is ever scheduled. */
  lemma {:induction false} OneAttempt(cfg: Config, clock: Time, steps: seq<Step>, minute: int)
    requires cfg.policy.maxAttempts <= 1
    ensures CommittedIn(Run(cfg, Start(clock), steps).history, minute) == 0
    decreases |steps|
  {
    hide CommittedIn, Next;
    if steps != [] {
      OneAttempt(cfg, clock, steps[..|steps| - 1], minute);
      OneAttemptStep(cfg, Run(cfg, Start(clock), steps[..|steps| - 1]), steps[|steps| - 1], minute);
    } else {
      NothingYet(clock, minute);
    }
  }

  // ------------------------------------------------------------------ the backoff

  /** The delivery waits for its scheduled retry: attempted before, not to be touched until then. */
  ghost predicate Waiting(w: World, id: string, attempts: int, until: Time) {
    && id in w.t.deliveries && Queued(w.t.deliveries[id].state)
    && w.t.deliveries[id].attempts == attempts && attempts != 0
    && w.t.deliveries[id].nextAttemptAt == Some(until)
    && (w.pass.Some? ==> forall r <- w.pass.value.rows :: r.id != id)
  }

  /** A failed row that is retried waits, from the pass's own time, for a delay full jitter may draw. */
  lemma FailureSchedules(cfg: Config, w: World, fault: Option<Error>, delay: Time)
    requires PassFits(w) && Enabled(cfg, w, RowStep(fault, delay))
    ensures
      var v := RowWorld(cfg, w, fault, delay);
      var id, now, attempt := w.pass.value.rows[0].id, w.pass.value.now, w.pass.value.rows[0].attempts + 1;
      v.t.deliveries[id].state == Claimed ==>
        && Waiting(v, id, attempt, now + delay)
        && (Ceiling(cfg.policy, attempt) >= 0.0 ==>
              now <= now + delay <= now + Ceiling(cfg.policy, attempt)
              && Ceiling(cfg.policy, attempt) <= cfg.policy.maxSeconds
              && Ceiling(cfg.policy, attempt) <= cfg.policy.baseSeconds * Pow2(attempt) as real)
  {
    hide DrainRow;
    var pass := w.pass.value;
    assert pass.rows[0] in pass.rows;
    RowShapeHolds(cfg, w.t, pass.now, pass.budgetUsed, pass.rows[0], fault, delay);
  }

  lemma WaitingKept(cfg: Config, w: World, s: Step, id: string, attempts: int, until: Time)
    requires PassFits(w) && Waiting(w, id, attempts, until) && w.clock < until
    ensures Waiting(Next(cfg, w, s), id, attempts, until)
  {
    hide DrainRow;
    if Enabled(cfg, w, s) {
      match s
      case ClaimStep(provider, identity, raw, lease) =>
        ClaimRespectsRow(w.t, provider, DeliveryId(provider, identity), raw, w.clock, lease, id);
      case RowStep(fault, delay) =>
        var pass := w.pass.value;
        assert pass.rows[0] in pass.rows;
        RowShapeHolds(cfg, w.t, pass.now, pass.budgetUsed, pass.rows[0], fault, delay);
      case _ =>
    }
  }

  /** Backoff survives redelivery: until the clock reaches the scheduled time no claim moves it and
      no pass selects the row, whatever the run. */
  lemma {:induction false} BackoffSurvives(cfg: Config, w: World, steps: seq<Step>, id: string, attempts: int,
      until: Time)
    requires PassFits(w) && Waiting(w, id, attempts, until)
    ensures PassFits(Run(cfg, w, steps)) && w.clock <= Run(cfg, w, steps).clock
    ensures Run(cfg, w, steps).clock < until ==> Waiting(Run(cfg, w, steps), id, attempts, until)
    decreases |steps|
  {
    if steps != [] {
      var front, last := steps[..|steps| - 1], steps[|steps| - 1];
      BackoffSurvives(cfg, w, front, id, attempts, until);
      var v := Run(cfg, w, front);
      PassFitsKept(cfg, v, last);
      ClockMonotone(cfg, v, last);
      if v.clock < until {
        WaitingKept(cfg, v, last, id, attempts, until);
      }
    }
  }
}
