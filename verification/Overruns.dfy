/** When the clock's own minute keeps the retry budget: only where the budget or the cap rules retries out.
    Otherwise a pass that outlasts its minute brings the retries of one minute to twice the budget. */
module Overruns {
  import opened Wrappers
  import opened Ordering
  import opened Model
  import opened Dlq
  import opened Store
  import opened Inbox
  import opened Drain
  import opened Machine
  import opened Retries

  // ---------------------------------------------------------------- the deliveries

  function NameOf(i: nat): string {
    DeliveryId(Stripe, Ident(i))
  }

  lemma NamesAscend(i: nat, j: nat)
    requires i < j
    ensures Less(NameOf(i), NameOf(j)) && NameOf(i) != NameOf(j)
  {
    IdentsAscend(i, j);
    PrefixKeepsOrder("stripe" + ":", Ident(i), Ident(j));
    LessTotal(NameOf(i), NameOf(j));
  }

  function ClaimOf(i: nat): Step {
    ClaimStep(Stripe, Ident(i), [], 30.0)
  }

  function RowOf(i: nat): Snapshot {
    Snapshot(NameOf(i), Stripe, [], 0, Claimed)
  }

  function ClaimsOf(from: nat, n: nat): seq<Step> {
    seq(n, i requires 0 <= i < n => ClaimOf(from + i))
  }

  function RowsFrom(from: nat, n: nat): (rows: seq<Snapshot>)
    ensures |rows| == n && forall k :: 0 <= k < n ==> rows[k] == RowOf(from + k)
  {
    seq(n, i requires 0 <= i < n => RowOf(from + i))
  }

  /** The deliveries from lo up to hi are as they were claimed at second 59. */
  ghost predicate Fresh59(t: Tables, lo: nat, hi: nat) {
    forall i: nat :: lo <= i < hi ==>
      NameOf(i) in t.deliveries && t.deliveries[NameOf(i)] == Received(Stripe, [], 59.0, 30.0)
  }

  /** Nothing else is queued but deliveries from lo up to hi, all of them received at second 59. */
  ghost predicate Within(t: Tables, lo: nat, hi: nat) {
    forall id <- t.deliveries :: t.deliveries[id].receivedAt == 59.0 && exists i: nat :: lo <= i < hi && NameOf(i) == id
  }

  lemma ClaimLands(cfg: Config, w: World, i: nat)
    requires w.clock == 59.0 && NameOf(i) !in w.t.deliveries
    ensures
      Next(cfg, w, ClaimOf(i)) ==
      w.(t := w.t.(deliveries := w.t.deliveries[NameOf(i) := Received(Stripe, [], 59.0, 30.0)]))
  {
  }

  /** Claims add their deliveries and touch nothing else. */
  ghost predicate Landed(w: World, v: World, from: nat, n: nat) {
    && v == w.(t := w.t.(deliveries := v.t.deliveries)) && Fresh59(v.t, from, from + n)
    && (forall id <- w.t.deliveries :: id in v.t.deliveries && v.t.deliveries[id] == w.t.deliveries[id])
    && (forall id <- v.t.deliveries :: id in w.t.deliveries || exists i: nat :: from <= i < from + n && NameOf(i) == id)
  }

  lemma OneMoreLanded(w: World, v: World, u: World, from: nat, n: nat)
    requires Landed(w, v, from, n) && NameOf(from + n) !in v.t.deliveries
    requires u == v.(t := v.t.(deliveries := v.t.deliveries[NameOf(from + n) := Received(Stripe, [], 59.0, 30.0)]))
    ensures Landed(w, u, from, n + 1)
  {
    hide NameOf;
    forall id | id in u.t.deliveries
      ensures id in w.t.deliveries || exists i: nat :: from <= i < from + n + 1 && NameOf(i) == id
    {
      if id in v.t.deliveries && id !in w.t.deliveries {
        var i: nat :| from <= i < from + n && NameOf(i) == id;
      } else if id !in w.t.deliveries {
        assert NameOf(from + n) == id;
      }
    }
  }

  lemma StillFree(w: World, v: World, from: nat, n: nat)
    requires Landed(w, v, from, n) && NameOf(from + n) !in w.t.deliveries
    ensures NameOf(from + n) !in v.t.deliveries
  {
    hide NameOf;
    if NameOf(from + n) in v.t.deliveries {
      var i: nat :| from <= i < from + n && NameOf(i) == NameOf(from + n);
      NamesAscend(i, from + n);
      assert false;
    }
  }

  lemma {:induction false} ClaimsLand(cfg: Config, w: World, from: nat, n: nat)
    requires w.clock == 59.0 && forall i: nat :: from <= i < from + n ==> NameOf(i) !in w.t.deliveries
    ensures Landed(w, Run(cfg, w, ClaimsOf(from, n)), from, n)
    decreases n
  {
    hide NameOf, Next, ClaimOf;
    if n > 0 {
      ClaimsLand(cfg, w, from, n - 1);
      var v := Run(cfg, w, ClaimsOf(from, n - 1));
      StillFree(w, v, from, n - 1);
      ClaimLands(cfg, v, from + n - 1);
      OneMoreLanded(w, v, Next(cfg, v, ClaimOf(from + n - 1)), from, n - 1);
      assert ClaimsOf(from, n) == ClaimsOf(from, n - 1) + [ClaimOf(from + n - 1)];
      RunSnoc(cfg, w, ClaimsOf(from, n - 1), ClaimOf(from + n - 1));
    }
  }

  // ----------------------------------------------------------------- the selection

  lemma RowFresh(t: Tables, now: Time, lo: nat, n: nat, k: nat)
    requires now >= 59.0 && k < n && Fresh59(t, lo, lo + n)
    ensures
      var r := RowsFrom(lo, n)[k];
      && r.id == NameOf(lo + k) && r.id in t.deliveries && t.deliveries[r.id].receivedAt == 59.0
      && Due(t.deliveries[r.id], now) && r == SnapshotOf(r.id, t.deliveries[r.id])
  {
    hide NameOf, RowsFrom;
    assert RowsFrom(lo, n)[k] == RowOf(lo + k);
  }

  lemma RowSelected(t: Tables, now: Time, lo: nat, n: nat, hi: nat, id: string)
    requires now >= 59.0 && lo + n <= hi && Fresh59(t, lo, lo + n) && Within(t, lo, hi) && id in t.deliveries
    ensures
      || SnapshotOf(id, t.deliveries[id]) in RowsFrom(lo, n)
      || forall r <- RowsFrom(lo, n) :: r.id in t.deliveries && Earlier(QueueKey(t, r.id), QueueKey(t, id))
  {
    hide NameOf, Less, Due;
    var i: nat :| lo <= i < hi && NameOf(i) == id;
    var rows := RowsFrom(lo, n);
    if i < lo + n {
      RowFresh(t, now, lo, n, i - lo);
      assert rows[i - lo] in rows;
    } else {
      forall r | r in rows ensures r.id in t.deliveries && Earlier(QueueKey(t, r.id), QueueKey(t, id)) {
        var k :| 0 <= k < n && rows[k] == r;
        RowFresh(t, now, lo, n, k);
        NamesAscend(lo + k, i);
      }
    }
  }

  /** A pass limited to the first n of the deliveries takes exactly those. */
  lemma FirstSelected(t: Tables, now: Time, lo: nat, n: nat, hi: nat)
    requires now >= 59.0 && lo + n <= hi && Fresh59(t, lo, lo + n) && Within(t, lo, hi)
    ensures Selection(t, now, n, RowsFrom(lo, n))
  {
    var rows := RowsFrom(lo, n);
    hide NameOf, Less, Due, Fresh59, Within;
    forall r | r in rows
      ensures r.id in t.deliveries && Due(t.deliveries[r.id], now) && r == SnapshotOf(r.id, t.deliveries[r.id])
    {
      var k :| 0 <= k < n && rows[k] == r;
      RowFresh(t, now, lo, n, k);
    }
    forall i, j | 0 <= i < j < n ensures Earlier(QueueKey(t, rows[i].id), QueueKey(t, rows[j].id)) {
      RowFresh(t, now, lo, n, i);
      RowFresh(t, now, lo, n, j);
      NamesAscend(lo + i, lo + j);
    }
    forall id | id in t.deliveries
      ensures SnapshotOf(id, t.deliveries[id]) in rows
              || forall r <- rows :: r.id in t.deliveries && Earlier(QueueKey(t, r.id), QueueKey(t, id))
    {
      RowSelected(t, now, lo, n, hi, id);
    }
  }

  // ------------------------------------------------------------------ the failures

  const LOCKED := RowStep(Some(OperationalError), 0.0)

  function Volley(n: nat): seq<Step> {
    seq(n, i => LOCKED)
  }

  /** k rows of the pass met a locked database, and each was scheduled again. */
  ghost predicate Rescheduled(w: World, v: World, k: nat)
    requires w.pass.Some? && k <= |w.pass.value.rows|
  {
    var pass := w.pass.value;
    && v.clock == w.clock && v.pass == Some(Pass(pass.now, pass.budgetUsed + k, pass.rows[k..]))
    && v.t.deliveries.Keys == w.t.deliveries.Keys
    && (forall id <- w.t.deliveries ::
          && id in v.t.deliveries && v.t.deliveries[id].receivedAt == w.t.deliveries[id].receivedAt
          && ((forall r <- pass.rows :: r.id != id) ==> v.t.deliveries[id] == w.t.deliveries[id]))
    && (k > 0 ==> BudgetMinute in v.t.counters && v.t.counters[BudgetMinute] == Minute(pass.now))
    && CommittedIn(v.history, Minute(w.clock)) == CommittedIn(w.history, Minute(w.clock)) + k
  }

  /** The rows of the pass are known, unattempted, and within what the budget has left. */
  ghost predicate Eligible(cfg: Config, w: World) {
    && w.pass.Some? && cfg.policy.maxAttempts >= 2
    && w.pass.value.budgetUsed + |w.pass.value.rows| <= cfg.policy.budgetPerMinute
    && forall r <- w.pass.value.rows :: r.attempts == 0 && r.id in w.t.deliveries
  }

  lemma LockedRow(cfg: Config, w: World)
    requires Eligible(cfg, w) && w.pass.value.rows != []
    ensures Rescheduled(w, Next(cfg, w, LOCKED), 1)
  {
    var row := w.pass.value.rows[0];
    assert row in w.pass.value.rows;
    assert Enabled(cfg, w, LOCKED);
    assert DrainRow(cfg, w.t, w.pass.value.now, w.pass.value.budgetUsed, row, LOCKED.fault, LOCKED.delay) ==
           AfterFailure(cfg, w.t, w.pass.value.now, w.pass.value.budgetUsed, row, OperationalError, 0.0);
    hide Minute;
  }

  lemma OneMoreRescheduled(w: World, v: World, u: World, k: nat)
    requires w.pass.Some? && k < |w.pass.value.rows| && Rescheduled(w, v, k)
    requires Rescheduled(v, u, 1)
    ensures Rescheduled(w, u, k + 1)
  {
    hide Minute, CommittedIn;
    assert w.pass.value.rows[k..][1..] == w.pass.value.rows[k + 1..];
    assert forall r <- w.pass.value.rows[k..] :: r in w.pass.value.rows;
    forall id | id in w.t.deliveries
      ensures id in u.t.deliveries && u.t.deliveries[id].receivedAt == w.t.deliveries[id].receivedAt {
      assert id in v.t.deliveries;
    }
  }

  lemma StaysEligible(cfg: Config, w: World, v: World, k: nat)
    requires Eligible(cfg, w) && k < |w.pass.value.rows| && Rescheduled(w, v, k)
    ensures Eligible(cfg, v) && v.pass.value.rows != []
  {
    assert forall r <- w.pass.value.rows[k..] :: r in w.pass.value.rows;
    forall r | r in v.pass.value.rows ensures r.id in v.t.deliveries {
      assert r.id in w.t.deliveries;
    }
  }

  lemma {:induction false} VolleyReschedules(cfg: Config, w: World, k: nat)
    requires Eligible(cfg, w) && k <= |w.pass.value.rows|
    ensures Rescheduled(w, Run(cfg, w, Volley(k)), k)
    decreases k
  {
    hide Next, Minute, CommittedIn;
    if k > 0 {
      VolleyReschedules(cfg, w, k - 1);
      var v := Run(cfg, w, Volley(k - 1));
      StaysEligible(cfg, w, v, k - 1);
      LockedRow(cfg, v);
      OneMoreRescheduled(w, v, Next(cfg, v, LOCKED), k - 1);
      assert Volley(k) == Volley(k - 1) + [LOCKED];
      RunSnoc(cfg, w, Volley(k - 1), LOCKED);
    }
  }

  // ---------------------------------------------------------------------- the run

  /** b deliveries are claimed and selected at second 59; while that pass waits, b more are claimed, which
      come before them in the queue; then the clock enters the next minute. */
  function Opening(b: nat): seq<Step> {
    ClaimsOf(b, b) + [BeginPass(b, RowsFrom(b, b))] + ClaimsOf(0, b) + [Tick(2.0)]
  }

  /** The pass meets a locked database on every row, and so does the next one. */
  function Overrun(b: nat): seq<Step> {
    Opening(b) + Volley(b) + [EndPass] + [BeginPass(b, RowsFrom(0, b))] + Volley(b)
  }

  /** At second 61 a pass of second 59 is about to start on its b rows, and b other deliveries are due. */
  ghost predicate Stalled(w: World, b: nat) {
    && w.clock == 61.0 && w.pass == Some(Pass(59.0, 0, RowsFrom(b, b)))
    && Fresh59(w.t, 0, b) && Fresh59(w.t, b, b + b) && Within(w.t, 0, b + b) && CommittedIn(w.history, 1) == 0
  }

  lemma SecondsMinutes()
    ensures Minute(59.0) == 0 && Minute(61.0) == 1
  {
  }

  lemma BothLanded(cfg: Config, w: World, v: World, u: World, b: nat)
    requires w == Start(59.0) && Landed(w, v, b, b)
    requires Landed(v.(pass := Some(Pass(59.0, 0, RowsFrom(b, b)))), u, 0, b)
    ensures Stalled(u.(clock := 61.0), b)
  {
    hide NameOf;
    forall id | id in u.t.deliveries
      ensures u.t.deliveries[id].receivedAt == 59.0 && exists i: nat :: 0 <= i < b + b && NameOf(i) == id
    {
      if id in v.t.deliveries {
        var i: nat :| b <= i < b + b && NameOf(i) == id;
      } else {
        var i: nat :| 0 <= i < b && NameOf(i) == id;
      }
    }
  }

  lemma NamesFree(w: World, v: World, b: nat)
    requires w == Start(59.0) && Landed(w, v, b, b)
    ensures forall i: nat :: 0 <= i < b ==> NameOf(i) !in v.t.deliveries
    ensures Fresh59(v.t, b, b + b) && Within(v.t, b, b + b) && BudgetUsedAt(v.t.counters, 59.0) == 0
  {
    hide NameOf;
    forall i: nat | 0 <= i < b ensures NameOf(i) !in v.t.deliveries {
      if NameOf(i) in v.t.deliveries {
        var k: nat :| b <= k < b + b && NameOf(k) == NameOf(i);
        NamesAscend(i, k);
        assert false;
      }
    }
    forall id | id in v.t.deliveries
      ensures v.t.deliveries[id].receivedAt == 59.0 && exists i: nat :: b <= i < b + b && NameOf(i) == id {
      var i: nat :| b <= i < b + b && NameOf(i) == id;
    }
  }

  lemma Begins(cfg: Config, w: World, limit: int, rows: seq<Snapshot>)
    requires w.pass.None? && Selection(w.t, w.clock, limit, rows)
    ensures Next(cfg, w, BeginPass(limit, rows)) ==
            w.(pass := Some(Pass(w.clock, BudgetUsedAt(w.t.counters, w.clock), rows)))
  {
    hide Selection;
  }

  lemma {:induction false} OpeningStalls(cfg: Config, b: nat)
    ensures Stalled(Run(cfg, Start(59.0), Opening(b)), b)
  {
    hide NameOf, Next, Landed, Stalled, Selection, RowsFrom, ClaimsOf, Fresh59, Within;
    var w := Start(59.0);
    NothingClaimed();
    ClaimsLand(cfg, w, b, b);
    var v := Run(cfg, w, ClaimsOf(b, b));
    NamesFree(w, v, b);
    ShapeKept(w, v, b, b);
    FirstSelected(v.t, 59.0, b, b, b + b);
    Begins(cfg, v, b, RowsFrom(b, b));
    RunSnoc(cfg, w, ClaimsOf(b, b), BeginPass(b, RowsFrom(b, b)));
    var begun := Next(cfg, v, BeginPass(b, RowsFrom(b, b)));
    ClaimsLand(cfg, begun, 0, b);
    RunAppend(cfg, w, ClaimsOf(b, b) + [BeginPass(b, RowsFrom(b, b))], ClaimsOf(0, b));
    var u := Run(cfg, begun, ClaimsOf(0, b));
    ShapeKept(begun, u, 0, b);
    RunSnoc(cfg, w, ClaimsOf(b, b) + [BeginPass(b, RowsFrom(b, b))] + ClaimsOf(0, b), Tick(2.0));
    BothLanded(cfg, w, v, u, b);
    Ticks(cfg, u);
  }

  lemma NothingClaimed()
    ensures Start(59.0).t.deliveries == map[] && Start(59.0).clock == 59.0 && Start(59.0).pass.None?
  {
  }

  lemma ShapeKept(w: World, v: World, from: nat, n: nat)
    requires Landed(w, v, from, n)
    ensures v.clock == w.clock && v.pass == w.pass && v.history == w.history
  {
  }

  lemma Ticks(cfg: Config, w: World)
    ensures Next(cfg, w, Tick(2.0)) == w.(clock := w.clock + 2.0)
  {
  }

  lemma Ends(cfg: Config, w: World)
    requires w.pass.Some?
    ensures Next(cfg, w, EndPass) == w.(pass := None)
  {
  }

  /** After the first volley the minute has b retries, none of them charged to it, and the next pass
      starts on the other deliveries with a full budget. */
  lemma {:induction false} Resumes(cfg: Config, w: World, v: World, b: nat)
    requires b >= 1 && cfg.policy.budgetPerMinute == b && cfg.policy.maxAttempts >= 2
    requires Stalled(w, b) && Rescheduled(w, v, b)
    ensures
      var u := Next(cfg, Next(cfg, v, EndPass), BeginPass(b, RowsFrom(0, b)));
      && Eligible(cfg, u) && u.pass == Some(Pass(61.0, 0, RowsFrom(0, b))) && u.clock == 61.0
      && CommittedIn(u.history, 1) == b
  {
    hide *;
    Resumable(w, v, b);
    StillFirst(w, v, b);
    FirstSelected(v.t, 61.0, 0, b, b + b);
    Ends(cfg, v);
    Begins(cfg, v.(pass := None), b, RowsFrom(0, b));
    FreshEligible(cfg, v.(pass := Some(Pass(61.0, 0, RowsFrom(0, b)))), 0, b);
  }

  lemma Resumable(w: World, v: World, b: nat)
    requires b >= 1 && Stalled(w, b) && Rescheduled(w, v, b)
    ensures v.pass.Some? && v.clock == 61.0 && BudgetUsedAt(v.t.counters, 61.0) == 0 && CommittedIn(v.history, 1) == b
  {
    SecondsMinutes();
    hide NameOf, Fresh59, Within, Minute, CommittedIn;
  }

  lemma FreshEligible(cfg: Config, w: World, lo: nat, n: nat)
    requires w.pass.Some? && w.pass.value.rows == RowsFrom(lo, n) && w.pass.value.budgetUsed == 0
    requires cfg.policy.budgetPerMinute == n && cfg.policy.maxAttempts >= 2 && Fresh59(w.t, lo, lo + n)
    ensures Eligible(cfg, w)
  {
    hide NameOf;
    forall r | r in RowsFrom(lo, n) ensures r.attempts == 0 && r.id in w.t.deliveries {
      var k :| 0 <= k < n && RowsFrom(lo, n)[k] == r;
      RowFresh(w.t, 59.0, lo, n, k);
    }
  }

  lemma StillFirst(w: World, v: World, b: nat)
    requires Stalled(w, b) && Rescheduled(w, v, b)
    ensures Fresh59(v.t, 0, b) && Within(v.t, 0, b + b)
  {
    hide NameOf, Minute, CommittedIn;
    forall i: nat | 0 <= i < b
      ensures NameOf(i) in v.t.deliveries && v.t.deliveries[NameOf(i)] == w.t.deliveries[NameOf(i)]
    {
      forall r | r in RowsFrom(b, b) ensures r.id != NameOf(i) {
        var k :| 0 <= k < b && RowsFrom(b, b)[k] == r;
        NamesAscend(i, b + k);
      }
    }
    forall id | id in v.t.deliveries
      ensures v.t.deliveries[id].receivedAt == 59.0 && exists i: nat :: 0 <= i < b + b && NameOf(i) == id {
      assert id in v.t.deliveries.Keys && id in w.t.deliveries;
    }
  }

  /** Twice the budget is reached, for every positive budget and every cap that leaves a second attempt. */
  lemma {:induction false} BudgetOverrun(cfg: Config, b: nat)
    requires b >= 1 && cfg.policy.budgetPerMinute == b && cfg.policy.maxAttempts >= 2
    ensures CommittedIn(Run(cfg, Start(59.0), Overrun(b)).history, 1) == 2 * b
  {
    hide Next, NameOf, Stalled, Rescheduled, Eligible, Selection, RowsFrom, Opening, Volley, CommittedIn, Minute;
    SecondsMinutes();
    var s, first, next := Start(59.0), Opening(b) + Volley(b), BeginPass(b, RowsFrom(0, b));
    OpeningStalls(cfg, b);
    var w := Run(cfg, s, Opening(b));
    StalledEligible(cfg, w, b);
    VolleyReschedules(cfg, w, b);
    RunAppend(cfg, s, Opening(b), Volley(b));
    var v := Run(cfg, w, Volley(b));
    Resumes(cfg, w, v, b);
    RunSnoc(cfg, s, first, EndPass);
    RunSnoc(cfg, s, first + [EndPass], next);
    var u := Next(cfg, Next(cfg, v, EndPass), next);
    RowsCount(0, b);
    VolleyReschedules(cfg, u, b);
    RunAppend(cfg, s, first + [EndPass] + [next], Volley(b));
    Committed(u, Run(cfg, u, Volley(b)), b);
  }

  lemma RowsCount(from: nat, n: nat)
    ensures |RowsFrom(from, n)| == n
  {
  }

  lemma Committed(w: World, v: World, k: nat)
    requires w.pass.Some? && k <= |w.pass.value.rows| && Rescheduled(w, v, k)
    ensures CommittedIn(v.history, Minute(w.clock)) == CommittedIn(w.history, Minute(w.clock)) + k
  {
  }

  lemma StalledEligible(cfg: Config, w: World, b: nat)
    requires cfg.policy.budgetPerMinute == b && cfg.policy.maxAttempts >= 2 && Stalled(w, b)
    ensures Eligible(cfg, w) && |w.pass.value.rows| == b
  {
    hide NameOf, Within, Fresh59;
    FreshEligible(cfg, w, b, b);
  }

  /** The clock's own minute keeps the budget in every run exactly where no retry is ever scheduled: the
      budget is not positive, or a delivery is attempted once at most. */
  lemma {:induction false} ClockBudgetExactly(cfg: Config)
    ensures (forall clock: Time, steps: seq<Step>, minute: int ::
               CommittedIn(Run(cfg, Start(clock), steps).history, minute) <= Max(0, cfg.policy.budgetPerMinute)) <==>
            cfg.policy.budgetPerMinute <= 0 || cfg.policy.maxAttempts <= 1
  {
    hide CommittedIn, Run;
    var budget := cfg.policy.budgetPerMinute;
    if budget <= 0 || cfg.policy.maxAttempts <= 1 {
      forall clock: Time, steps: seq<Step>, minute: int
        ensures CommittedIn(Run(cfg, Start(clock), steps).history, minute) <= Max(0, budget)
      {
        if budget <= 0 {
          ClockBudget(cfg, clock, steps, minute);
        } else {
          OneAttempt(cfg, clock, steps, minute);
        }
      }
    } else {
      BudgetOverrun(cfg, budget);
      assert CommittedIn(Run(cfg, Start(59.0), Overrun(budget)).history, 1) > Max(0, budget);
    }
  }
}
