/** Safety over every run of the inbox protocol. */
module Safety {
  import opened Wrappers
  import opened Model
  import opened Dlq
  import opened Store
  import opened Ledger
  import opened Inbox
  import opened Drain
  import opened Machine

  // ------------------------------------------------------------------ the pass

  /** The rows a pass still holds are queued, distinct, and have not been attempted since. */
  ghost predicate PassFits(w: World) {
    w.pass.Some? ==>
      && w.pass.value.now <= w.clock
      && (forall i, j :: 0 <= i < j < |w.pass.value.rows| ==> w.pass.value.rows[i].id != w.pass.value.rows[j].id)
      && forall r <- w.pass.value.rows ::
           && r.id in w.t.deliveries && Queued(w.t.deliveries[r.id].state)
           && r.attempts == w.t.deliveries[r.id].attempts
  }

  lemma PassFitsKept(cfg: Config, w: World, s: Step)
    requires PassFits(w)
    ensures PassFits(Next(cfg, w, s))
  {
    if Enabled(cfg, w, s) {
      match s
      case ClaimStep(provider, identity, raw, lease) =>
        if w.pass.Some? {
          forall r | r in w.pass.value.rows ensures
            var u := Next(cfg, w, s).t;
            r.id in u.deliveries && Queued(u.deliveries[r.id].state) && r.attempts == u.deliveries[r.id].attempts
          {
            ClaimRespectsRow(w.t, provider, DeliveryId(provider, identity), raw, w.clock, lease, r.id);
          }
        }
      case ParkStep(id, until) =>
      case BeginPass(limit, rows) => SelectedOnce(w.t, w.clock, limit, rows);
      case RowStep(fault, delay) =>
        var pass := w.pass.value;
        RowShapeHolds(cfg, w.t, pass.now, pass.budgetUsed, pass.rows[0], fault, delay);
        forall r | r in pass.rows[1..] ensures r in pass.rows && r.id != pass.rows[0].id {
          var i :| 0 <= i < |pass.rows| - 1 && pass.rows[1..][i] == r;
          assert pass.rows[i + 1] == r;
        }
      case EndPass =>
      case Tick(_) =>
    }
  }

  // ------------------------------------------------------------- terminal states

  /** Applied, duplicate and dead lettered are absorbing: no step touches such a row again. */
  lemma TerminalStays(cfg: Config, w: World, s: Step, id: string)
    requires PassFits(w) && id in w.t.deliveries && Terminal(w.t.deliveries[id].state)
    ensures id in Next(cfg, w, s).t.deliveries && Next(cfg, w, s).t.deliveries[id] == w.t.deliveries[id]
  {
    if Enabled(cfg, w, s) {
      match s
      case ClaimStep(provider, identity, raw, lease) =>
        ClaimRespectsRow(w.t, provider, DeliveryId(provider, identity), raw, w.clock, lease, id);
      case RowStep(fault, delay) =>
        var pass := w.pass.value;
        assert pass.rows[0] in pass.rows;
        RowShapeHolds(cfg, w.t, pass.now, pass.budgetUsed, pass.rows[0], fault, delay);
      case _ =>
    }
  }

  lemma {:induction false} TerminalForever(cfg: Config, w: World, later: seq<Step>, id: string)
    requires PassFits(w) && id in w.t.deliveries && Terminal(w.t.deliveries[id].state)
    ensures PassFits(Run(cfg, w, later))
    ensures id in Run(cfg, w, later).t.deliveries && Run(cfg, w, later).t.deliveries[id] == w.t.deliveries[id]
    decreases |later|
  {
    if later != [] {
      var front := later[..|later| - 1];
      TerminalForever(cfg, w, front, id);
      PassFitsKept(cfg, Run(cfg, w, front), later[|later| - 1]);
      TerminalStays(cfg, Run(cfg, w, front), later[|later| - 1], id);
    }
  }

  // ---------------------------------------------------- effects against deliveries

  /** Applied deliveries and effect rows correspond one to one. */
  ghost predicate Matched(t: Tables) {
    && (forall i, j :: 0 <= i < j < |t.books.effects| ==> t.books.effects[i].deliveryId != t.books.effects[j].deliveryId)
    && (forall x <- t.books.effects :: x.deliveryId in t.deliveries && t.deliveries[x.deliveryId].state == Applied)
    && (forall id <- t.deliveries :: t.deliveries[id].state == Applied ==> exists x <- t.books.effects :: x.deliveryId == id)
  }

  /** Success is never false: the key of the payload a settled delivery was settled with is in the
      effects table, and an effect row is the one its own delivery read. */
  ghost predicate NoFalseSuccess(w: World) {
    && (forall id <- w.t.deliveries :: w.t.deliveries[id].state == Applied || w.t.deliveries[id].state == Duplicate ==>
          id in w.history.read && HasKey(w.t.books.effects, w.history.read[id]))
    && (forall x <- w.t.books.effects :: x.deliveryId in w.history.read && w.history.read[x.deliveryId] == KeyOf(x.event))
  }

  lemma HasKeyGrows(effects: seq<Effect>, x: Effect, key: Key)
    requires HasKey(effects, key) || key == KeyOf(x.event)
    ensures HasKey(effects + [x], key)
  {
    if HasKey(effects, key) {
      var y :| y in effects && KeyOf(y.event) == key;
      assert y in effects + [x];
    } else {
      assert x in effects + [x];
    }
  }

  /** A queued delivery that becomes applied brings its own effect row. */
  lemma MatchedAfterApply(t: Tables, x: Effect, u: Tables)
    requires Matched(t) && x.deliveryId in t.deliveries && Queued(t.deliveries[x.deliveryId].state)
    requires x.deliveryId in u.deliveries && u.deliveries == t.deliveries[x.deliveryId := u.deliveries[x.deliveryId]]
    requires u.deliveries[x.deliveryId].state == Applied && u.books.effects == t.books.effects + [x]
    ensures Matched(u)
  {
    assert x == u.books.effects[|t.books.effects|];
    assert forall y <- u.books.effects :: y in t.books.effects || y == x;
    forall i, j | 0 <= i < j < |u.books.effects|
        ensures u.books.effects[i].deliveryId != u.books.effects[j].deliveryId {
      assert u.books.effects[i] in t.books.effects;
      if j < |t.books.effects| {
        assert u.books.effects[i] == t.books.effects[i] && u.books.effects[j] == t.books.effects[j];
      }
    }
    forall id | id in u.deliveries && u.deliveries[id].state == Applied
      ensures exists y <- u.books.effects :: y.deliveryId == id
    {
      if id != x.deliveryId {
        var y :| y in t.books.effects && y.deliveryId == id;
        assert y in u.books.effects;
      } else {
        assert x in u.books.effects;
      }
    }
  }

  lemma MatchedOtherwise(t: Tables, id: string, u: Tables)
    requires Matched(t) && id in u.deliveries && u.deliveries == t.deliveries[id := u.deliveries[id]]
    requires id in t.deliveries ==> Queued(t.deliveries[id].state)
    requires u.deliveries[id].state != Applied && u.books == t.books
    ensures Matched(u)
  {
  }

  /** The key a delivery was settled with is remembered, and is there. */
  lemma RememberedKeys(w: World, id: string, v: World, key: Key)
    requires NoFalseSuccess(w) && Matched(w.t) && (id in w.t.deliveries ==> Queued(w.t.deliveries[id].state))
    requires id in v.t.deliveries && v.t.deliveries == w.t.deliveries[id := v.t.deliveries[id]]
    requires v.t.books.effects == w.t.books.effects
             || exists x: Effect :: x.deliveryId == id && KeyOf(x.event) == key && v.t.books.effects == w.t.books.effects + [x]
    requires v.history.read == if v.t.deliveries[id].state == Applied || v.t.deliveries[id].state == Duplicate
                               then w.history.read[id := key] else w.history.read
    requires v.t.deliveries[id].state == Applied || v.t.deliveries[id].state == Duplicate ==> HasKey(v.t.books.effects, key)
    requires v.t.deliveries[id].state != Applied ==> v.t.books.effects == w.t.books.effects
    ensures NoFalseSuccess(v)
  {
    forall other | other in v.t.deliveries && (v.t.deliveries[other].state == Applied || v.t.deliveries[other].state == Duplicate)
      ensures other in v.history.read && HasKey(v.t.books.effects, v.history.read[other])
    {
      if other != id && v.t.books.effects != w.t.books.effects {
        var x: Effect :| v.t.books.effects == w.t.books.effects + [x];
        HasKeyGrows(w.t.books.effects, x, w.history.read[other]);
      }
    }
    forall x | x in v.t.books.effects
        ensures x.deliveryId in v.history.read && v.history.read[x.deliveryId] == KeyOf(x.event) {
      assert x in w.t.books.effects || (x.deliveryId == id && KeyOf(x.event) == key);
    }
  }

  lemma RowMatched(cfg: Config, w: World, fault: Option<Error>, delay: Time)
    requires PassFits(w) && Matched(w.t) && NoFalseSuccess(w) && Enabled(cfg, w, RowStep(fault, delay))
    ensures Matched(RowWorld(cfg, w, fault, delay).t) && NoFalseSuccess(RowWorld(cfg, w, fault, delay))
  {
    hide DrainRow;
    var pass := w.pass.value;
    var row := pass.rows[0];
    assert row in pass.rows;
    RowShapeHolds(cfg, w.t, pass.now, pass.budgetUsed, row, fault, delay);
    var v := RowWorld(cfg, w, fault, delay);
    var decoded := cfg.decode(row.provider, row.raw);
    var key := if decoded.Readable? then KeyOf(decoded.event) else Key("", Void, "");
    if v.t.deliveries[row.id].state == Applied {
      var x := Effect(row.id, decoded.event);
      assert v.t.books.effects == w.t.books.effects + [x];
      HasKeyGrows(w.t.books.effects, x, key);
      MatchedAfterApply(w.t, x, v.t);
    } else {
      MatchedOtherwise(w.t, row.id, v.t);
    }
    RememberedKeys(w, row.id, v, key);
  }

  lemma ClaimMatched(w: World, provider: Provider, id: string, raw: Bytes, lease: Time)
    requires Matched(w.t) && NoFalseSuccess(w)
    ensures
      var v := w.(t := ClaimTables(w.t, provider, id, raw, w.clock, lease));
      Matched(v.t) && NoFalseSuccess(v)
  {
  }

  lemma ParkMatched(w: World, id: string, until: Time)
    requires Matched(w.t) && NoFalseSuccess(w) && id in w.t.deliveries && Queued(w.t.deliveries[id].state)
    ensures
      var v := w.(t := ParkTables(w.t, id, until));
      Matched(v.t) && NoFalseSuccess(v)
  {
  }

  lemma MatchedKept(cfg: Config, w: World, s: Step)
    requires PassFits(w) && Matched(w.t) && NoFalseSuccess(w)
    ensures Matched(Next(cfg, w, s).t) && NoFalseSuccess(Next(cfg, w, s))
  {
    hide RowWorld, ClaimTables, ParkTables, Matched;
    if Enabled(cfg, w, s) {
      match s
      case ClaimStep(provider, identity, raw, lease) => ClaimMatched(w, provider, DeliveryId(provider, identity), raw, lease);
      case ParkStep(id, until) => ParkMatched(w, id, until);
      case RowStep(fault, delay) => RowMatched(cfg, w, fault, delay);
      case _ =>
    }
  }

  // -------------------------------------------------------------------- the books

  lemma BooksKept(cfg: Config, w: World, s: Step)
    requires BooksSound(w.t.books)
    ensures BooksSound(Next(cfg, w, s).t.books)
  {
    if Enabled(cfg, w, s) && s.RowStep? {
      var pass := w.pass.value;
      var row := pass.rows[0];
      RowShapeHolds(cfg, w.t, pass.now, pass.budgetUsed, row, s.fault, s.delay);
      if cfg.decode(row.provider, row.raw).Readable? {
        PostKeepsBooks(w.t.books, true, row.id, cfg.decode(row.provider, row.raw).event);
      }
    }
  }

  // ------------------------------------------------------------------ the counters

  function InState(deliveries: map<string, Delivery>, state: DeliveryState): set<string> {
    set id | id in deliveries && deliveries[id].state == state
  }

  /** The two counters are exact. */
  ghost predicate Counted(t: Tables) {
    && CountOf(t.counters, AppliedCount) == |InState(t.deliveries, Applied)|
    && CountOf(t.counters, DeadLetteredCount) == |InState(t.deliveries, DeadLettered)|
  }

  lemma InStateUpdate(deliveries: map<string, Delivery>, id: string, d: Delivery, state: DeliveryState)
    ensures InState(deliveries[id := d], state) ==
            if d.state == state then InState(deliveries, state) + {id} else InState(deliveries, state) - {id}
  {
  }

  lemma CountedAfterUpdate(t: Tables, id: string, u: Tables)
    requires Counted(t) && id in u.deliveries && u.deliveries == t.deliveries[id := u.deliveries[id]]
    requires id in t.deliveries ==> Queued(t.deliveries[id].state)
    requires CountOf(u.counters, AppliedCount) ==
             CountOf(t.counters, AppliedCount) + (if u.deliveries[id].state == Applied then 1 else 0)
    requires CountOf(u.counters, DeadLetteredCount) ==
             CountOf(t.counters, DeadLetteredCount) + (if u.deliveries[id].state == DeadLettered then 1 else 0)
    ensures Counted(u)
  {
    InStateUpdate(t.deliveries, id, u.deliveries[id], Applied);
    InStateUpdate(t.deliveries, id, u.deliveries[id], DeadLettered);
  }

  lemma CountedKept(cfg: Config, w: World, s: Step)
    requires PassFits(w) && Counted(w.t)
    ensures Counted(Next(cfg, w, s).t)
  {
    hide DrainRow;
    if Enabled(cfg, w, s) {
      var u := Next(cfg, w, s).t;
      match s
      case ClaimStep(provider, identity, raw, lease) =>
        var id := DeliveryId(provider, identity);
        if u != w.t {
          CountedAfterUpdate(w.t, id, u);
        }
      case ParkStep(id, until) => CountedAfterUpdate(w.t, id, u);
      case RowStep(fault, delay) =>
        var pass := w.pass.value;
        assert pass.rows[0] in pass.rows;
        RowShapeHolds(cfg, w.t, pass.now, pass.budgetUsed, pass.rows[0], fault, delay);
        CountedAfterUpdate(w.t, pass.rows[0].id, u);
      case _ =>
    }
  }

  // ---------------------------------------------------------------- the whole run

  ghost predicate Safe(w: World) {
    PassFits(w) && BooksSound(w.t.books) && Matched(w.t) && NoFalseSuccess(w) && Counted(w.t)
  }

  /** Every reachable world is safe. */
  lemma {:induction false} EveryRunSafe(cfg: Config, clock: Time, steps: seq<Step>)
    ensures Safe(Run(cfg, Start(clock), steps))
    decreases |steps|
  {
    if steps == [] {
      assert InState(EMPTY.deliveries, Applied) == {} && InState(EMPTY.deliveries, DeadLettered) == {};
    } else {
      var front, last := steps[..|steps| - 1], steps[|steps| - 1];
      EveryRunSafe(cfg, clock, front);
      var w := Run(cfg, Start(clock), front);
      PassFitsKept(cfg, w, last);
      BooksKept(cfg, w, last);
      MatchedKept(cfg, w, last);
      CountedKept(cfg, w, last);
    }
  }
}
