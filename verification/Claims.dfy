/** What a claim promises its caller: one holder at a time, and nothing lost when a holder dies. */
module Claims {
  import opened Wrappers
  import opened Model
  import opened Store
  import opened Inbox
  import opened Drain
  import opened Machine
  import opened Safety

  /** Two deliveries share a row exactly when the provider and the identity it gave them agree. */
  lemma {:induction false} IdsIdentify(p: Provider, a: string, q: Provider, b: string)
    ensures DeliveryId(p, a) == DeliveryId(q, b) <==> p == q && a == b
    ensures DeliveryId(Stripe, a) == "stripe:" + a && DeliveryId(Adyen, a) == "adyen:" + a
  {
    var x, y := DeliveryId(p, a), DeliveryId(q, b);
    assert x[0] == ProviderName(p)[0] && y[0] == ProviderName(q)[0];
    if p == q && x == y {
      var n := |ProviderName(p)| + 1;
      assert x[n..] == a && y[n..] == b;
    }
  }

  predicate Granted(reason: ClaimReason) {
    reason == NewDelivery || reason == LeaseReclaimed
  }

  /** A claim that is granted holds the row until its lease runs out. It leaves the row claimed, with the
      bytes it brought, and due at once unless a failed attempt has scheduled it. */
  lemma GrantedHolds(t: Tables, provider: Provider, id: string, raw: Bytes, now: Time, lease: Time)
    requires Granted(ClaimVerdict(t, id, now))
    ensures
      var u := ClaimTables(t, provider, id, raw, now, lease);
      && id in u.deliveries
      && var d := u.deliveries[id];
         && d.state == Claimed && d.raw == raw && d.leaseExpiresAt == Some(now + lease)
         && (d.attempts == 0 ==> d.nextAttemptAt == Some(now))
         && (d.attempts != 0 ==> id in t.deliveries && d.nextAttemptAt == t.deliveries[id].nextAttemptAt)
         && (id !in t.deliveries ==>
               d == Delivery(provider, raw, now, Claimed, 0, Some(now), Some(now + lease), None, None))
  {
  }

  /** A second claim of a delivery: turned away without a trace while the lease of the first is live, and
      granted from the moment it is not, with the newer bytes and a lease of its own. */
  lemma SecondClaim(
    t: Tables, provider: Provider, identity: string, raw: Bytes, a: Time, lease: Time, again: Bytes, b: Time,
    newLease: Time)
    requires Granted(ClaimVerdict(t, DeliveryId(provider, identity), a))
    ensures
      var id := DeliveryId(provider, identity);
      var u := ClaimTables(t, provider, id, raw, a, lease);
      var v := ClaimTables(u, provider, id, again, b, newLease);
      && id in u.deliveries && id in v.deliveries
      && (b < a + lease ==> ClaimVerdict(u, id, b) == InProgress && v == u)
      && (b >= a + lease ==>
            && ClaimVerdict(u, id, b) == LeaseReclaimed
            && v.deliveries[id].raw == again && v.deliveries[id].leaseExpiresAt == Some(b + newLease)
            && v == u.(deliveries := u.deliveries[id := v.deliveries[id]]))
  {
    hide DeliveryId;
  }

  /** Every claim of a known row: one already handled, or waiting for its prerequisite, is a duplicate; a queued
      one without a live lease is granted. */
  lemma ClaimAnswers(t: Tables, id: string, now: Time)
    ensures ClaimVerdict(t, id, now) == NewDelivery <==> id !in t.deliveries
    ensures id in t.deliveries ==>
      var d := t.deliveries[id];
      && (ClaimVerdict(t, id, now) == DuplicateDelivery <==> Terminal(d.state) || d.state == Parked)
      && (ClaimVerdict(t, id, now) == InProgress <==>
            d.state == Claimed && d.leaseExpiresAt.Some? && now < d.leaseExpiresAt.value)
      && (ClaimVerdict(t, id, now) == LeaseReclaimed <==>
            d.state == Claimed && (d.leaseExpiresAt.None? || now >= d.leaseExpiresAt.value))
  {
  }

  /** A row that fails and is retried has given its lease up, so a redelivery is granted at any time; it brings
      newer bytes and leaves the scheduled retry alone. */
  lemma RetriedReclaimed(t: Tables, provider: Provider, id: string, raw: Bytes, now: Time, lease: Time)
    requires id in t.deliveries && t.deliveries[id].state == Claimed && t.deliveries[id].leaseExpiresAt == None
    requires t.deliveries[id].attempts != 0
    ensures ClaimVerdict(t, id, now) == LeaseReclaimed
    ensures ClaimTables(t, provider, id, raw, now, lease) ==
            t.(deliveries := t.deliveries[id := t.deliveries[id].(raw := raw, leaseExpiresAt := Some(now + lease))])
  {
  }

  /** A parked row is out of every pass until its time, and back in the queue from then on. */
  lemma ParkDefers(t: Tables, id: string, until: Time, now: Time)
    requires id in t.deliveries
    ensures
      var u := ParkTables(t, id, until);
      && id in u.deliveries && u.deliveries[id].leaseExpiresAt == None
      && (now < until ==> !Due(u.deliveries[id], now))
      && (now >= until && t.deliveries[id].nextAttemptAt.GetOr(now) <= now ==> Due(u.deliveries[id], now))
      && u == t.(deliveries := t.deliveries[id := u.deliveries[id]])
  {
  }

  // ------------------------------------------------------------------ over every run

  /** The row is as its holder left it, or a drain has had it: it is parked or settled, or it has failed
      since, which gives the lease up. */
  ghost predicate Held(t: Tables, id: string, d: Delivery) {
    && id in t.deliveries && t.deliveries[id].attempts >= d.attempts
    && (t.deliveries[id] == d || t.deliveries[id].state != Claimed || t.deliveries[id].attempts > d.attempts)
  }

  lemma HeldKept(cfg: Config, w: World, s: Step, id: string, d: Delivery)
    requires PassFits(w) && Held(w.t, id, d) && d.state == Claimed
    requires d.leaseExpiresAt.Some? && w.clock < d.leaseExpiresAt.value
    ensures Held(Next(cfg, w, s).t, id, d)
  {
    hide DrainRow;
    if Enabled(cfg, w, s) {
      match s
      case ClaimStep(provider, identity, raw, lease) =>
        ClaimRespectsRow(w.t, provider, DeliveryId(provider, identity), raw, w.clock, lease, id);
      case RowStep(fault, delay) =>
        var pass := w.pass.value;
        assert pass.rows[0] in pass.rows;
        RowShapeHolds(cfg, w.t, pass.now, pass.budgetUsed, pass.rows[0], fault, delay);
      case _ =>
    }
  }

  /** One holder at a time, over every run: until the lease runs out no claim changes the row, and none is
      granted, unless a drain attempted it in between and failed. */
  lemma {:induction false} OneHolder(cfg: Config, w: World, steps: seq<Step>, id: string)
    requires PassFits(w) && id in w.t.deliveries && w.t.deliveries[id].state == Claimed
    requires w.t.deliveries[id].leaseExpiresAt.Some?
    ensures PassFits(Run(cfg, w, steps)) && w.clock <= Run(cfg, w, steps).clock
    ensures Run(cfg, w, steps).clock < w.t.deliveries[id].leaseExpiresAt.value ==>
      var v, d := Run(cfg, w, steps), w.t.deliveries[id];
      && Held(v.t, id, d)
      && (Granted(ClaimVerdict(v.t, id, v.clock)) ==> v.t.deliveries[id].attempts > d.attempts)
    decreases |steps|
  {
    if steps != [] {
      var front, last := steps[..|steps| - 1], steps[|steps| - 1];
      OneHolder(cfg, w, front, id);
      var v := Run(cfg, w, front);
      PassFitsKept(cfg, v, last);
      ClockMonotone(cfg, v, last);
      if v.clock < w.t.deliveries[id].leaseExpiresAt.value {
        HeldKept(cfg, v, last, id, w.t.deliveries[id]);
      }
    }
  }
}
