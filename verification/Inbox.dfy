/** The queue: claim a delivery, drain the due ones a transaction at a time, park what waits for its
    prerequisite, retry or dead letter what fails. */
module Inbox {
  import opened Wrappers
  import opened Ordering
  import opened Model
  import opened Dlq
  import opened Store

  datatype Decoded = Readable(event: Event) | Unreadable(error: Error)

  /** The fixed policy, and the deterministic reading of stored bytes. */
  datatype Config = Config(policy: RetryPolicy, decode: (Provider, Bytes) -> Decoded)

  // ------------------------------------------------------------------- claim

  datatype ClaimReason = NewDelivery | DuplicateDelivery | InProgress | LeaseReclaimed

  function ProviderName(provider: Provider): string {
    match provider
    case Stripe => "stripe"
    case Adyen => "adyen"
  }

  function DeliveryId(provider: Provider, identity: string): string {
    ProviderName(provider) + ":" + identity
  }

  function Received(provider: Provider, raw: Bytes, now: Time, lease: Time): Delivery {
    Delivery(provider, raw, now, Claimed, 0, Some(now), Some(now + lease), None, None)
  }

  function Reclaimed(d: Delivery, raw: Bytes, now: Time, lease: Time): Delivery {
    d.(raw := raw, leaseExpiresAt := Some(now + lease),
       nextAttemptAt := if d.attempts == 0 then Some(now) else d.nextAttemptAt)
  }

  function ClaimVerdict(t: Tables, id: string, now: Time): ClaimReason {
    if id !in t.deliveries then NewDelivery
    else if t.deliveries[id].state != Claimed then DuplicateDelivery
    else if t.deliveries[id].leaseExpiresAt.Some? && t.deliveries[id].leaseExpiresAt.value > now then InProgress
    else LeaseReclaimed
  }

  function ClaimTables(t: Tables, provider: Provider, id: string, raw: Bytes, now: Time, lease: Time): Tables {
    match ClaimVerdict(t, id, now)
    case NewDelivery => t.(deliveries := t.deliveries[id := Received(provider, raw, now, lease)])
    case LeaseReclaimed => t.(deliveries := t.deliveries[id := Reclaimed(t.deliveries[id], raw, now, lease)])
    case _ => t
  }

  method Claim(conn: Connection, provider: Provider, identity: string, raw: Bytes, now: Time, lease: Time)
    returns (id: string, reason: ClaimReason)
    requires conn.begun == None
    modifies conn`tables, conn`begun
    ensures conn.begun == None && id == DeliveryId(provider, identity)
    ensures reason == ClaimVerdict(old(conn.tables), id, now)
    ensures conn.tables == ClaimTables(old(conn.tables), provider, id, raw, now, lease)
  {
    id := DeliveryId(provider, identity);
    var _ := conn.Begin();
    var inserted := conn.InsertDelivery(id, Received(provider, raw, now, lease));
    if inserted {
      reason := NewDelivery;
    } else {
      var row := conn.tables.deliveries[id];
      if row.state != Claimed {
        reason := DuplicateDelivery;
      } else if row.leaseExpiresAt.Some? && row.leaseExpiresAt.value > now {
        reason := InProgress;
      } else {
        conn.UpdateDelivery(id, Reclaimed(row, raw, now, lease));
        reason := LeaseReclaimed;
      }
    }
    conn.Commit();
  }

  predicate Terminal(state: DeliveryState) {
    state == Applied || state == Duplicate || state == DeadLettered
  }

  /** What any claim may do to a row that is already there: refresh its payload and its lease while
      it is queued. It never moves the state or the attempts, and once an attempt has failed it
      never moves the scheduled retry. */
  lemma ClaimRespectsRow(t: Tables, provider: Provider, id: string, raw: Bytes, now: Time, lease: Time, other: string)
    requires other in t.deliveries
    ensures
      var u := ClaimTables(t, provider, id, raw, now, lease);
      && other in u.deliveries && u.books == t.books && u.counters == t.counters
      && var before, after := t.deliveries[other], u.deliveries[other];
         && after.state == before.state && after.attempts == before.attempts
         && after.provider == before.provider && after.parkedUntil == before.parkedUntil
         && (before.attempts != 0 ==> after.nextAttemptAt == before.nextAttemptAt)
         && (before.attempts == 0 && after.nextAttemptAt != before.nextAttemptAt ==> after.nextAttemptAt == Some(now))
         && (Terminal(before.state) || before.state == Parked || other != id ==> after == before)
  {
  }

  function ParkTables(t: Tables, id: string, until: Time): Tables {
    if id !in t.deliveries then t
    else t.(deliveries := t.deliveries[id := t.deliveries[id].(
              state := Parked, parkedUntil := Some(until), leaseExpiresAt := None)])
  }

  method Park(conn: Connection, id: string, until: Time)
    requires conn.begun == None
    modifies conn`tables, conn`begun
    ensures conn.begun == None && conn.tables == ParkTables(old(conn.tables), id, until)
  {
    var _ := conn.Begin();
    if id in conn.tables.deliveries {
      conn.UpdateDelivery(id, conn.tables.deliveries[id].(
        state := Parked, parkedUntil := Some(until), leaseExpiresAt := None));
    }
    conn.Commit();
  }

  // ------------------------------------------------------------------- select

  /** What a drain pass remembers of a row from the moment it selected it. */
  datatype Snapshot = Snapshot(id: string, provider: Provider, raw: Bytes, attempts: nat, state: DeliveryState)

  function SnapshotOf(id: string, d: Delivery): Snapshot {
    Snapshot(id, d.provider, d.raw, d.attempts, d.state)
  }

  predicate Queued(state: DeliveryState) {
    state == Claimed || state == Parked
  }

  predicate Due(d: Delivery, now: Time) {
    && Queued(d.state)
    && (d.nextAttemptAt.Some? ==> d.nextAttemptAt.value <= now)
    && (d.parkedUntil.Some? ==> d.parkedUntil.value <= now)
  }

  predicate Earlier(a: (Time, string), b: (Time, string)) {
    a.0 < b.0 || (a.0 == b.0 && Less(a.1, b.1))
  }

  function QueueKey(t: Tables, id: string): (Time, string)
    requires id in t.deliveries
  {
    (t.deliveries[id].receivedAt, id)
  }

  /** The first rows of the due queue, in queue order; a negative limit takes all of it. */
  ghost predicate Selection(t: Tables, now: Time, limit: int, rows: seq<Snapshot>) {
    && (forall r <- rows :: r.id in t.deliveries && Due(t.deliveries[r.id], now) && r == SnapshotOf(r.id, t.deliveries[r.id]))
    && (forall i, j :: 0 <= i < j < |rows| ==> Earlier(QueueKey(t, rows[i].id), QueueKey(t, rows[j].id)))
    && (limit >= 0 ==> |rows| <= limit)
    && forall id <- t.deliveries :: Due(t.deliveries[id], now) ==>
         || SnapshotOf(id, t.deliveries[id]) in rows
         || (limit >= 0 && |rows| == limit && forall r <- rows :: Earlier(QueueKey(t, r.id), QueueKey(t, id)))
  }

  datatype Candidate = Candidate(receivedAt: Time, snapshot: Snapshot)

  predicate NotAfter(a: Candidate, b: Candidate) {
    a.receivedAt < b.receivedAt || (a.receivedAt == b.receivedAt && AtMost(a.snapshot.id, b.snapshot.id))
  }

  lemma NotAfterPreorder()
    ensures Preorder(NotAfter)
  {
    AtMostPreorder();
    forall a, b ensures NotAfter(a, b) || NotAfter(b, a) {
      assert AtMost(a.snapshot.id, b.snapshot.id) || AtMost(b.snapshot.id, a.snapshot.id);
    }
    forall a, b, c | NotAfter(a, b) && NotAfter(b, c) ensures NotAfter(a, c) {
    }
  }

  ghost predicate Candidates(t: Tables, now: Time, cs: seq<Candidate>) {
    forall c <- cs ::
      && c.snapshot.id in t.deliveries && Due(t.deliveries[c.snapshot.id], now)
      && c == Candidate(t.deliveries[c.snapshot.id].receivedAt, SnapshotOf(c.snapshot.id, t.deliveries[c.snapshot.id]))
  }

  method SelectDue(t: Tables, now: Time, limit: int) returns (rows: seq<Snapshot>)
    ensures Selection(t, now, limit, rows)
  {
    hide Due, Selection, NotAfter, SortedBy;
    var todo := t.deliveries.Keys;
    var found: seq<Candidate> := [];
    while todo != {}
      invariant todo <= t.deliveries.Keys
      invariant Candidates(t, now, found) && NoRepeats(found)
      invariant forall c <- found :: c.snapshot.id !in todo
      invariant forall id <- t.deliveries :: id !in todo && Due(t.deliveries[id], now) ==>
                  Candidate(t.deliveries[id].receivedAt, SnapshotOf(id, t.deliveries[id])) in found
      decreases |todo|
    {
      var id :| id in todo;
      if Due(t.deliveries[id], now) {
        found := found + [Candidate(t.deliveries[id].receivedAt, SnapshotOf(id, t.deliveries[id]))];
      }
      todo := todo - {id};
    }
    var sorted := Sort(found, NotAfter);
    NotAfterPreorder();
    SortSorts(found, NotAfter);
    SortMembers(found, NotAfter);
    SortNoRepeats(found, NotAfter);
    var taken := if 0 <= limit < |sorted| then sorted[..limit] else sorted;
    rows := seq(|taken|, i requires 0 <= i < |taken| => taken[i].snapshot);
    TakenIsSelection(t, now, limit, sorted, rows);
  }

  lemma TakenIsSelection(t: Tables, now: Time, limit: int, sorted: seq<Candidate>, rows: seq<Snapshot>)
    requires Candidates(t, now, sorted) && NoRepeats(sorted) && SortedBy(sorted, NotAfter)
    requires forall id <- t.deliveries :: Due(t.deliveries[id], now) ==>
               Candidate(t.deliveries[id].receivedAt, SnapshotOf(id, t.deliveries[id])) in sorted
    requires |rows| == (if 0 <= limit < |sorted| then limit else |sorted|)
    requires forall i :: 0 <= i < |rows| ==> rows[i] == sorted[i].snapshot
    ensures Selection(t, now, limit, rows)
  {
    forall i, j | 0 <= i < j < |sorted|
      ensures Earlier(QueueKey(t, sorted[i].snapshot.id), QueueKey(t, sorted[j].snapshot.id))
    {
      assert sorted[i] in sorted && sorted[j] in sorted;
      assert NotAfter(sorted[i], sorted[j]) && sorted[i] != sorted[j];
      LessTotal(sorted[i].snapshot.id, sorted[j].snapshot.id);
    }
    forall r | r in rows
      ensures r.id in t.deliveries && Due(t.deliveries[r.id], now) && r == SnapshotOf(r.id, t.deliveries[r.id])
    {
      var i :| 0 <= i < |rows| && rows[i] == r;
      assert sorted[i] in sorted;
    }
    forall id | id in t.deliveries && Due(t.deliveries[id], now) && SnapshotOf(id, t.deliveries[id]) !in rows
      ensures limit >= 0 && |rows| == limit && forall r <- rows :: Earlier(QueueKey(t, r.id), QueueKey(t, id))
    {
      var c := Candidate(t.deliveries[id].receivedAt, SnapshotOf(id, t.deliveries[id]));
      var k :| 0 <= k < |sorted| && sorted[k] == c;
      assert forall i :: 0 <= i < |rows| ==> rows[i] in rows;
      assert k >= |rows|;
      forall r | r in rows ensures Earlier(QueueKey(t, r.id), QueueKey(t, id)) {
        var i :| 0 <= i < |rows| && rows[i] == r;
      }
    }
  }

  lemma SelectedOnce(t: Tables, now: Time, limit: int, rows: seq<Snapshot>)
    requires Selection(t, now, limit, rows)
    ensures forall i, j :: 0 <= i < j < |rows| ==> rows[i].id != rows[j].id
  {
    forall i, j | 0 <= i < j < |rows| ensures rows[i].id != rows[j].id {
      assert rows[i] in rows && rows[j] in rows;
      assert Earlier(QueueKey(t, rows[i].id), QueueKey(t, rows[j].id));
      LessTotal(rows[i].id, rows[j].id);
    }
  }
}
