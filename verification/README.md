# quidz: a verified model of the money path

This project models, in Dafny, how quidz turns provider webhook deliveries into a ledger and how it
reconciles that ledger, and proves what the model guarantees for every input and every run.

- **The aggregate** (`Model.dfy`, `Adjustments.dfy`). Ten effect kinds over seven amount and flag
  fields and a rank, with the guards in the order the code tests them.
- **The ledger** (`Store.dfy`, `Ledger.dfy`, `LedgerTheorems.dfy`). A connection with a transaction
  and a savepoint, the unique business key and the foreign key, and posting one event: insert the
  effect row, fold, roll back to the savepoint on any rejection, upsert the payment.
- **The inbox** (`Dlq.dfy`, `Inbox.dfy`, `Drain.dfy`, `Machine.dfy`, `PassRuns.dfy`, `Safety.dfy`,
  `Retries.dfy`, `Overruns.dfy`, `Isolation.dfy`, `Idle.dfy`, `IdleTheorems.dfy`, `IdleLimits.dfy`,
  `IdleStreams.dfy`, `RowVerdicts.dfy`, `Claims.dfy`, `PassReports.dfy`). Claims, parking, one transaction
  per drained row, retries and dead letters as methods over the connection, and the same steps as a
  state machine in which claims, crashes and the clock interleave with one drain worker in any way.
- **Confluence** (`Streams.dfy`, `Confluence.dfy`, `Refusals.dfy`). A payment's authorization, capture
  and refunds, with twins under other delivery ids, in any order of arrival and among any other
  deliveries: when three passes settle it, and the queues they do not settle.
- **Reconciliation** (`Reconcile.dfy`, `Reconciler.dfy`, `ReconcileTheorems.dfy`, `Gate.dfy`,
  `ReportFields.dfy`, `GateTheorems.dfy`, `EndToEnd.dfy`, `Materiality.dfy`). The two joins, the classifier and the report as methods
  against a specification; the gate; and the composition from inputs to blocked ids.
- **Canonical encodings** (`Signing.dfy`, `Decimal.dfy`, `Currencies.dfy`). The escaped, colon
  joined signing string, the signature header, and amounts printed in major units.

`Wrappers.dfy`, `Sums.dfy` and `Ordering.dfy` hold what the rest shares. The code that updates
state in place is modelled by classes and methods whose contracts equate the new state with a
function of the old one; the theorems are about those functions. Times are reals. The reading of
stored bytes is one deterministic function, `Config.decode`, and the delays full jitter draws are
any values between zero and the ceiling. An exception of any other kind that escapes a handler is
the `fault` a row step may carry, and a crash is the end of a pass between two transactions, since
a transaction commits as a whole or not at all.

## What the model says of the code

- Park and retry does not settle every stream. A refund of zero that arrives after refunds totalling
  the whole capture is refused as an illegal transition (its rank, 60, is below 70) and dead letters
  (`Refusals.SuperfluousDeadLetters`), although the same refund is accepted earlier. The smallest
  stream of this kind authorizes, captures and refunds one minor unit and then refunds nothing
  (`Refusals.SmallestRefused`). Three passes settle a stream from every queue that holds it if and only
  if it is admissible: nothing was captured, or the refunds total less than the capture, or none of
  them is zero (`Refusals.ThreePassesExactly`, and `Streams.AdmissibleIff` for the ledger alone).
- An agreeing payment can be blocked on account of another one. The settlement join keeps one provider
  row per reference, so when the row it keeps belongs to a payment the ledger does not hold, the
  settlement row joins to nothing and a captured payment of the same reference is reported past its
  limit, in the file or not. `EndToEnd.AgreeingBlockedExactly` says that this, with material breaks, is
  the only way; `EndToEnd.SharedReferenceBlocks` is an input on which it happens.
- The retry budget is kept by the minute a pass begins in. A pass that is still going when the clock
  enters the next minute spends what its own minute left it, and that minute's passes spend theirs. By
  the clock the bound is twice the budget (`Retries.ClockBudget`), and for every positive budget and
  every cap above one some run reaches it (`Overruns.BudgetOverrun`). So every run keeps the budget by
  the clock if and only if the budget is not positive or a delivery is attempted once at most
  (`Overruns.ClockBudgetExactly`). Under any policy, a run whose passes take no row after their own
  minute keeps it (`Retries.PromptBudget`).
- Draining until idle can end with work queued that one more pass would take, although a comment in the
  code holds that another pass cannot help. `IdleTheorems.StopsExactly` lists the cases: the pass
  reported nothing, and a row came due while it was running (`IdleLimits.SlowPassStops` is an input), or
  a row due before it began lay beyond the limit of 100 (`IdleLimits.CrowdedPassStops` is an input, on
  which no time goes by at all), or it took rows and the base delay, which nothing checks, is not
  positive. With a positive base delay, at most 100 queued rows and instantaneous passes it never does
  (`IdleTheorems.NeverStopsEarly`).
- Two adjustments with the same sequence follow their order of arrival, so their order is irrelevant
  exactly when their amounts agree (`Adjustments.TieFollowsArrival`).
- An adjustment that takes a hold down to zero moves a payment's status back from authorized to
  pending while its rank stays. Refund corrections apart, nothing else moves a status back
  (`Model.StatusMovesBack`).
- The answer to a refused insert does not distinguish the unique index from the foreign key, so an
  event for a delivery id the store does not hold is answered as a duplicate. In the drain the row is
  always there.
- A drain limit that is negative takes the whole queue, as SQLite reads it.
- Adding findings never unblocks anything exactly when the report is anchored: nothing is blocked, or
  the scope is the batch, or some blocking finding carries an id of the scope
  (`GateTheorems.UnblocksExactly`). Otherwise the fallback ids are displaced by the first finding that
  has an id, and a live break glass that names any id can then be made to reopen outbound movement
  (`GateTheorems.ReopensExactly`). Reports that reconciliation itself produces are anchored under the
  payment scope, when no severity is overridden and every ledger payment and parked delivery has an id
  (`EndToEnd.ReportNamed`). Under the currency scope they need not be: stale parks alone can be
  material, and carry no currency.

## Model

| member | source | states |
|---|---|---|
| Model.StepSound | src/quidz/model.py:199-291 | one accepted effect keeps 0 <= refunded <= captured <= authorized, rank >= the status's rank, captured > 0 implies rank >= 40, rank 70 iff all of a capture is refunded, cancelled iff rank 30 and without money; the rank falls exactly when a correction returns some of a full refund, from 70 to 60 |
| Model.ReachableSound | src/quidz/model.py:199-291 | every stream of events, accepted or not, leaves a fresh payment in a sound aggregate of its own id and currency |
| Model.CancelledForever | src/quidz/model.py:203-212 | a voided or expired payment stays so, at rank 30 with nothing captured or refunded, under every later stream |
| Model.StatusMovesBack | src/quidz/model.py:158-291 | refund corrections apart, an accepted effect moves the status to an earlier rank iff it is a fresh adjustment of a positive hold to zero |
| Model.VerdictTable | src/quidz/model.py:199-277 | the guard order as a decision: for every sound aggregate and event, exactly when it is accepted, premature, an amount violation or a currency mismatch |
| Model.FoldedDeltas | src/quidz/model.py:279-322 | what each accepted kind moves, field by field, the rank it leaves in numbers, and that a stale adjustment moves nothing |
| Model.CorrectionReopens | src/quidz/model.py:280-286 | after a correction of some of its refunds a payment is at rank 60 and takes every refund the capture has room for |
| Model.StatusMeans | src/quidz/model.py:158-175 | each of the nine statuses, as an iff on the amounts and flags of a sound aggregate |
| Model.StatusesInOrder | src/quidz/model.py:66-80 | the ranks order the lifecycle, with voided and expired level |
| Adjustments.AdjustOnce | src/quidz/model.py:220-231 | an adjustment in an authorized payment sets the hold and the sequence, or changes nothing when it is strictly older |
| Adjustments.NewestWins | src/quidz/model.py:220-231 | after any run of adjustments with distinct sequences the hold is the newest's amount if it is not older than the start, and the starting hold otherwise |
| Adjustments.EveryOneAccepted | src/quidz/model.py:220-231 | none of them is refused or left waiting, wherever it stands in the run |
| Adjustments.OrderIrrelevant | src/quidz/model.py:220-231 | any permutation of the run leaves the same aggregate |
| Adjustments.TieFollowsArrival | src/quidz/model.py:227-231 | of two adjustments stamped alike the later arrival stands: the order is irrelevant iff the amounts agree |
| Store.Connection.Begin | src/quidz/store.py:115-124 | a second transaction on a connection is refused and changes nothing; a first one marks what a rollback restores |
| Store.Connection.Commit | src/quidz/store.py:125-130 | what is committed becomes what the connection sees |
| Store.Connection.Rollback | src/quidz/store.py:125-129 | the tables go back to what was committed, which a rollback leaves alone |
| Store.Connection.InsertEffect | src/quidz/store.py:38-51 | the row goes in iff its delivery is known and its business key is free, and otherwise nothing changes |
| Store.Connection.UpsertPayment | src/quidz/ledger.py:135-164 | every amount, flag and rank is overwritten; the provider time only moves forward |
| Store.Connection.InsertDelivery | src/quidz/store.py:25-37 | the delivery id is a primary key: the row goes in iff the id is free |
| Ledger.ApplyDelivery | src/quidz/ledger.py:78-165 | the outcome and the new tables are those of posting the event: the duplicate check before the fold, no row left behind by a rejection, no savepoint left open |
| RowVerdicts.PostVerdict | src/quidz/ledger.py:92-133 | in sound books, exactly which events are repeats, folded, wait, or are raised, each refusal with its own reason; a repeat is recognised first, and an event of an unknown payment without an amount waits |
| RowVerdicts.UnknownDelivery | src/quidz/ledger.py:92-133 | an event for a delivery the store does not hold is never folded |
| Ledger.PostKeepsBooks | src/quidz/ledger.py:92-165 | posting keeps business keys unique and every payment row equal to the fold of its effect rows in insertion order |
| LedgerTheorems.FoldAccounted | src/quidz/model.py:294-322 | an accepted fold is sound and equals the sums of its events: captured, capture_failed, refund_failed, refunded + refund_failed, with at most one positive capture |
| LedgerTheorems.PaymentAccounted | src/quidz/ledger.py:92-165 | in sound books a payment row exists iff it has an effect row, and is sound, accounted for by them, with updated_at and last_sequence the maxima over them |
| LedgerTheorems.LatestIsMaximum | src/quidz/ledger.py:145-147 | the folded provider time is the greatest occurred_at |
| LedgerTheorems.NewestIsMaximum | src/quidz/model.py:287-291 | the folded sequence is the greatest, and -1 if none is above it |
| Dlq.RetryBounds | src/quidz/dlq.py:95-120 | a retry implies a transient reason, an attempt below the policy's cap and the reason's own, and budget left |
| Dlq.RetriedExactly | src/quidz/dlq.py:39-120 | a failure is tried again iff budget is left and the attempt is below the policy's cap and its kind's own: 3 for an unknown event type or an unclassified error, 5 for the database, none for the rest |
| Dlq.CodesTell | src/quidz/dlq.py:56-107 | which errors share a reason code |
| Dlq.DelayExact | src/quidz/dlq.py:95-100 | a delay can be drawn iff it lies between 0 and both the policy's maximum and base_seconds * 2^attempt |
| Dlq.BackoffDoubles | src/quidz/dlq.py:95-100 | the longest wait is base_seconds for attempt zero and doubles with each attempt until max_seconds |
| Inbox.Claim | src/quidz/inbox.py:129-193 | the answer (new, duplicate, in progress, reclaimed) and the table after it, for every state of the row |
| Claims.ClaimAnswers | src/quidz/inbox.py:149-193 | each of the four answers, as an iff on the row's state and lease |
| Claims.GrantedHolds | src/quidz/inbox.py:152-193 | a granted claim leaves the row claimed with its bytes, its lease, and due at once unless a failed attempt has scheduled it |
| Claims.SecondClaim | src/quidz/inbox.py:174-193 | a second claim is answered in progress and changes nothing while the first one's lease is live, and is granted from the moment it ends, with the newer bytes and a new lease |
| Claims.RetriedReclaimed | src/quidz/inbox.py:179-192 | a row waiting for its retry is granted at any time and keeps its schedule |
| Claims.OneHolder | src/quidz/inbox.py:129-354 | over every run, until a lease ends no claim changes the row and none is granted, unless a drain attempted it in between and failed |
| Claims.IdsIdentify | src/quidz/inbox.py:147 | two deliveries have one id iff provider and identity agree |
| Inbox.ClaimRespectsRow | src/quidz/inbox.py:165-193 | no claim moves another row, a settled row, a parked row, any row's state or attempts, or a retry already scheduled |
| Inbox.Park | src/quidz/inbox.py:196-203 | the row is parked until the given time without a lease; an unknown id changes nothing |
| Claims.ParkDefers | src/quidz/inbox.py:196-203 | a parked row is due for no pass before its time, and is from then on |
| Inbox.SelectDue | src/quidz/inbox.py:269-275 | the selection is exactly the first rows of the due queue by receipt time and id, up to the limit |
| Drain.Settle | src/quidz/inbox.py:320-354 | the row, the counter and the report of each outcome; a re-park counts nothing |
| Drain.TryRow | src/quidz/inbox.py:278-286 | the first transaction commits as a whole or leaves the tables as they were |
| Drain.FailRow | src/quidz/inbox.py:289-316 | the second transaction reschedules within the retry rules and records the budget, or dead letters |
| Drain.ProcessRow | src/quidz/inbox.py:276-316 | one row, both transactions, is the row step of the specification |
| Drain.DrainPass | src/quidz/inbox.py:248-317 | a pass selects the due rows and takes them in turn: tables and report are those of the specification |
| Machine.RowShapeHolds | src/quidz/inbox.py:278-354 | all a row's transactions may do to the rest of the tables, by the state the row ends in |
| RowVerdicts.RowVerdict | src/quidz/inbox.py:278-316 | in sound books, exactly how a readable row without a fault ends (applied, duplicate, parked, dead lettered), and with which reason code |
| RowVerdicts.RowLeft | src/quidz/inbox.py:320-354 | the columns such a row is left with: no lease, no schedule once settled, one base delay when parked, an attempt used when dead lettered |
| RowVerdicts.FailedRow | src/quidz/inbox.py:289-316 | a row that meets a fault or cannot be read: exactly when it is retried and when dead lettered, every column, the reason code, the budget, the books |
| PassReports.PassMoves | src/quidz/inbox.py:276-354 | a pass moves the four stored counters, and the budget, by what it reports |
| PassReports.PassAccounted | src/quidz/inbox.py:276-354 | a pass reports each of its rows once, by the state it left it in, and a row parked again not at all |
| Drain.MinuteExact | src/quidz/inbox.py:235-240 | the minute of a time is the sixty seconds that hold it |
| PassRuns.PassIsRun | src/quidz/inbox.py:276-317 | the first n rows of the drain's pass are n steps of the protocol, so what holds of every run holds of it |
| PassRuns.DrainKeepsSafe | src/quidz/inbox.py:248-317 | a drain may be called in any reachable state, and leaves books, matching and counters sound, whatever faults it meets |
| Safety.EveryRunSafe | src/quidz/inbox.py:129-354 | over every run of claims, parks, row transactions, crashes and clock advances: applied rows and effect rows one to one, keys unique, every applied or duplicate row's key in the effects, books an index, counters exact |
| Safety.TerminalForever | src/quidz/inbox.py:172-176 | applied, duplicate and dead lettered rows are never touched again by any later run |
| Safety.MatchedKept | src/quidz/inbox.py:278-354 | every step keeps the correspondence of applied rows with effect rows, and no success is false: the key of the payload drain read is there |
| Safety.CountedKept | src/quidz/inbox.py:309-353 | every step keeps the applied and dead_lettered counters equal to the rows in those states |
| Safety.BooksKept | src/quidz/ledger.py:100-165 | every step keeps the payments table an index over the effects table |
| Retries.NoRetryStorm | src/quidz/inbox.py:289-316 | over every run a queued row has attempts left, no row exceeds the cap, and all failures number at most the cap times the deliveries |
| Retries.FailureUsesAnAttempt | src/quidz/inbox.py:290-315 | the attempts left over all deliveries fall by one with each failure, never below zero, and grow only with a new delivery |
| Retries.RetryBudget | src/quidz/inbox.py:227-245 | over any number of passes and crashes, the passes that begin within one clock minute schedule at most max(0, budget) retries, whenever they come to schedule them |
| Retries.PromptBudget | src/quidz/inbox.py:227-308 | in a run whose passes take no row after the minute they began in, at most that many are scheduled while the clock stands in the minute |
| Retries.ClockBudget | src/quidz/inbox.py:227-308 | while the clock stands in one minute at most twice that many are scheduled, whenever their passes began |
| Overruns.BudgetOverrun | src/quidz/inbox.py:265-308 | for every positive budget and every cap above one, a run that schedules twice the budget within one clock minute |
| Overruns.ClockBudgetExactly | src/quidz/inbox.py:227-308 | every run keeps the budget by the clock iff the budget is not positive or the cap leaves no second attempt |
| Retries.FailureSchedules | src/quidz/inbox.py:292-308 | a retried row waits from the pass's time for a delay between 0 and min(max_seconds, base_seconds * 2^attempt) |
| Retries.BackoffSurvives | src/quidz/inbox.py:179-192 | until the clock reaches that time no run of claims and passes moves it or selects the row |
| Isolation.PoisonIsolation | src/quidz/inbox.py:258-317 | a batch leaves the same books, and the same rows for the deliveries that do not fail, as the batch without its failing rows |
| Isolation.PassIsItsBooks | src/quidz/inbox.py:276-317 | the books after a pass depend on the books before it and the rows alone |
| Isolation.Locality | src/quidz/ledger.py:86-165 | two databases that agree on a payment and on its rows agree on it after a pass, whatever else they hold |
| Streams.ArrivalVerdict | src/quidz/model.py:199-291 | the verdict on any event of a payment's stream at any point of it: premature, refused only as a left over zero refund, else the aggregate its sums describe |
| Streams.PostArrival | src/quidz/ledger.py:86-131 | what posting an arrival does to books part way through the stream: a repeat is a no-op, an early one waits |
| Streams.AdmissibleIff | src/quidz/model.py:274-277 | every order of a stream's refunds is accepted iff nothing was captured, the refunds total less than the capture, or none is zero |
| Streams.LeftOverRefused | src/quidz/model.py:274-277 | moved to the end of its stream, a zero refund left over is not accepted; if the events before it are, it is refused as an illegal transition |
| Refusals.LateRefused | src/quidz/model.py:274-277 | every such stream has an order of which the ledger takes all but the last event and refuses that one as an illegal transition |
| Refusals.SmallestRefused | src/quidz/model.py:274-277 | the smallest such stream, event by event, with its refusal |
| Refusals.SuperfluousDeadLetters | src/quidz/inbox.py:289-316 | a queued delivery of such a refund is dead lettered by the pass that takes it, books unchanged |
| Confluence.OwnRow | src/quidz/inbox.py:278-354 | a pass settles a row of the stream whose prerequisite is folded and parks the others |
| Confluence.ThreePasses | src/quidz/inbox.py:269-354 | after three passes that each take every queued delivery of the payment, without a fault on any, all its deliveries are applied or duplicates, with one aggregate and one set of effect keys for every arrival order, twin and other delivery |
| Refusals.QueueNeverSettles | src/quidz/inbox.py:269-354 | for every stream with a zero refund left over, a queue of claimed deliveries that three such passes do not settle |
| Refusals.ThreePassesExactly | src/quidz/inbox.py:269-354 | for any decoder under which each event of a stream is the reading of some bytes: three such passes settle the stream from every queue part way through it iff the stream is admissible |
| Idle.FindEarliestDue | src/quidz/inbox.py:371-377 | the least of the times the queued rows wait for |
| Idle.Turn | src/quidz/inbox.py:368-385 | one turn of the loop is a pass, which takes its time, and a sleep to the next due row; it stops exactly at the two early exits |
| Idle.DrainUntilIdle | src/quidz/inbox.py:357-386 | the passes made are consecutive, none follows an early exit, no more than allowed, and the totals are theirs |
| PassReports.CallMoves | src/quidz/inbox.py:365-386 | a call moves the counters by its totals |
| IdleTheorems.SelectionComplete | src/quidz/inbox.py:269-275 | with no more queued rows than the limit a pass takes every due one |
| IdleTheorems.SelectionUnique | src/quidz/inbox.py:269-275 | the queue, the time and the limit leave a pass no choice of rows nor of their order |
| IdleTheorems.NeverStopsEarly | src/quidz/inbox.py:376-385 | a pass that stops the loop has emptied the queue, or a row came due while it ran, or one due before lay beyond the limit, or the base delay is not positive; with a positive base delay, a queue within the limit and no time spent, it has emptied the queue |
| IdleTheorems.BeyondTheLimit | src/quidz/inbox.py:253-275 | a row that was due and was left out of a pass means more than 100 queued rows |
| IdleTheorems.StopsExactly | src/quidz/inbox.py:376-385 | for a queue of any length and any base delay, a turn ends the loop iff the queue is empty, or the pass reported nothing and a row came due while it ran, or one due before lay beyond the limit, or it took rows under a base delay that is not positive |
| IdleTheorems.IdleOrSpent | src/quidz/inbox.py:357-386 | so a call ends with an empty queue, or has used every pass, or one of those three holds of its last pass; with a positive base delay, a queue within the limit and instantaneous passes one of the first two holds |
| IdleLimits.SlowPassStops | src/quidz/inbox.py:376-385 | for every policy and every positive duration, a pass of that duration that ends the loop while a retry it did not touch is due, which the next pass would take |
| IdleLimits.CrowdedPassStops | src/quidz/inbox.py:269-385 | for every policy and decoder that reads some bytes as an event without an amount, an instantaneous pass that ends the loop while a new delivery, due all along, waits behind 100 parked ones, which the next pass would take if the base delay is positive |
| IdleStreams.OneCallSettles | src/quidz/inbox.py:357-386 | a call with three passes or more settles a payment's whole stream into its one aggregate, from a queue of at most 100 waiting deliveries, of any payments, all due, all readable and none meeting a fault, however long the passes take |
| IdleStreams.ThreeDuePasses | src/quidz/inbox.py:357-386 | from any queue of at most 100 waiting deliveries, due or not and whatever the others meet, a call settles the payment as soon as three of its passes have begun with the payment's waiting deliveries due, if none of them meets a fault |
| Reconciler.Collector.Add | src/quidz/reconcile.py:229-264 | one finding is appended, graded by the override for its kind or else by its base severity |
| Reconciler.ComparePair | src/quidz/reconcile.py:267-339 | the findings added are those specified for the pair |
| ReportFields.KindsExact | src/quidz/reconcile.py:267-399 | for each kind, exactly which records of a payment draw a finding of it, and that they draw one at most |
| ReportFields.EventFields | src/quidz/reconcile.py:267-399 | id, reference, currency, age and signed delta of every event-side finding, from the records; a direction only on a status mismatch, towards the side that is ahead |
| Reconciler.GroupLocals | src/quidz/reconcile.py:495-497 | the grouping holds each id's records in order, ids in order of appearance |
| Reconciler.GroupRemotes | src/quidz/reconcile.py:498-510 | likewise for the provider, with one finding per row that has no payment id |
| Reconciler.ReconcileEvents | src/quidz/reconcile.py:342-399 | the findings added are those of every payment either side knows, in id order |
| Reconciler.BuildByRef | src/quidz/reconcile.py:411-414 | the lookup by reference holds, for each non-empty reference, the last grouped provider row that carries it |
| Reconciler.SettleRows | src/quidz/reconcile.py:415-456 | the findings added are one per settlement row, in reference order, and the settled set is exactly the joined references |
| Reconciler.ReconcileSettlement | src/quidz/reconcile.py:402-476 | the settlement findings, then the payments past the settlement limit |
| Reconciler.ReconcileAll | src/quidz/reconcile.py:479-554 | the report is the sorted findings of the specification and its counts by severity are exact |
| ReconcileTheorems.EventSideOfPayment | src/quidz/reconcile.py:350-399 | the event-side findings that carry a payment id are exactly the ones raised for it |
| ReconcileTheorems.EventSideExact | src/quidz/reconcile.py:267-399 | a known payment draws no event-side finding iff each side has one record of it and they agree in currency, amounts and derived status |
| ReconcileTheorems.EventDeltas | src/quidz/reconcile.py:267-399 | every delta on the event side is, in size, the gap between the two sides' net positions, an absent side counting as zero, in that payment's currency |
| ReconcileTheorems.NamesReadBack | src/quidz/model.py:178-182 | a status name reads back as its status and its rank |
| ReconcileTheorems.WordsUnderstood | src/quidz/model.py:66-80 | the nine words a provider's status is understood by |
| ReconcileTheorems.DirectionExact | src/quidz/reconcile.py:215-226 | a mismatch points at the ledger iff its status has the later rank, at the provider iff the provider's known status has, and nowhere otherwise |
| ReportFields.ReportDirections | src/quidz/reconcile.py:323-339 | in every report: a status mismatch points at the ledger iff the provider's status is known and earlier, at the provider iff it is known and later, and no other finding points anywhere |
| ReportFields.RowFields | src/quidz/reconcile.py:415-456 | kind, id, reference, currency, signed delta and severity of a settlement row's finding |
| ReportFields.UnsettledFields | src/quidz/reconcile.py:458-476 | the fields of the settlement limit's finding, raised once |
| ReportFields.ParkedFields | src/quidz/reconcile.py:515-521 | a parked delivery is stale iff older than the limit; the other fields |
| ReportFields.UnknownExact | src/quidz/reconcile.py:498-510 | one finding for each provider row without a payment id, and none besides |
| ReportFields.FeeBpsExact | src/quidz/reconcile.py:438-443 | the rate is the nearest, ties to even, of the gap over the capture in basis points, and the whole for nothing captured |
| ReportFields.ShippedGrades | src/quidz/reconcile.py:76-118 | which kinds are graded critical, break, warn and info |
| ReportFields.OverridesDecide | src/quidz/reconcile.py:249-254 | in every report an override decides the severity of its kind, and without one it is the shipped grade, or a break for a fee beyond tolerance |
| ReportFields.KindsByName | src/quidz/reconcile.py:58-71 | the thirteen kinds in the order of their names |
| ReportFields.ReportOrdered | src/quidz/reconcile.py:523-533 | worst severity first, then kind, then payment id, then reference, a missing one before any other |
| ReportFields.ReportStable | src/quidz/reconcile.py:498-533 | findings level in all four keep the order they were raised in: anonymous provider rows, payments, settlement rows, the settlement limit, parked deliveries |
| ReportFields.TakenInOrder | src/quidz/reconcile.py:415-515 | the settlement file is taken by reference, the parked deliveries by payment and then by age |
| ReportFields.FirstRecordDecides | src/quidz/reconcile.py:495-497 | the ledger record compared is the first one listed for its id |
| ReportFields.FirstListingDecides | src/quidz/reconcile.py:498-510 | likewise for the provider's |
| ReconcileTheorems.OneFindingPerRow | src/quidz/reconcile.py:417-456 | every settlement row yields exactly one finding, about that row |
| ReconcileTheorems.NearestEven | src/quidz/reconcile.py:440-443 | the fee rate is the nearest whole number of basis points, ties to the even one, and only that |
| ReconcileTheorems.ByRefFinds | src/quidz/reconcile.py:413-419 | a reference is found iff it is not empty and some provider row with a payment id carries it, and what is found carries it |
| ReconcileTheorems.ReportIsThePermutation | src/quidz/reconcile.py:523-533 | the report holds every finding raised, as often as it was raised, worst severity first |
| Gate.ExposureByCurrency | src/quidz/reconcile.py:557-573 | a total for exactly the currencies of the measured breaks, each the sum of the absolute deltas in that currency |
| Gate.DecideGate | src/quidz/reconcile.py:584-646 | the loop-built exposure, the fallback ids and the break glass filter give the decision of the specification |
| GateTheorems.FailsClosed | src/quidz/reconcile.py:596-622 | without a live break glass, under every scope, outbound is blocked iff some finding blocks, and then some id is; ingest never is |
| GateTheorems.IngestNeverBlocked | src/quidz/reconcile.py:624-646 | for all findings, every scope, break glass or not: ingest is never blocked, outbound is blocked iff some id is, and the ids stand sorted, each once |
| GateTheorems.FallbackExactly | src/quidz/reconcile.py:600-611 | a batch is blocked as everything; where no blocking finding carries an id of the scope, exactly their references are, or everything if they carry none |
| GateTheorems.CurrenciesBlocked | src/quidz/reconcile.py:605-620 | under the currency scope the blocked ids are the currencies of the blocking findings, less a live break glass's |
| GateTheorems.BlockedExactly | src/quidz/reconcile.py:596-622 | when some blocking finding carries an id of the scope, the blocked ids are exactly those of the blocking findings, less a live break glass's |
| GateTheorems.GlassRemovesItsScope | src/quidz/reconcile.py:613-620 | a live break glass removes exactly the ids it names and is reported iff it removed one; ingest stays open, and outbound is blocked iff an id is left; an expired one is inert |
| GateTheorems.AddingNeverUnblocks | src/quidz/reconcile.py:596-622 | under every scope, adding findings to an anchored report never removes a blocked id nor reopens outbound movement, live break glass or not |
| GateTheorems.UnblocksExactly | src/quidz/reconcile.py:596-622 | for every report, no addition unblocks anything iff it is anchored: nothing is blocked, the scope is the batch, or a blocking finding carries an id of the scope |
| GateTheorems.NewcomerDisplaces | src/quidz/reconcile.py:605-611 | to a report that is not, adding one critical finding with an id leaves that id alone blocked, or none if a live break glass names it |
| GateTheorems.ReopensExactly | src/quidz/reconcile.py:605-622 | some addition reopens outbound movement iff the report is not anchored and a live break glass names an id |
| GateTheorems.DecisionIgnoresOrder | src/quidz/reconcile.py:596-622 | permuting the findings does not change the decision, under any scope |
| GateTheorems.AnonymousFindingsDisplaced | src/quidz/reconcile.py:610-611 | one such report and addition, written out |
| EndToEnd.ReportMembers | src/quidz/reconcile.py:479-533 | exactly which findings a report holds, whatever the order of the inputs' processing |
| EndToEnd.EventSeverities | src/quidz/reconcile.py:267-399 | exactly which pairs of record lists draw a critical finding and which draw a break, with the shipped severities |
| EndToEnd.SeveritiesExact | src/quidz/reconcile.py:267-521 | from the inputs: exactly when a payment has a critical finding and exactly when it has a break |
| EndToEnd.ReportNamed | src/quidz/reconcile.py:479-533 | every critical finding and break of a run carries a non-empty payment id |
| EndToEnd.BlocksExactlyDrift | src/quidz/reconcile.py:596-620 | from inputs to decision: the blocked ids are the payments with a critical cause and, when material, those with a break cause, less a live break glass's |
| EndToEnd.MissingAlwaysBlocked | src/quidz/reconcile.py:380-398 | a provider payment past the grace window and absent from the ledger is always blocked |
| EndToEnd.AgreeingBlockedExactly | src/quidz/reconcile.py:267-521 | a payment the three sources agree on, without a stale park, is blocked iff the breaks are material, its settlement is due, and the provider row kept for its reference belongs to a payment the ledger lacks, less a live break glass |
| EndToEnd.AgreeingNeverBlocked | src/quidz/reconcile.py:267-521 | so it is never blocked while every provider payment that shares its reference, if any does, is in the ledger, whatever else the others do |
| EndToEnd.SharedReferenceBlocks | src/quidz/reconcile.py:411-476 | an input on which an agreeing, settled payment is blocked under the default thresholds |
| EndToEnd.UnsettledExact | src/quidz/reconcile.py:458-476 | when no two payments share a reference, the settlement limit is reported iff the payment is captured, known to the provider, past the limit and no row carries its non-empty reference |
| Materiality.BreaksByParts | src/quidz/reconcile.py:479-533 | whatever is summed over the breaks of a report is the sum over the payments, the settlement rows, the ledger's payments past the limit and the parked deliveries |
| Materiality.BreaksCounted | src/quidz/reconcile.py:267-521 | the number of breaks, from the inputs |
| Materiality.ExposureCounted | src/quidz/reconcile.py:557-573 | the exposure in a currency, from the inputs: the net gaps, the excess fees' deltas and the captures past the limit in it |
| Materiality.MaterialExactly | src/quidz/reconcile.py:596-604 | exactly which inputs make a run's breaks material |
| Signing.EscapeIsPerCharacter | src/quidz/verify.py:160-166 | the two replaces in sequence escape each character once |
| Signing.UnjoinSigningString | src/quidz/verify.py:189-191 | the joined string can be taken apart into the fields it was made of |
| Signing.SigningStringInjective | src/quidz/verify.py:189-191 | equal signing strings come from equal field tuples, colons, trailing backslashes and empty fields included |
| Signing.SigningFields | src/quidz/verify.py:177-186 | exactly the eight signed fields, each the flat value or, for an empty amount field, the nested one |
| Signing.FieldSigned | src/quidz/verify.py:169-186 | the text signed for a field: nothing for null, lower case words for truth values, the nested amount's where the item's own is empty |
| Signing.SigningLayout | src/quidz/verify.py:42-51 | the eight fields in signing order, escaped, a colon between any two |
| Signing.FlatteningIsIdempotent | src/quidz/verify.py:194-201 | flattening a flat mapping changes no signed field |
| Signing.SameStringSameFields | src/quidz/verify.py:177-191 | items that sign the same string agree on every signed field |
| Signing.ParseStripeSignatureHeader | src/quidz/verify.py:75-99 | the parse is the specified contents of the header, every rejection included |
| Signing.OtherSchemesIgnored | src/quidz/verify.py:83-90 | a printed header's reading depends on its t and v1 parts alone, wherever parts of other schemes stand |
| Signing.HeaderRoundTrip | src/quidz/sim.py:429-436 | the timestamp and signatures of a printed header come back, with other schemes interleaved anywhere |
| Signing.HeaderExactly | src/quidz/verify.py:75-99 | for every printed header: what it is read as, and that it is rejected iff it has no timestamp, no v1 signature, or a last timestamp not written as a number is |
| Signing.CutPadded | src/quidz/verify.py:84 | blanks around a part change nothing |
| Signing.BarePartIgnored | src/quidz/verify.py:84-86 | a part without an equals sign is passed over |
| Signing.ProviderHeaderPrintable | src/quidz/sim.py:429-436 | the header the provider sends is one of those |
| Currencies.ExponentTable | src/quidz/money.py:28-99 | which codes are codes, the sixteen without a minor unit, the seven with three digits, two for the rest |
| Currencies.Layout | src/quidz/money.py:92-121 | exactly the currency's number of fractional digits, at least one integer digit, no idle leading zero, a sign iff negative, digits worth the amount |
| Currencies.FormatRoundTrip | src/quidz/money.py:114-121 | reading a rendered amount gives back exactly that amount and currency |
| Currencies.FormatInjective | src/quidz/money.py:114-121 | no two amounts share a rendering |

## Left out

- Confluence.ThreePasses: leaves aside the streams with a left over zero refund, for which it is false; Refusals.ThreePassesExactly has both sides.
- GateTheorems.AddingNeverUnblocks: is for anchored reports; for every other report it is false, as GateTheorems.UnblocksExactly says.
- EndToEnd.AgreeingNeverBlocked: is for references that no provider payment unknown to the ledger shares; EndToEnd.AgreeingBlockedExactly covers all inputs.
- Retries.RetryBudget: counts a retry in the minute its pass began in; Retries.PromptBudget and Overruns.ClockBudgetExactly say when the minute it is scheduled in keeps the budget too.
- Retries.ClockBudget: is twice the budget, which is the best bound there is, as Overruns.BudgetOverrun shows.
- RowVerdicts.RowVerdict: is for sound books, which every run keeps (Safety.EveryRunSafe).
- Dlq.DelayExact: is for delays that are not negative; with a negative ceiling the interval is the other way round, as Python's uniform takes it.
- Inbox.Park: the machine parks queued rows only, as the one caller that parks does; the method itself takes any row, as the function does.
- IdleStreams.OneCallSettles: every waiting delivery is due at the start, since one that is not, or one of another payment that is put off to be retried, can use up passes that the stream then lacks; IdleStreams.ThreeDuePasses has any queue, and asks for three passes that find the payment's deliveries due.
- IdleTheorems.StopsExactly: the clock stands at zero or later, as a Unix time does; so does the one IdleStreams.OneCallSettles starts from.
- Idle.Turn: the clock sleeps exactly as long as it is asked to, so that it wakes at the time it sleeps to.
- EndToEnd.BlocksExactlyDrift: is for the shipped severities and the payment scope; the gate's own theorems cover the other scopes and any severities.
- Materiality.MaterialExactly: is for the shipped severities, as EndToEnd.BlocksExactlyDrift is.
- Width of integers: the store's 64-bit limit on INTEGER columns is not modelled as arithmetic; an amount it cannot hold is one of the faults a row step may carry.
- Locks, write ahead logging, busy timeouts, threads, and a fault raised by COMMIT itself: a transaction is atomic and has one worker.
- Several drain workers: outside what the code claims.
- The extraction of events from provider JSON: one deterministic function of the stored bytes.
- Columns nothing here decides on: headers, the raw amount strings, payout date and journal type.
- The vectors, prose details and rationale a report carries for its reader, its merged counters and oldest unresolved age, and its text and JSON renderings.
- Floating point: times are reals, and the basis points are rounded from the exact quotient.
- Pseudo random generators: a delay is any value between zero and the ceiling.
- HMAC, base64, constant time comparison, key rotation and the timestamp window.
- Characters other than 0 to 9 that Python's isdigit accepts: such a timestamp is a rejection, as the integer conversion or the canonical check after it makes it.
- Adyen's own exponents for four currencies, which rendering does not use; money.add and money.sub, which would only add easy members.
- The web application, command line, simulator and metrics allowlist.
