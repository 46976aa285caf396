# Verification of the order pipeline, the notifications service and the auth worker

This project models, in Dafny, four cores of the repository and proves what they promise for all
inputs, all runs and all interleavings.

**The order pipeline** (`order-core-service`, its outbox relay, `llm` and the broker between them).
`OrderTables` has the two tables and the SQL statements on them, `OrderCore` the handlers as they run
inside one unit of work over a connection that may fail at any statement, `OrderSerial` what holds
when transactions do not overlap. `Pipeline` is the same system as a labelled transition system in
which transactions interleave statement by statement at READ COMMITTED, may abort between any two
statements, relays publish before they commit, and the broker redelivers whatever was not
acknowledged. `PipelineInvariant` states the global invariant, `PipelineSteps` keeps it step by step,
`PipelineTheorems` draws the conclusions: llm can never answer for an order that core does not have,
what each status means under interleaving, and what the relay may publish. `NothingLost` proves that no
order and no verdict is lost on its way. `VerdictRuns` builds
concrete runs, with which `SplitVerdicts` says exactly which settings rule out what overlapping
verdicts can do. `RelayOutbox` has the relay's run and its drain loop, `Assessing` and `AssessOrders`
llm's policy and its handling of one batch. `LoneRuns` ties the two views together: a transaction, a
relay run or a worker that nothing interrupts leaves what its handler leaves.

**The message llm builds** (`Text`, `MessageBuilder`) and **the validator it must pass**
(`CreateNotification`): UTF-16 widths and two nested truncations. `EndToEnd` carries the result through
the pipeline: what reaches the notifications service is the message built for its order, and passes
the validator.

**The retry machine of the notifications service** (`DeliverNotification`, `RetryQueues`): the
decision on one delivery, the counters, the attempt count read back from the broker's `x-death`
header, and the main queue, retry queue and dead-letter queue with publishes that throw and
connections that drop before the acknowledgement.

**The auth worker** (`CookieJar`, `Jars`, `HttpRenew`, `Locations`, `CookieFile`, `AuthPorts`,
`RefreshAuth`, `FreshTokens`, `GetCookies`): the cookie jar as an ordered slice that refines a map, the
freshest-token index, pruning, the sorted and normalised cookie file, and the refresh cycle with an
arbitrary renewer and arbitrary clock readings, read back through the file. `FreshTokens` says when a
reported refresh has brought a new token.

Parts of the source that update objects in place are classes and methods with loops, proved against
functions of the old state; the theorems are lemmas about those functions.

## What the code does differently from what it says

- A repeated verdict is said to be a no-op. It is when the two do not overlap
  (`OrderSerial.SecondVerdictIsIgnored`). `ProcessAssessment` reads the status and later writes it
  without a guard, so two overlapping verdicts on the same order can both apply. Then the committed
  score of a judged order can change (`SplitVerdicts.JudgedAgain`; ruled out exactly by an llm
  threshold of at least 100, `SplitVerdicts.JudgementsStayIff`), a `NO_NOTIFY` order can have a
  notify event (`SplitVerdicts.SplitRun`, `SplitVerdicts.SkippedIsSilentIff`), and
  a notified order can carry the message of another score (`SplitVerdicts.MismatchedRun`,
  `SplitVerdicts.MessagesMatchScoresIff`).
- A refresh is reported when the freshest token changed, and that can be an older copy which the jar
  held all along: with copies expiring at 100 and 50, overwriting the newer one by an unreadable
  text counts as a refresh and saves the older one (`FreshTokens.OldCopyExample`). The saved token is
  a new one in all cycles exactly when the copies in the loaded jar agree
  (`FreshTokens.RefreshedIsNewIff`).
- Retry decisions on one message are not bounded by `maxAttempts - 1`: a reject lost with its
  connection is decided again (`RetryQueues.LostRejectIsDecidedAgain`). In all runs the bound holds
  exactly when no retry is granted at all (`RetryQueues.RetryDecisionsBoundedIff`); in one run it
  holds when no connection was lost, and otherwise with one more for each, which is attained
  (`RetryQueues.AttemptsAreBounded`, `RetryQueues.BoundsAreAttained`).
- `createMessageHandler` says it never throws; it does exactly when a dead-letter publish does
  (`DeliverNotification.Handle`). `RetryQueues.BoundsAreAttained` has runs with any number of these.
- `guard` says a message that does not parse goes to the dead-letter queue. A verdict whose score is
  outside 0..100 fails in the mapping inside `handle`, where `ValidationError` is not caught, and goes
  back to the queue each time (`OrderCore.OnAssessResult`, `OrderCore.RedeliverOutOfRange`).
- `_on_assess_requests` retries by id: when one id occurs twice in a batch and only one occurrence
  failed in passing, both are retried (`AssessOrders.DuplicateIsRetriedToo`); retries are exact for
  all answers if and only if the ids are distinct (`AssessOrders.RetriesExactlyIffDistinct`).
- A response cookie with `Max-Age=0` is not a deletion here (`HttpRenew.MaxAgeFirst`,
  `HttpRenew.MergedIsPresent`).

## Modelling choices

- `Source` has the single value `profi`, so the tables are indexed by external id; the dedup keys are
  indexed by kind and id, and `OrderTables.KeyTextInjective` shows that this is the uniqueness the
  stored text has.
- A connection, broker or dead-letter exchange that may fail is a number of answers it still gives or
  a flag; `RetryQueues` and `Pipeline` let it fail at every step.
- Reading a JWT and computing a fingerprint are arbitrary functions of the token text
  (`CookieJar.Reader`); nothing is assumed of them, in particular not that fingerprints differ.
- Lock, clock, renewer and file of the auth worker follow an arbitrary script (`AuthPorts.Script`):
  the clock need not advance, the renewer may set any cookies and then report any result.
- The relay's batch size is positive where a run needs the relay to publish, as the settings demand.
- `sort.Slice` is taken to give some order by location; `CookieFile.IsExport` promises no more.

## Model

| member | source | states |
|---|---|---|
| OrderTables.ToIncomingOrders | order-core-service/app/infrastructure/messaging/mapping.py:16-27 | one incoming order per wire order of the batch, in order, carrying that order as payload, its id as external id, and the request id and fetch time of the batch |
| OrderTables.DedupTextInjective | order-core-service/app/infrastructure/db/repositories.py:80-94 | the text of a dedup key determines its kind, its source and the external id, whatever characters the id holds |
| OrderTables.KeyTextInjective | order-core-service/app/infrastructure/db/repositories.py:80-104 | two dedup keys have the same text exactly when they are the same key, so the unique constraint on the text is uniqueness of (kind, order); an id of at most 128 characters gives a key of at most 200 |
| OrderTables.KeyTextReads | order-core-service/app/infrastructure/db/repositories.py:80-104 | the dedup keys are `assess:profi:` and `notify:profi:` followed by the external id |
| OrderTables.MarkedRows | order-core-service/app/infrastructure/db/outbox_dispatch.py:56-64 | marking sets the status of exactly the named rows and leaves destination, payload and creation time of every row as they were |
| OrderCore.UnitOfWork.InsertNew | order-core-service/app/infrastructure/db/repositories.py:27-42 | inserts only when the transaction sees no such order and reports whether it did; a failing connection raises |
| OrderCore.UnitOfWork.AddAssessmentRequest | order-core-service/app/infrastructure/db/repositories.py:80-104 | adds the assess event unless its dedup key is already there |
| OrderCore.UnitOfWork.Get | order-core-service/app/infrastructure/db/repositories.py:44-57 | reads the order as the transaction sees it, without writing |
| OrderCore.UnitOfWork.SetStatus | order-core-service/app/infrastructure/db/repositories.py:59-73 | writes status and score over whatever the transaction sees, with no guard on the old status |
| OrderCore.UnitOfWork.AddNotification | order-core-service/app/infrastructure/db/repositories.py:87-104 | adds the notify event unless its dedup key is already there, with the command as payload and the moment of the transaction as its creation time |
| OrderCore.UnitOfWork.Commit | order-core-service/app/infrastructure/db/unit_of_work.py:25-49 | all of the writes become visible, or none of them |
| OrderCore.IngestOrders | order-core-service/app/application/ingest_orders.py:19-35 | a batch is ingested whole or, at whichever statement the connection fails, not at all; it succeeds when the connection lasts |
| OrderCore.ProcessAssessment | order-core-service/app/application/process_assessment.py:27-70 | on success the tables are those of one applied verdict, and over the threshold a waiting order is NOTIFY_REQUESTED with a pending notify event of this moment; on any failure they are untouched; the permanent error means the order is not there |
| OrderCore.VerdictOutcome | order-core-service/app/application/process_assessment.py:27-70 | every outcome of one verdict in fields: unknown order, judged order, skipped order, and notified order with destination, command, pending status and creation time of its event |
| OrderCore.NewOrderOutcome | order-core-service/app/application/ingest_orders.py:19-35 | every field of the row and of the assess event that one new order leaves, with an envelope of the request id and fetch time around this one order |
| OrderCore.OnAssessResult | order-core-service/app/infrastructure/messaging/reliability.py:31-54 | a verdict is acknowledged only when it was applied and committed, or went to order.dlq under the right category with the tables untouched; otherwise it goes back to the queue with nothing changed; with database and broker up it is acknowledged exactly when it does not parse or its score is in 0..100 |
| OrderCore.RedeliverOutOfRange | order-core-service/app/infrastructure/messaging/subscribers.py:57-69 | a verdict with a score outside 0..100 is never acknowledged, however often it is redelivered, and changes nothing |
| OrderCore.ScoreOf101 | order-core-service/app/infrastructure/messaging/subscribers.py:57-69 | a concrete one: a verdict of 101 on an unknown order, redelivered with everything up |
| OrderSerial.IngestAdds | order-core-service/app/application/ingest_orders.py:19-35 | order by order, what one ingest leaves: known orders and all notify events as they were, each new id stored as its first occurrence with its assess event pending |
| OrderSerial.IngestOutcome | order-core-service/app/application/ingest_orders.py:19-35 | for a whole message: each id that is new becomes a waiting row of its first occurrence, with the request id and fetch time of the message, and a pending assess event of this moment around that one order |
| OrderSerial.KnownBatchChangesNothing | order-core-service/app/application/ingest_orders.py:19-35 | a batch of known orders changes nothing at all |
| OrderSerial.FirstOccurrenceWins | order-core-service/app/application/ingest_orders.py:19-35 | after any committed batches with duplicates inside and across them, exactly the ids that occurred are stored, each as its first occurrence, each with the one matching assess event |
| OrderSerial.ReplayChangesNothing | order-core-service/app/application/ingest_orders.py:1-6 | in a run of ingests, replaying any batch committed earlier changes nothing |
| OrderSerial.RedeliveryChangesNothing | order-core-service/app/application/ingest_orders.py:1-6 | in any serial run, redelivering a batch committed earlier changes nothing, whatever verdicts, relay runs and other batches were committed since |
| OrderSerial.NextSettled | order-core-service/app/application/process_assessment.py:27-70 | every committed transaction keeps the serial meaning of statuses, and moves a status only along the two documented edges, only from ASSESS_REQUESTED |
| OrderSerial.SerialRun | order-core-service/app/application/process_assessment.py:27-70 | after any serial run: every order has its assess event; waiting means no score and no notify event, notified a score at or over the threshold and the notify event, skipped a score below it and no notify event; FAILED is never reached |
| OrderSerial.SecondVerdictIsIgnored | order-core-service/app/application/process_assessment.py:33-40 | without overlap, of the verdicts on one order the first applied is final, whatever the next one says |
| OrderSerial.MessageMatchesScore | order-core-service/app/application/process_assessment.py:42-52 | in a serial run the notify event of a notified order carries the message of the very verdict whose score is on its row, for the destination notify, created at the time of that transaction |
| OrderSerial.VerdictAlone | order-core-service/app/application/process_assessment.py:42-70 | the interleaved statements of a verdict transaction, run without interruption, do what the serial handler does |
| OrderSerial.IngestTurnAlone | order-core-service/app/application/ingest_orders.py:21-34 | the interleaved statements of one ingest turn do what the serial loop does on what the transaction sees |
| PipelineTheorems.StepKeeps | order-core-service/app/infrastructure/db/repositories.py:59-104 | every one of the 22 kinds of step of core, relay, llm and broker keeps the global invariant |
| PipelineTheorems.RunKeeps | order-core-service/app/application/process_assessment.py:27-70 | so does every run, of any length and any interleaving |
| PipelineTheorems.PersistBeforePublish | order-core-service/app/application/process_assessment.py:1-7 | in every reachable state each order on its way to llm, at llm, or answered by llm is a committed row; a verdict transaction always finds its order; order.dlq never gets a permanent failure |
| PipelineTheorems.StatusMeaning | order-core-service/app/application/process_assessment.py:27-70 | however verdict transactions interleave and wherever they abort: the assess event is there with the stored payload, waiting orders have no score and no notify event, notified ones have the notify event and passed the threshold, skipped ones scored below it, FAILED never occurs |
| PipelineTheorems.StepGrows | order-core-service/app/infrastructure/db/repositories.py:27-104 | one step never removes a committed row, changes a payload or destination, takes back a publish, or makes a judged order wait again |
| PipelineTheorems.HistoryIsKept | order-core-service/app/infrastructure/db/repositories.py:27-104 | the same between any two states of any run |
| NothingLost.NoOrderIsLost | order-core-service/app/infrastructure/messaging/reliability.py:1-54 | through aborts, crashes, raising publishes and redeliveries, in every run in which llm does not drop it: the assess event of a committed order is still to be published, or llm has a request for it (queued, waiting for its retry, being handled, or parked in the dead-letter queue), or a verdict on it is queued or being handled, or it is judged |
| NothingLost.NoVerdictIsLost | order-core-service/app/infrastructure/messaging/reliability.py:1-54 | each verdict llm published is queued or being handled until its order is judged, wherever its transactions abort |
| NothingLost.NoNotificationIsLost | order-core-service/app/infrastructure/messaging/event_publisher.py:16-20 | in every reachable state the message of a notify event marked published has reached the notifications exchange |
| NothingLost.FirstSend | order-core-service/app/application/relay_outbox.py:27-37 | the first publish of an assess event asks llm about that order, whether the publish is reported as failed or not |
| NothingLost.AskedStays | llm/app/infrastructure/messaging/subscriber.py:29-36 | one step does not lose an order llm is asked about, unless it drops that very order: finishing, a raising retry publish, a crash and an expiry each pass it on |
| PipelineTheorems.RelaySafety | order-core-service/app/application/relay_outbox.py:27-37 | with failing publishes, crashes before the commit and several relays: only committed rows go out, as they are; a row marked published did go out; a row goes out at most once more often than runs that claimed it gave it back; concurrent claims are disjoint; every destination is known to the publisher |
| PipelineTheorems.MessagesAreTheirOrders | order-core-service/app/infrastructure/db/repositories.py:87-94 | every committed notify event of an order carries a message that llm published for that very order, with a score at or over the threshold |
| PipelineTheorems.CommittedRowsAreTimed | order-core-service/app/infrastructure/db/models.py:71-73 | in any interleaving, every outbox row that a commit adds carries the time of the committing transaction |
| PipelineTheorems.NotificationsComeFromRows | order-core-service/app/infrastructure/messaging/event_publisher.py:16-20 | whatever reaches the notifications exchange is the payload of the committed notify event of a committed order, and a message llm published for that order |
| PipelineTheorems.StepLeaves | order-core-service/app/infrastructure/db/unit_of_work.py:31-46 | only a commit changes the committed tables |
| PipelineTheorems.TwoThresholds | llm/app/domain/decision.py:23-28 | a notified order has a verdict of llm with its recorded score that had no unsupported hits, was no rejected type and passed both thresholds; with core's threshold at most llm's, no order is ever skipped |
| PipelineSteps.ClaimKeeps | order-core-service/app/infrastructure/db/outbox_dispatch.py:40-54 | claiming pending unlocked rows keeps the invariant, with its locks |
| PipelineSteps.PublishKeeps | order-core-service/app/application/relay_outbox.py:32-33 | publishing a claimed event keeps the invariant although nothing is committed yet |
| PipelineSteps.PublishRaisesKeeps | order-core-service/app/infrastructure/db/outbox_dispatch.py:26-38 | a publish that raises, delivered or not, rolls the run back and gives its rows back |
| PipelineSteps.CommitKeeps | order-core-service/app/infrastructure/db/unit_of_work.py:45-46 | any transaction may commit in any reachable state |
| PipelineSteps.ClaimsDisjoint | order-core-service/app/infrastructure/db/outbox_dispatch.py:40-50 | no row is held by two open relay runs |
| PipelineSteps.UpdateOrderKeeps | order-core-service/app/infrastructure/db/repositories.py:59-73 | the unguarded status update keeps the invariant although the status may have changed since it was read |
| PipelineSteps.FinishKeeps | llm/app/infrastructure/messaging/subscriber.py:30-36 | what llm puts into the retry queue names only committed orders |
| PipelineSteps.RetryPublishRaisesKeeps | llm/app/infrastructure/messaging/subscriber.py:29-36 | so it does when the retry publish raises, stored or not, and the delivery goes to the dead-letter queue |
| PipelineSteps.AssessKeeps | llm/app/application/assess_orders.py:41-54 | a published verdict answers a committed order with a score llm found suitable |
| SplitVerdicts.SplitNeedsTwoVerdicts | order-core-service/app/application/process_assessment.py:33-65 | a skipped order with a notify event was judged twice, once on each side of the threshold |
| SplitVerdicts.SplitRun | order-core-service/app/application/process_assessment.py:29-63 | a run in which two verdicts on one order both apply and the order ends NO_NOTIFY with a notify event |
| SplitVerdicts.SkippedIsSilentIff | order-core-service/app/application/process_assessment.py:33-65 | "NO_NOTIFY means no notify event" holds in all reachable states exactly when llm cannot publish verdicts on both sides of core's threshold (not: 0 < core threshold <= 100 and llm threshold below it) |
| SplitVerdicts.SkipReachableIff | order-core-service/app/domain/decision.py:23-26 | NO_NOTIFY is reachable exactly when some score in 0..100 is at least llm's threshold and below core's |
| SplitVerdicts.JudgedAgain | order-core-service/app/application/process_assessment.py:29-63 | whenever llm's threshold is below 100, a run in which a second verdict overwrites the committed score of a judged order |
| SplitVerdicts.JudgementsStayIff | order-core-service/app/application/process_assessment.py:1-7 | status and score of a judged order never change again, in any run, exactly when llm's threshold is at least 100 |
| SplitVerdicts.MismatchedRun | order-core-service/app/infrastructure/db/repositories.py:59-104 | a run that ends with a notified order whose notify event carries the message of another score than the one on its row |
| SplitVerdicts.MessagesMatchScoresIff | order-core-service/app/infrastructure/db/repositories.py:59-104 | in all runs the notify event of a notified order carries the message of a verdict with the score on its row, exactly when at most one score is both published by llm and notified about by core |
| VerdictRuns.Applies | order-core-service/app/application/process_assessment.py:42-70 | everything a verdict transaction does that nobody is in the way of, whatever status the order has by then: row, notify event unless there is one, and nothing else |
| RelayOutbox.ClaimPending | order-core-service/app/infrastructure/db/outbox_dispatch.py:40-54 | different rows, each of them pending and held by no other relay, as many as the limit allows, all of them when they fit it |
| RelayOutbox.ClaimReads | order-core-service/app/infrastructure/db/outbox_dispatch.py:40-54 | a claim row by row: ascending creation times, none younger than a row left behind, and nothing left behind below the limit |
| RelayOutbox.EventsRead | order-core-service/app/infrastructure/db/outbox_dispatch.py:26-38 | what goes out for each claimed row is its key, destination and payload |
| RelayOutbox.RunOnce | order-core-service/app/application/relay_outbox.py:27-37 | on success exactly the claimed rows went out in order and are marked; on failure nothing is marked and only a prefix of the claim may have gone out; with no failure it succeeds |
| RelayOutbox.PendingLeft | order-core-service/app/infrastructure/db/outbox_dispatch.py:40-64 | a claim takes as many rows as the limit and the backlog allow, and marking them takes exactly those off the backlog |
| RelayOutbox.Drain | order-core-service/app/infrastructure/outbox/relay.py:32-41 | with no failure and no new row, exactly the pending rows are published, each once, all rows end published, and the relay reaches its idle tick after exactly the counted productive runs |
| RelayOutbox.DrainReads | order-core-service/app/application/relay_outbox.py:27-37 | a drain that took as many rows as were pending took exactly the pending ones, each once, and leaves none |
| RelayOutbox.BatchesIsCeiling | order-core-service/app/infrastructure/outbox/relay.py:32-41 | that number of runs is the backlog divided by the batch size, rounded up |
| RelayOutbox.DestinationsAreKnown | order-core-service/app/infrastructure/messaging/event_publisher.py:16-20 | in every reachable state each outbox row has a destination the publisher knows, so publishing never raises ValueError and the drain applies |
| RelayOutbox.ClaimIsEnabled | order-core-service/app/infrastructure/db/outbox_dispatch.py:40-50 | every claim the relay makes under the current row locks is one the interleaved system allows |
| LoneRuns.LoneRelay | order-core-service/app/application/relay_outbox.py:27-37 | in the interleaved system, a relay run that nothing interrupts marks exactly its claim, puts each payload into the queue of its destination once, and leaves no lock: what the handler does |
| LoneRuns.LoneIngest | order-core-service/app/application/ingest_orders.py:19-35 | in the interleaved system, an ingest transaction with no other one open leaves the tables that the serial ingest leaves, and nothing else |
| LoneRuns.LoneVerdict | order-core-service/app/application/process_assessment.py:27-70 | in the interleaved system, a verdict with no other transaction open is taken off its queue and applied as the serial handler does, or dead-lettered when nobody knows the order |
| LoneRuns.LoneWorker | llm/app/infrastructure/messaging/subscriber.py:29-36 | in the interleaved system, a worker that nothing interrupts publishes exactly the verdicts of its batch and puts exactly the handler's retry envelope into the retry queue |
| Assessing.SelectIsFilter | llm/app/infrastructure/messaging/subscriber.py:33 | the orders kept are all of the batch whose id is listed, each from its place, in the old order, and no other |
| Assessing.DecideIff | llm/app/domain/decision.py:23-28 | an order is notified exactly when it has no unsupported hits, is no rejected type, and its score is at least the threshold; the first two decide the reason before the score |
| AssessOrders.AssessOne | llm/app/application/assess_orders.py:41-62 | publishes the id, score and message of an order exactly when it is suitable (no unsupported hit, no rejected type, score at least the threshold) and its publish arrives; asks for a retry exactly on a transient failure |
| AssessOrders.Handle | llm/app/application/assess_orders.py:34-39 | publishes the suitable verdicts in order and returns the ids of the transient failures in order |
| AssessOrders.OnAssessRequests | llm/app/infrastructure/messaging/subscriber.py:29-36 | republishes one retry envelope when something is to be retried, and rejects the delivery when that publish raises, which may have stored the envelope all the same |
| AssessOrders.BatchConserved | llm/app/application/assess_orders.py:34-62 | the batch is the disjoint union of the published, the dropped and the retried orders; one verdict per published order |
| AssessOrders.VerdictsAnswer | llm/app/domain/result.py:22-27 | every verdict carries the id and score of an order of the batch that was found suitable |
| AssessOrders.SuitableArePublished | llm/app/application/assess_orders.py:41-54 | the converse: the verdicts are one for each suitable order of the batch, in batch order, with its id, score and message, and no others |
| AssessOrders.FateIff | llm/app/application/assess_orders.py:41-54 | an order is published exactly when suitable, and retried exactly on a transient failure |
| AssessOrders.RetryIsTransientFailures | llm/app/infrastructure/messaging/subscriber.py:30-36 | the retried batch is exactly the transient failures in their order if and only if no id met a transient failure next to another fate; every other envelope field is kept |
| AssessOrders.RetriesExactlyIffDistinct | llm/app/infrastructure/messaging/subscriber.py:30-36 | whatever llm answers, exactly the transient failures are retried, if and only if the ids of the batch are pairwise distinct |
| AssessOrders.DuplicateIsRetriedToo | llm/app/infrastructure/messaging/subscriber.py:31-33 | for every batch with a duplicate id, answers for which an order that was done with is retried as well |
| AssessOrders.RoundsShrink | llm/app/infrastructure/messaging/subscriber.py:29-36 | over any number of retries the batch only loses orders, and a round without transient failure empties it |
| Text.LengthOfConcat | llm/app/domain/notification.py:31-33 | UTF-16 length adds up over concatenation |
| Text.LengthReads | llm/app/domain/notification.py:31-33 | the UTF-16 length is one unit for each character and one more for each beyond U+FFFF |
| Text.RStrip | llm/app/domain/notification.py:50 | the prefix that leaves only white space behind and does not end in any |
| Text.StripReads | llm/app/domain/notification.py:57-67 | stripping cuts white space, and only that, off both ends and leaves none there |
| Text.SpacesDiffer | notifications/src/domain/notification.ts:52-62 | what JavaScript trims is a list of 25 characters, and Python differs from it in the four separators U+001C to U+001F, NEL and the byte order mark |
| MessageBuilder.FitIsLongest | llm/app/domain/notification.py:41-49 | a prefix fits the budget exactly when it is no longer than the one kept |
| MessageBuilder.Truncate | llm/app/domain/notification.py:36-50 | the loop returns nothing, the text, or the right-stripped longest fitting prefix with the ellipsis |
| MessageBuilder.TruncatedFits | llm/app/domain/notification.py:36-50 | the result fits the limit, and is the text itself exactly when the text fits |
| MessageBuilder.TruncatedReads | llm/app/domain/notification.py:36-50 | a text that does not fit becomes its longest prefix that leaves room for the ellipsis, right-stripped, and the ellipsis; without a positive limit nothing is left |
| MessageBuilder.EscapeIsOnePass | llm/app/domain/notification.py:53-54 | the three replacement passes are one pass over the characters: none sees the output of another |
| MessageBuilder.EscapedHasNoTags | llm/app/domain/notification.py:53-54 | an escaped text opens and closes no tag |
| MessageBuilder.EscapeReadsBack | llm/app/domain/notification.py:53-54 | a reader of the three entities gets the text back that was escaped |
| MessageBuilder.DecimalReads | llm/app/domain/notification.py:64-65 | the digits of the score read back as the score, without a leading zero |
| MessageBuilder.BuildNotification | llm/app/domain/notification.py:57-73 | a command with the built text as HTML, without previews, thread id or silence, that the other service accepts; when the frame fits, it says all that is to be said |
| MessageBuilder.BuiltSaysAll | llm/app/domain/notification.py:57-73 | when header and meta fit: the link to the order, the escaped title or its fallback, the escaped budget if there is one, and a last line whose digits read back as the score; the escaped summary is there as a whole when it fits, and else cut to what is left |
| MessageBuilder.FrameTags | llm/app/domain/notification.py:57-65 | the header holds its own four tags next to whatever brackets the order id brings, the meta none, whatever title and budget say |
| MessageBuilder.TagsAreOurs | llm/app/domain/notification.py:57-73 | the whole message holds at most those, whatever the summary says and wherever it is cut, and exactly those when the frame fits |
| MessageBuilder.JoinedLength | llm/app/domain/notification.py:67-72 | the length of the joined parts, with and without a summary |
| MessageBuilder.OuterTruncationIff | llm/app/domain/notification.py:67-73 | the outer truncation is the identity exactly when header, separator and meta fit; the message then starts with the whole header and ends with the whole meta |
| MessageBuilder.BuiltIsAccepted | notifications/src/domain/notification.ts:52-83 | for every listing, summary and meta the other service's validator accepts the built text |
| DeliverNotification.DeathsCount | notifications/src/infrastructure/messaging/retry.ts:19-35 | a rejection by the main queue adds one to the attempt count read back from x-death; expiry in the retry queue adds none; the header stays one the reader understands |
| DeliverNotification.FirstEntryCounts | notifications/src/infrastructure/messaging/retry.ts:19-35 | the attempt count is that of the first entry for a rejection by this queue, rounded down, and none when it is not a positive number or there is no such entry |
| DeliverNotification.RetryIff | notifications/src/application/send-notification.ts:59-103 | another attempt is granted exactly to a failure that may pass, within the budget; delivered is decided exactly for a valid command that was sent |
| DeliverNotification.CategoryIff | notifications/src/application/send-notification.ts:36-103 | each dead-letter category is given exactly in its own case |
| CreateNotification.CreateIff | notifications/src/domain/notification.ts:52-83 | exactly the commands with a visible character, at most 4096 units, and no or a positive thread id are accepted, unchanged; which fault is reported otherwise |
| DeliverNotification.ValidationOutcome | notifications/src/application/send-notification.ts:59-103 | such a command is sent, and delivered when the send succeeds; a blank, too long or wrongly threaded one is dead-lettered under Validation, whatever the send would give |
| DeliverNotification.MetricsRegistry.RecordReceived | notifications/src/infrastructure/observability/metrics.ts:28-30 | counts one received message and touches no other counter |
| DeliverNotification.MetricsRegistry.RecordDelivered | notifications/src/infrastructure/observability/metrics.ts:32-34 | counts one delivery and touches no other counter |
| DeliverNotification.MetricsRegistry.RecordRetried | notifications/src/infrastructure/observability/metrics.ts:36-38 | counts one retry and touches no other counter |
| DeliverNotification.MetricsRegistry.RecordDeadLettered | notifications/src/infrastructure/observability/metrics.ts:40-42 | counts one dead letter of this category and touches no other counter |
| DeliverNotification.Handle | notifications/src/infrastructure/messaging/consumer.ts:45-105 | status, counters and dead-letter queue after one delivery: a dead letter is counted and acknowledged only once the exchange confirmed it; the handler throws exactly when a dead-letter publish does, and then leaves only the received count behind |
| RetryQueues.MovedOk | notifications/src/infrastructure/messaging/consumer.ts:45-105 | every step of a message keeps its whole history consistent: header, attempts, sends, outcomes |
| RetryQueues.LateOk | notifications/src/infrastructure/messaging/consumer.ts:45-72 | so does a handler call that outlived its connection and decides, records or throws after the message was redelivered |
| RetryQueues.StepKeeps | notifications/src/infrastructure/messaging/topology.ts:4-20 | every step of the machine keeps that and the accounting of the counters |
| RetryQueues.NothingIsLost | notifications/src/infrastructure/messaging/consumer.ts:39-44 | every message ever accepted is still queued, in flight, parked, delivered or dead-lettered, also when the dead-letter publish throws or the connection drops; it leaves the queues only delivered or dead-lettered |
| RetryQueues.CountersAddUp | notifications/src/infrastructure/observability/metrics.ts:22-42 | received = delivered + retried + all dead-lettered + handler calls that threw + calls cut short with the process + calls under way, those included that outlived their connection |
| RetryQueues.AttemptsAreBounded | notifications/src/infrastructure/messaging/retry.ts:1-11 | the header count is the number of rejections so far; retries that took effect stay below maxAttempts, and so do recorded retry decisions when no connection was lost, else by at most one more each; sends are at most maxAttempts plus throwing dead-letter publishes plus lost connections |
| RetryQueues.BoundsAreAttained | notifications/src/application/send-notification.ts:59-103 | these bounds are attained: for any budget, any number of throwing publishes and any number of lost connections there is a run with exactly that many sends and retry decisions |
| RetryQueues.LostRejectIsDecidedAgain | notifications/src/infrastructure/messaging/consumer.ts:84-88 | for every maxAttempts above 1, a run in which the retry decisions of one message exceed maxAttempts - 1, because a reject was lost with its connection |
| RetryQueues.RetryDecisionsBoundedIff | notifications/src/application/send-notification.ts:67-102 | retry decisions never exceed maxAttempts - 1, in all runs, exactly when maxAttempts grants no retry at all |
| RetryQueues.MessagesTerminate | notifications/src/application/send-notification.ts:59-103 | a message takes at most five steps for each send it is allowed, and until it is delivered or dead-lettered a step that is no fault is always possible |
| EndToEnd.StepBuilds | llm/app/domain/result.py:22-27 | when llm publishes for an order the message it builds for it, every verdict of the history carries the message built for its order, after every step |
| EndToEnd.NotificationsAreAccepted | notifications/src/domain/notification.ts:48-83 | across the services, whatever reaches the notifications exchange is the message built for the very order whose notify event it is, from a score core notifies about; the validator accepts it, so none of its deliveries is ever dead-lettered for failing validation |
| CookieJar.PutIsMapUpdate | auth-worker/internal/domain/jar.go:22-31 | Set is a map update on (name, domain, path); identities stay distinct; a new one goes to the end, a known one keeps its place |
| CookieJar.PutAllOfDistinct | auth-worker/internal/domain/jar.go:12-20 | NewJar stores cookies of pairwise different identities as they come |
| CookieJar.LatestIsFreshest | auth-worker/internal/domain/token.go:131-160 | the index holds exactly the token names with a readable copy, each with the first copy of greatest expiry |
| CookieJar.Shortest | auth-worker/internal/domain/token.go:185-192 | the running minimum is attained and is a lower bound |
| CookieJar.TTLReads | auth-worker/internal/domain/token.go:177-193 | there is no lifetime exactly when no `prfr_bo_tkn` cookie has a readable expiry; else it is what is left of the latest of these expiries |
| CookieJar.TouchedIff | auth-worker/internal/domain/token.go:162-175 | AllTouched holds exactly when the first readable copy of greatest expiry has the status touched |
| CookieJar.ChangedMeansOtherText | auth-worker/internal/domain/token.go:252-274 | the freshest copy of a name reported as changed differs in text from the freshest one before, whatever the fingerprint function is; another copy may have had that text all along |
| CookieJar.SurvivorIsFreshest | auth-worker/internal/domain/jar.go:63-72 | of a token name with a readable copy only the freshest copy survives, and it does survive |
| CookieJar.PruningKeepsTheIndex | auth-worker/internal/domain/jar.go:43-61 | kept and removed together are the old jar; a name with a readable copy keeps one cookie, the first of greatest expiry; everything else stays; the token index (so TokenTTL and AllTouched) is unchanged; a second call removes nothing |
| Jars.Jar.constructor | auth-worker/internal/domain/jar.go:12-20 | a jar built by setting each cookie in turn |
| Jars.Jar.Set | auth-worker/internal/domain/jar.go:22-31 | overwrites in place or appends |
| Jars.Jar.LatestTokens | auth-worker/internal/domain/token.go:131-160 | the loop computes the index of freshest tokens |
| Jars.Jar.AllTouched | auth-worker/internal/domain/token.go:162-175 | true exactly when there is a readable token and every freshest one is touched |
| Jars.Jar.TokenTTL | auth-worker/internal/domain/token.go:177-193 | the smallest remaining lifetime over the freshest tokens, in whatever order the map is walked |
| Jars.Jar.RemoveOldTokenDuplicates | auth-worker/internal/domain/jar.go:43-61 | splits the jar in place into what is kept and what is returned as removed, both in old order |
| Jars.ChangedTokens | auth-worker/internal/domain/token.go:252-274 | exactly the token names whose freshest copy differs by fingerprint or expiry |
| Jars.JarRefinesMap | auth-worker/internal/domain/jar.go:5-61 | after any sequence of Set and pruning: identities are pairwise distinct, each cookie is the last one written under its identity, and positions follow the insertions since the last removal |
| Jars.JarIsTheMap | auth-worker/internal/domain/jar.go:5-61 | after any such sequence the jar holds at every identity what the map holds there, and nothing else |
| HttpRenew.MaxAgeFirst | auth-worker/internal/adapter/httprenew/httpcookies.go:56-77 | a positive Max-Age decides whatever Expires says; zero and negative ones count as absent and leave Expires to decide; with neither the cookie lasts for the session |
| HttpRenew.MergedIsPresent | auth-worker/internal/adapter/httprenew/httpcookies.go:37-77 | no response cookie deletes: whatever its Max-Age, its identity is in the jar after merging |
| HttpRenew.ResponseCookieSurvives | auth-worker/internal/adapter/httprenew/httpcookies.go:56-90 | every field of the file item that a response cookie becomes, and of the cookie it is when the file is loaded again: its own name, value, flags and SameSite, the default domain or path for an empty one, and Max-Age from now on or else Expires as its lifetime |
| HttpRenew.MergeResponseCookies | auth-worker/internal/adapter/httprenew/httpcookies.go:37-54 | sets every response cookie in turn, converted at its own reading of the clock, and returns exactly their names, ascending and without repetition |
| HttpRenew.MergeIsLastWins | auth-worker/internal/adapter/httprenew/httpcookies.go:37-54 | an identity holds its last response cookie, or what it held before; the jar stays a map |
| HttpRenew.MergedReads | auth-worker/internal/adapter/httprenew/httpcookies.go:37-77 | a place of the jar (name, domain or its default, path or its default) holds the last response cookie for it, and is as it was when there is none |
| HttpRenew.MergeKeepsStorable | auth-worker/internal/adapter/httprenew/httpcookies.go:56-77 | merging named cookies never brings an empty name, domain or path into the jar |
| HttpRenew.OnePairPerName | auth-worker/internal/adapter/httprenew/httpcookies.go:17-29 | one pair for each name in the jar, in order of first appearance |
| HttpRenew.CookieHeader | auth-worker/internal/adapter/httprenew/httpcookies.go:17-35 | the loop renders those names, each with its last value |
| HttpRenew.HeaderReadsBack | auth-worker/internal/adapter/httprenew/httpcookies.go:17-35 | cut at its separators, the header reads as each name of the jar once, with the value of the last cookie of that name |
| Locations.AscendingIsUnique | auth-worker/internal/adapter/cookiefile/browserjson.go:103-111 | the location order determines the order of any set of distinct identities, so the sort used does not matter |
| Locations.SortedReads | auth-worker/internal/adapter/cookiefile/browserjson.go:103-111 | sorted means by domain, then by path, then by name, each by the first place where two texts differ |
| Locations.LexLessIff | auth-worker/internal/adapter/cookiefile/browserjson.go:103-111 | a text is before another exactly when at some place, up to which they agree, it ends or has the smaller character |
| CookieFile.SameSiteRoundTrip | auth-worker/internal/adapter/cookiefile/browserjson.go:113-140 | SameSite survives the file, with everything unknown collapsing to unspecified |
| CookieFile.SameSiteReads | auth-worker/internal/adapter/cookiefile/browserjson.go:113-126 | exactly the words none, no_restriction, lax and strict are understood, in any case |
| CookieFile.ItemRoundTrip | auth-worker/internal/adapter/cookiefile/browserjson.go:38-87 | an item of the file, loaded and saved: every field, with its defaults, the lower-case SameSite word, and its expiry unless it is zero or the item is a session cookie; only a nameless item gives no cookie |
| CookieFile.CookieRoundTrip | auth-worker/internal/adapter/cookiefile/browserjson.go:38-87 | a cookie comes back from the file exactly when it has a name; with name, domain and path it comes back normalised; normalising is idempotent and does not show in the file |
| CookieFile.ExportFrom | auth-worker/internal/adapter/cookiefile/browserjson.go:89-101 | the jar's cookies, each once, sorted by location |
| CookieFile.JarFromExport | auth-worker/internal/adapter/cookiefile/store.go:103-111 | a fresh jar of the usable cookies of the file |
| CookieFile.LoadedIsLegal | auth-worker/internal/adapter/cookiefile/store.go:103-111 | whatever the file holds, the loaded jar has distinct identities with no empty part, and is empty exactly when no cookie has a name |
| CookieFile.ImportIsLast | auth-worker/internal/adapter/cookiefile/store.go:103-111 | the loaded jar is the cookies of exactly the named items that no later item overwrites |
| CookieFile.CookieFileRoundTrip | auth-worker/internal/adapter/cookiefile/browserjson.go:40-111 | load after save: the same identities in location order, each with its normalised cookie; a second save writes the identical export |
| CookieFile.IdentitiesSurviveIff | auth-worker/internal/adapter/cookiefile/browserjson.go:40-101 | a jar gets its identities back from the file exactly when no name, domain or path is empty |
| CookieFile.ExpiriesSurvive | auth-worker/internal/adapter/cookiefile/store.go:103-111 | the token expiries, and so TokenTTL at every time, survive save and load when no two cookies of a readable token fall together in the file |
| CookieFile.PrunedTokensApart | auth-worker/internal/domain/jar.go:43-61 | after pruning they never do, whatever the renewer wrote |
| AuthPorts.Ports.Acquire | auth-worker/internal/usecase/ports.go:34-38 | the lock is held or refused, and the attempt is recorded |
| AuthPorts.Ports.Renew | auth-worker/internal/usecase/ports.go:22-27 | an arbitrary renewer: any sequence of Set on the jar, then any result |
| AuthPorts.Ports.Load | auth-worker/internal/adapter/cookiefile/store.go:27-46 | the jar and url of the file, or the error of its kind; a file without usable cookies is an error |
| AuthPorts.LoadOutcome | auth-worker/internal/adapter/cookiefile/store.go:27-111 | a decoded file loads exactly when some item has a name, with those cookies, and with its own url or that of profi.ru; the error of a file without any |
| AuthPorts.Ports.Save | auth-worker/internal/adapter/cookiefile/store.go:48-51 | the file is replaced by an export of the jar, or stays as it was |
| RefreshAuth.RefreshAuth.Execute | auth-worker/internal/usecase/refresh_auth.go:52-87 | one whole cycle: everything it does to lock, clock, renewer and file, and its result, is what `Cycle` allows |
| RefreshAuth.RefreshAuth.RunLoaded | auth-worker/internal/usecase/refresh_auth.go:64-87 | the part between load and release |
| RefreshAuth.RefreshAuth.RefreshIfNeeded | auth-worker/internal/usecase/refresh_auth.go:118-141 | skips, fails, or leaves the renewed, verified and pruned jar |
| RefreshAuth.RefreshAuth.VerifyRenew | auth-worker/internal/usecase/refresh_auth.go:143-173 | the first fault of what the renewer left: no token, run out, unchanged |
| RefreshAuth.RefreshAuth.FinalTokens | auth-worker/internal/usecase/refresh_auth.go:192-206 | the positive lifetime at the last reading, or session expired |
| RefreshAuth.LockDiscipline | auth-worker/internal/usecase/refresh_auth.go:52-57 | an acquired lock is released exactly once, as the last thing, on every path; without the lock nothing is touched; a file that does not load ends the cycle with its error |
| RefreshAuth.RenewsIff | auth-worker/internal/domain/token.go:246-250 | in every cycle that loads a jar, successful or not, Renew is called exactly when there is no readable token or its remaining lifetime is at most the threshold |
| RefreshAuth.QuietOutcome | auth-worker/internal/usecase/refresh_auth.go:64-87 | result and file of every cycle that does not renew, by the lifetime at its second clock reading |
| RefreshAuth.RenewalOutcome | auth-worker/internal/usecase/refresh_auth.go:64-173 | result and file of every cycle that renews: the error of the renewer, of what it left, of the last reading or of the save, in this order, and without any the renewed and pruned jar in the file |
| RefreshAuth.MissingTokenIsRenewed | auth-worker/internal/usecase/refresh_auth.go:118-141 | a file without a readable token ends refreshed and saved when the renewer leaves one that is alive at both later readings and the file is writable |
| RefreshAuth.SavesOnlyLiveTokens | auth-worker/internal/usecase/refresh_auth.go:71-87 | Save comes right after the last reading of the clock, with a jar whose TTL at that reading is positive and is the TTL reported |
| RefreshAuth.FailureKeepsTheFile | auth-worker/internal/usecase/refresh_auth.go:52-87 | every failing path leaves the stored jar as it was; every successful one saved |
| RefreshAuth.RenewFailedIff | auth-worker/internal/usecase/refresh_auth.go:143-173 | a renewal that reported success is refused exactly when it left no readable token, only one that has run out, or no changed one |
| RefreshAuth.SuccessfulCycle | auth-worker/internal/usecase/refresh_auth.go:52-141 | all that happens in a successful cycle, in order: renewed exactly when the TTL was missing or at most the threshold, Renew called once or not at all, and what was saved |
| RefreshAuth.RefreshedMeansOtherToken | auth-worker/internal/usecase/refresh_auth.go:118-173 | refreshed means some freshest token saved differs from the freshest one of its name in the loaded jar; not refreshed means Renew was not called and the loaded jar was saved |
| FreshTokens.RefreshedIsNewIff | auth-worker/internal/usecase/refresh_auth.go:143-173 | whatever the renewer writes and the clock says, a reported refresh saved a token text that the loaded jar did not hold under its name, exactly when all readable copies of each token name in the loaded jar agree on fingerprint and expiry |
| FreshTokens.ChangedIsUnheard | auth-worker/internal/domain/token.go:252-274 | when the copies agreed before, the freshest text of every name reported as changed is one that no cookie of that name had |
| FreshTokens.OldCopyIsSaved | auth-worker/internal/usecase/refresh_auth.go:118-141 | for every jar whose copies disagree, a renewer and a clock for which a cycle reports a refresh and saves a text the jar already held |
| FreshTokens.OldCopyExample | auth-worker/internal/usecase/refresh_auth.go:118-141 | a concrete one: copies expiring at 100 and 50, the newer one overwritten by an unreadable text; reported as refreshed, the older copy is saved |
| CookieFile.ExportExists | auth-worker/internal/adapter/cookiefile/browserjson.go:89-101 | every jar has an export sorted by location |
| GetCookies.GetCookies.Execute | auth-worker/internal/usecase/get_cookies.go:34-55 | one read under the lock that never changes the file |
| GetCookies.GetCookies.Header | auth-worker/internal/usecase/get_cookies.go:64-71 | every cookie of the jar as a pair, in order |
| GetCookies.ViewReads | auth-worker/internal/usecase/get_cookies.go:34-71 | the snapshot: the loaded jar, a header that reads back as its cookies, status ok exactly while some token is alive, and its lifetime or 0; the errors otherwise |
| GetCookies.SavedTokensApart | auth-worker/internal/usecase/refresh_auth.go:71-77 | in the jar a cycle saves, no two cookies of a readable token fall together in the file |
| GetCookies.StoredLifetime | auth-worker/internal/usecase/refresh_auth.go:71-87 | what a successful cycle saved loads again, and its TTL at any time is the reported one minus the time since |
| GetCookies.UrlSurvives | auth-worker/internal/adapter/cookiefile/store.go:27-51 | the url of the file survives every successful cycle |
| GetCookies.ReadAfterRefresh | auth-worker/internal/usecase/get_cookies.go:34-62 | after a cycle that reported v at its last reading t, and no later write, a read at t' reports v - (t' - t), and status ok exactly while t' < t + v |
| GetCookies.NextCycleRenewsIff | auth-worker/internal/usecase/refresh_auth.go:118-131 | the next successful cycle renews exactly when that remaining lifetime has come down to its threshold |

## Left out

- JSON, pydantic and zod decoding: messages and files are typed records, with the malformed cases as constructors of their own.
- JWT parsing, base64 and SHA-256: arbitrary functions of the token text.
- Fractions of seconds in `expirationDate` and overflow of 64-bit times: times are unbounded integers.
- Lone surrogates in texts: a text is a sequence of Unicode characters, measured in UTF-16 units.
- Invalid UTF-8 in cookie names: strings are compared by code point, which agrees with Go's byte order on valid UTF-8.
- What is made of the response cookie names, and the token details kept for logs and status reports; `TokenDetails`, `AuthCookies` and the status file are reporting only.
- Restarts that reset the counters of the notifications service: the accounting is for one life of the registry.
- Which of several copies of greatest expiry is the freshest after a save: the file resorts them; the TTL is unaffected.
- Well-formedness of the HTML of a truncated summary: an entity may be cut in half; lengths and the intact header and meta are proved.
- That every order is judged in the end: llm drops permanent and unexpected failures by design and nothing forces a queue to be read; that no order is lost on the way is proved.
- Two transactions inserting the same new order at once: the second insert waits for the first to end, so in `Pipeline` it is not enabled until then; deadlocks the database would break by aborting one are covered by aborts at any statement.
- Waiting time of messages, poll intervals and prefetch limits: any number of deliveries may be in progress, in any order.
- The transports, HTTP, Telegram, gRPC and SQL drivers: steps that succeed, fail or crash.
- parser-worker, the scheduler, configuration, health endpoints, logging, prompts and generated code: no state of their own that these properties depend on.
