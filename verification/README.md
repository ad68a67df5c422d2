# EventMesh delivery pipeline: a Dafny model

EventMesh accepts events over HTTP and delivers them to subscribed webhook endpoints at least once. This project models
the parts that make that promise and proves what holds of them.

**The pipeline.** `Pipeline.dfy` is a step protocol over the PostgreSQL tables, the Redis stream with its consumer group,
the open publisher and scheduler transactions with the rows they lock, the running message handlers, the pending
ingestion requests and a clock. The two stores commit separately, so every transaction boundary is a step of its own:
a process can die after an XADD and before its commit, after a commit and before its XACK, or anywhere else. A run is
any sequence of enabled steps from the empty system, and the theorems are about every state of every run, with any
number of publishers, schedulers and workers. `History` records what has happened; nothing but the
record itself ever reads it.

**The services.** `OutboxPublisher`, `Scheduler`, `DeliveryEngine`, `Worker` and `EventsApi` are the classes whose loops
carry out those steps, on the stream operations that `RedisStreamsBroker` offers. They share a `World`, which changes
only by steps of the protocol and keeps the run so far, so every theorem about runs applies to them. Each method takes its steps back to back; interleavings of several processes
are the protocol's business. What a query returns, what a webhook target answers and where a call fails are parameters.

**The objects and formats.** The circuit breaker, the broker client and the rate limiter are classes with a history or
trace they are measured against; backoff, classification, signature headers and keyset pagination are functions.

The steps and where they come from:

| step | source |
|---|---|
| CreateEndpoint, UpdateEndpoint, DeleteEndpoint | the endpoint table, changed at will; a deletion respects the foreign key of deliveries |
| IngestLookup, IngestCommit, IngestAbandon | apps/api/eventmesh_api/routers/events.py:38-95 |
| ReplayEvent, ReplayDlq | apps/api/eventmesh_api/routers/events.py:149-172, apps/api/eventmesh_api/routers/deliveries.py:59-87 |
| PublishOpen, PublishRow, PublishCommit, PublishAbort | apps/worker/eventmesh_worker/outbox_publisher.py:55-86 |
| RequeueOpen, RequeueRow, RequeueCommit, RequeueAbort | apps/scheduler/eventmesh_scheduler/main.py:39-71 |
| Consume, Claim | apps/worker/eventmesh_worker/main.py:75-82, 105-119 |
| Resolve | apps/worker/eventmesh_worker/delivery_engine.py:72-91, 99-113 |
| DeliverNext, Respond, SaveDelivery | apps/worker/eventmesh_worker/delivery_engine.py:115-245 |
| Acknowledge, HandlerDies | apps/worker/eventmesh_worker/main.py:95-103 |
| Retention | apps/scheduler/eventmesh_scheduler/main.py:78-107 |

## Where the code and its documentation differ

The model follows the code.

- **Breaker state across attempts.** Decision 009 says that the breaker state persists across workers. Only the
  three-valued state is stored, so a threshold of two or more is never reached (`HighThresholdNeverOpens`), and a circuit
  that does open, with a threshold of at most one, never closes again (`OpenForGood`, `OpenEndpointNeverCalled`); any
  request that is out can open it then (`RequestCanOpenCircuit`).
- **Attempt numbers.** `process_outbox_payload` always starts at attempt 1, so in the composed pipeline the attempt
  limit decides nothing unless it is at most 1 (`RetryableFailuresDeadLettered`). The bound the policy is meant to give
  is proved of chains that do count up (`ChainBound`); there deferrals use up attempts too.
- **Retention.** One row that is to stay and refers to an expired event makes the whole pass void
  (`PassIsExactOrVoid`). Outbox rows that were given up are never removed, so each of them ends retention for good once
  its event is old enough (`FailedRowEndsRetention`), and any pending row can come to that (`RowCanEndRetention`). A
  dead-lettered delivery does the same while it is kept longer than its event, with the default windows from day 30 to
  day 90 (`DeadLetterBlocksRetention`).
- **At least once.** Nothing is lost on the way to an endpoint that the message's query would have found ever since the
  message was published: an active subscriber, or for retries and dead-letter replays the active target
  (`StayingEndpointServed`, `AcceptedWorkIsUnderway`). That does not yet mean a delivery: an outbox row is given
  up for good after ten failed publish calls, a delivery may be dead-lettered or removed by retention, and an endpoint
  whose circuit has opened is never called again. `DeliverableExactly` says when the processes can still deliver by
  themselves. For an endpoint that comes or goes while a message is being handled, `ResolvedPairLost` is a run that loses
  a resolved pair, and `MissedExactly` and `AckLeavesUncovered` say exactly which steps do that.
- **Jitter.** Successive uncapped delays are in order for every draw if and only if the jitter ratio is at most one
  third (`JitterKeepsOrder`).
- **Completed events.** An event can be stamped completed before the rest of its fan-out has created its rows:
  `CompletedBeforeFanOut` is such a run. The rows behind the stamp cover what the stamping handler had found exactly if
  they cover what is left of its list; and unless the message was reclaimed, each endpoint has had its own row exactly if
  all those left on the list were deleted (`CompletionCoversFanOut`, `StampIsLast`).

## Model

| member | source | states |
|---|---|---|
| Integrity.AlwaysSound | apps/worker/eventmesh_worker/outbox_publisher.py:57-64 | In every state of every run: identifiers are never reused, every foreign key points to a row, rows locked by different open transactions are disjoint and still pending or retrying, and every attempt in progress belongs to exactly one handler and to its message's event. |
| Publication.AlwaysBacked | apps/worker/eventmesh_worker/outbox_publisher.py:68-85 | In every run, pending and published outbox rows have fewer than ten attempts and failed ones exactly ten, every published row has a message, and every message of a row carries that row's payload, uncommitted publications included. |
| Publication.AcceptedEventsKeepTheirRow | apps/api/eventmesh_api/routers/events.py:65-95 | No accepted event is lost before the stream: every event in the table has an untargeted outbox row of its own that is pending, failed after exactly ten attempts, or published with its payload in the stream. |
| NoLoss.AlwaysSafe | apps/worker/eventmesh_worker/delivery_engine.py:72-213 | The inductive invariant behind no-loss, kept by every step: what an acknowledged message was bound for, and what a handler has already passed, is covered by something strictly younger than the message. |
| NoLoss.NoWorkLost | apps/worker/eventmesh_worker/main.py:95-103 | Under any crashes, rollbacks, reclaims and concurrent handlers: for each endpoint a message is bound for, the message is unacknowledged, or the pair has a younger delivered, dead-lettered or retrying row or a younger unacknowledged message, unless the event is gone, retention removed a younger delivery of the pair, or this message or a younger one passed the endpoint over. |
| NoLoss.MissedExactly | apps/worker/eventmesh_worker/main.py:95-119 | A pair of message and endpoint counts as passed over if and only if an earlier step of the run left it to no one: an acknowledgement by a handler that had not found the endpoint, the turn of a deleted endpoint, or a find after the acknowledgement, each with nothing younger to cover the pair. |
| NoLoss.AckLeavesUncovered | apps/worker/eventmesh_worker/main.py:103 | At the acknowledging step of any run, what the message was bound for is left without cover if and only if the acknowledging handler had not found the endpoint and nothing younger covers the pair. |
| NoLoss.QueuedIsSucceeded | apps/scheduler/eventmesh_scheduler/main.py:52-69 | A delivery that was requeued and stays QUEUED for good is always succeeded by something younger for its pair. |
| Subscribers.AlwaysLoyal | apps/worker/eventmesh_worker/delivery_engine.py:85-113 | For an endpoint that a message's own query would have found in every state since the message was published: every handler of it, and of any younger message addressed to the endpoint, finds it, and each of these messages is unacknowledged or followed by a younger delivery row that is no longer in progress. |
| Subscribers.StayingEndpointServed | apps/worker/eventmesh_worker/main.py:95-119 | For such an endpoint (the target of a targeted message while it is active, subscribed or not; otherwise an active subscriber) the message is unacknowledged, or the pair has a younger delivered, dead-lettered or retrying row or a younger unacknowledged message addressed to it, unless the event is gone or retention removed a younger delivery; a miss by another message excuses nothing. |
| Subscribers.AcceptedWorkIsUnderway | apps/worker/eventmesh_worker/delivery_engine.py:72-213 | From commit to outcome: an accepted event that is still there and an endpoint that stayed are connected by an outbox row to be published or given up after ten attempts, by an unacknowledged message, by a scheduled retry or by a recorded outcome. |
| Recovery.MessageCanBeFinished | apps/worker/eventmesh_worker/main.py:105-119 | From every state of every run the worker alone, given time, can read, reclaim, handle and acknowledge any given unacknowledged message, whatever crashed before. |
| Recovery.RowCanBePublished | apps/worker/eventmesh_worker/outbox_publisher.py:55-86 | From every state of every run any pending outbox row can be published, without a request to the API, with its message left in the stream, even if an abandoned transaction still locks it. |
| Recovery.RetryCanBeSent | apps/scheduler/eventmesh_scheduler/main.py:39-69 | From every state of every run any delivery that waits for its retry can be queued, without a request to the API, with a message to its own endpoint, even if an abandoned pass still locks it. |
| Reach.DeliverableExactly | apps/worker/eventmesh_worker/delivery_engine.py:72-213 | For an event that is there and an active subscriber with a closed circuit: publisher, scheduler and worker can reach a state with a DELIVERED row of the pair, without any request to the API, if and only if there is one already, a request to the endpoint is out, or a scheduled retry, a pending outbox row, an unacknowledged message or a handler's list leads there. |
| Reach.ReachBefore | apps/worker/eventmesh_worker/delivery_engine.py:72-213 | Along any stretch of steps that no one has to ask for, a delivery that was out of reach never comes within reach. |
| Reach.DeliveryStaysPossible | apps/worker/eventmesh_worker/delivery_engine.py:72-213 | In every run an accepted event that is still there can be delivered, by those processes alone, to an endpoint that has stayed an active subscriber and whose circuit is closed, unless an outbox row of the event was given up, a delivery of the pair is dead-lettered or retention removed one. |
| Overtaken.ResolvedPairLost | apps/worker/eventmesh_worker/main.py:105-119 | A concrete run of thirteen steps that shows why the endpoint has to stay: a resolved pair ends with no delivery row, no unacknowledged message, no handler and no pending outbox row. |
| Duplicates.CountedAlways | apps/worker/eventmesh_worker/outbox_publisher.py:68-86 | In every run the messages for an outbox row or a retried delivery number exactly what the row's state calls for plus the faults so far, for every row that was not removed. |
| Duplicates.DuplicatesAccounted | apps/scheduler/eventmesh_scheduler/main.py:48-71 | The same for all rows at once: one message if PUBLISHED or QUEUED, one if an open transaction has just published it, and one per fault after the XADD or rolled-back publication. |
| Duplicates.ExactlyOnceWithoutFaults | apps/worker/eventmesh_worker/outbox_publisher.py:57-64 | In a run without lost replies and rollbacks each outbox row is published at most once, exactly once when marked so, however many publishers run under SKIP LOCKED. |
| Duplicates.RetriedOnceWithoutFaults | apps/scheduler/eventmesh_scheduler/main.py:41-69 | The same for retries and any number of schedulers. |
| Attempts.RowsWithinHandlers | apps/worker/eventmesh_worker/delivery_engine.py:93-95 | In every run the delivery rows made for an endpoint on behalf of one message, and the handlers that may yet make one, are together at most as many as the handlers that took the message. |
| Attempts.RowsWithinReclaims | apps/worker/eventmesh_worker/main.py:105-119 | Those rows are at most one more than the reclaims of the message. |
| Attempts.OneRowPerEndpoint | apps/worker/eventmesh_worker/main.py:95-103 | In a run without reclaims and dying handlers every endpoint found for an acknowledged message has had exactly one row made for it, as long as event and endpoint exist. |
| Tenancy.AlwaysScoped | apps/worker/eventmesh_worker/delivery_engine.py:99-113 | The invariant behind tenant isolation, through ingestion, retries and both replays, although the targeted branch checks neither tenant nor subscription. |
| Tenancy.TenantsStayApart | apps/worker/eventmesh_worker/delivery_engine.py:99-113 | In every state of every run outbox payloads and messages carry their event's own tenant and type, and every delivery goes to an endpoint of the event's tenant that was once an active subscriber of its type. |
| Drain.BatchDrains | apps/worker/eventmesh_worker/outbox_publisher.py:68-86 | A committed batch lowers the sum of the remaining attempts over the pending rows by at least its number of rows. |
| Drain.BatchesAreBounded | apps/worker/eventmesh_worker/outbox_publisher.py:55-86 | Between any two points of any run the committed batches visit no more rows than the backlog at the first plus ten for each row added since. |
| Drain.FixedBacklogBounded | apps/worker/eventmesh_worker/outbox_publisher.py:55-86 | While nothing is added, all batches of any number of publishers together visit at most the remaining attempts of the rows pending at the start, ten for each of them, and once they have, no row is pending. |
| Failures.AttemptsAreFailures | apps/worker/eventmesh_worker/outbox_publisher.py:68-85 | In every state of every run the attempts of an outbox row number exactly the committed batches whose publish call for it failed, and it was given up if and only if there were ten. |
| Failures.AlwaysTallied | apps/worker/eventmesh_worker/outbox_publisher.py:68-85 | The invariant behind it, open and rolled-back batches included. |
| OutboxPublisher.SelectBatch | apps/worker/eventmesh_worker/outbox_publisher.py:57-64 | The locking query: unlocked pending rows, each once, by creation time with nothing older left out, at most a batch and all of them if fewer. |
| OutboxPublisher.OutboxPublisher.PublishAll | apps/worker/eventmesh_worker/outbox_publisher.py:43-50 | Repeating the batch until a poll finds nothing ends, whatever the publish calls do, with no row pending but those other publishers hold, after at most ten visits for each row pending at the start. |
| Deliveries.RowsAlwaysTruthful | apps/worker/eventmesh_worker/delivery_engine.py:183-213 | In every run DELIVERED means a recorded 2xx, RETRYING has a retry time, QUEUED one that has passed, and DLQ means a rejected URL, a permanent class or an exhausted policy. |
| Deliveries.RetryableFailuresDeadLettered | apps/worker/eventmesh_worker/delivery_engine.py:93-95 | In every reachable state a retryable failure is dead-lettered if and only if at most one attempt is allowed. |
| Deliveries.RowsMoveForward | apps/scheduler/eventmesh_scheduler/main.py:41-66 | Over any stretch of any run a row keeps its event, endpoint, attempt number and creation time; delivered, dead-lettered and queued rows never change again, replays included, and a retrying row can only become queued. |
| Deliveries.CompletedMeansSettled | apps/worker/eventmesh_worker/delivery_engine.py:215-224 | An event is COMPLETED only with a recorded completion whose rows, at least one, are delivered or dead-lettered in every later state until retention removes them. |
| Deliveries.CompletionSawAll | apps/worker/eventmesh_worker/delivery_engine.py:188-192 | Every completion goes back to a step at which a handler had a successful answer and its query saw all delivery rows of the event, every other one delivered or dead-lettered. |
| Deliveries.AnswerCompletes | apps/worker/eventmesh_worker/delivery_engine.py:215-224 | At the answering step of any run a handler finds the event complete if and only if its attempt is delivered and every other delivery row of the event is DELIVERED or DLQ. |
| Deliveries.SavingStamps | apps/worker/eventmesh_worker/delivery_engine.py:188-213 | The saving step stamps the event COMPLETED exactly if the check found it complete, and changes no other event. |
| Turns.AlwaysTurned | apps/worker/eventmesh_worker/delivery_engine.py:93-213 | No turn is skipped: in every run, whatever a running handler found is on its list, or has had a row made for it on behalf of its message that is in hand or no longer being delivered, unless the event or the endpoint is gone or retention removed the row. |
| Turns.MadeIsTraced | apps/worker/eventmesh_worker/delivery_engine.py:115-134 | A delivery row made on behalf of a message keeps its event and endpoint and is younger than the message, in every later state until retention removes it. |
| Completions.AlwaysTried | apps/worker/eventmesh_worker/delivery_engine.py:93-134 | In every run a handler has, for every endpoint it found and has no longer on its list, a delivery row younger than its message, unless the event or the endpoint is gone or retention removed the row. |
| Completions.StampIsLast | apps/worker/eventmesh_worker/delivery_engine.py:93-95 | For a message that was not reclaimed: each endpoint the stamping handler found has its own row among those the query saw (or removed, or was deleted) if and only if every endpoint still on the handler's list was deleted, in particular if the list is empty. |
| Completions.CompletionCoversFanOut | apps/worker/eventmesh_worker/delivery_engine.py:188-224 | Every completion goes back to a stamp whose rows cover all endpoints the handler had found if and only if they cover those left on its list, and of which StampIsLast holds. |
| EarlyCompletion.CompletedBeforeFanOut | apps/worker/eventmesh_worker/delivery_engine.py:93-95 | A concrete run of twelve steps: the event is stamped by the first of two subscribers while the second is still on the handler's list and has no row. |
| Idempotency.AlwaysHonoured | apps/api/eventmesh_api/routers/events.py:40-49 | The invariant: until an answer's expiry its key is on file with its event, and answers under one key are consistent. |
| Idempotency.OneEventPerLiveKey | apps/api/eventmesh_api/routers/events.py:38-98 | For any interleaving of lookups, commits and retention: a later answer under a live key carries the same event and did not create it, two created events under one key are separated by an expiry, and the event is there until then. |
| Idempotency.LoserLeavesNothing | packages/database/eventmesh_database/models.py:149 | A commit that finds its key taken, at any time before the expiry of the winner's answer, changes nothing but its own request. |
| Retention.BlockedIffDangling | migrations/versions/0001_initial.py:98-133 | The foreign keys reject the pass if and only if some row that is to stay refers to an event that is to go. |
| Retention.PassIsExactOrVoid | apps/scheduler/eventmesh_scheduler/main.py:78-107 | In every run a pass removes precisely the expired rows of all four tables and touches nothing else, or, if a surviving row refers to an expired event, changes nothing at all. |
| Retention.PassCanRun | apps/scheduler/eventmesh_scheduler/main.py:78-107 | A pass can run as soon as no requeue transaction and no uncommitted outcome is open. |
| Retention.ReferencesAlwaysValid | migrations/versions/0001_initial.py:98-133 | In every state of every run each delivery, outbox and key row has its event, and each delivery its endpoint. |
| Retention.DeletionIsExact | migrations/versions/0001_initial.py:98-133 | An endpoint can be deleted exactly when that leaves every delivery with its endpoint. |
| Retention.FailedRowStays | apps/worker/eventmesh_worker/outbox_publisher.py:59-82 | A row that was given up is never polled, published or removed, and keeps its event. |
| Retention.FailedRowEndsRetention | apps/scheduler/eventmesh_scheduler/main.py:97-104 | Once the event of a given-up row has aged out, every later pass of the run changes nothing. |
| Retention.DeadLetterBlocksRetention | apps/scheduler/eventmesh_scheduler/main.py:90-104 | A pass changes nothing while a dead letter is younger than its own window and its event is older than the events' window. |
| PersistedBreaker.AlwaysStored | apps/worker/eventmesh_worker/delivery_engine.py:235-245 | In every run a stored circuit is closed, or open with a threshold of at most one, and every attempt in progress found it closed. |
| PersistedBreaker.HighThresholdNeverOpens | apps/worker/eventmesh_worker/delivery_engine.py:235-245 | With a threshold of two or more every circuit is closed in every state of every run. |
| PersistedBreaker.OpenForGood | apps/worker/eventmesh_worker/delivery_engine.py:122-127 | An open circuit stays open as long as the endpoint exists, however much time passes. |
| PersistedBreaker.OpenEndpointNeverCalled | apps/worker/eventmesh_worker/delivery_engine.py:122-127 | After its circuit has opened, every turn of an endpoint ends in a delivery scheduled for retry and never in a request. |
| DeadEnds.RowCanEndRetention | apps/worker/eventmesh_worker/outbox_publisher.py:68-82 | From every state of every run, for every pending outbox row, failing publish calls and time alone lead to a point after which no retention pass changes anything, however the run goes on. |
| DeadEnds.RequestCanOpenCircuit | apps/worker/eventmesh_worker/delivery_engine.py:235-245 | With a threshold of at most one, from every state with a request out, a failed connection opens the circuit of the endpoint. |
| DeadEnds.CircuitOpened | apps/worker/eventmesh_worker/delivery_engine.py:235-245 | A concrete run that ends with an open circuit. |
| RetryChains.ChainBound | apps/worker/eventmesh_worker/delivery_engine.py:115-213 | Any chain of calls with attempt numbers counting up from 1 makes at most max(1, max_attempts) sends, whatever deferrals come between, and each deferral before the last allowed attempt takes the place of a send. |
| RetryChains.ChainEnds | apps/worker/eventmesh_worker/delivery_engine.py:200-209 | An admitted call at or past the last allowed attempt leaves the chain's last row delivered or dead-lettered. |
| RetryChains.BoundIsReached | packages/common/eventmesh_common/retry.py:53-55 | The bound is exact: when every request times out a chain makes all allowed sends and ends dead-lettered, under every policy. |
| Breaker.AlwaysMirrors | packages/common/eventmesh_common/circuit_breaker.py:31-79 | After every sequence of calls, late outcomes included, the four fields read as the call history says. |
| Breaker.RefinesHistory | packages/common/eventmesh_common/circuit_breaker.py:31-79 | It is closed exactly when the failures since the last success are fewer than the threshold, and admits exactly when closed or when the open duration has passed since the latest failure with nothing admitted since. |
| Breaker.ProbeRate | packages/common/eventmesh_common/circuit_breaker.py:36-73 | With a monotone clock and no success after opening at t0, the k-th admitted request comes no earlier than t0 + k × open_duration. |
| Breaker.CircuitBreaker.AllowRequest | packages/common/eventmesh_common/circuit_breaker.py:31-48 | The object's answer is the one its call history calls for, and the history grows by this call. |
| Breaker.CircuitBreaker.RecordSuccess | packages/common/eventmesh_common/circuit_breaker.py:50-55 | The object keeps mirroring its history, which grows by a success. |
| Breaker.CircuitBreaker.RecordFailure | packages/common/eventmesh_common/circuit_breaker.py:57-69 | The object keeps mirroring its history, which grows by a failure. |
| Broker.RedisStreamsBroker.Publish | packages/messaging/eventmesh_messaging/broker.py:56-60 | The entry is appended under an id above all others and is owed to the group. |
| Broker.RedisStreamsBroker.Consume | packages/messaging/eventmesh_messaging/broker.py:62-67 | Hands out the oldest unread entries, each once and in order, all of them unless the count is reached; they are pending from now on, earlier pending entries are untouched, and what is owed to the group stays the same. |
| Broker.RedisStreamsBroker.Acknowledge | packages/messaging/eventmesh_messaging/broker.py:69-70 | Exactly this entry, if it had been handed out, is no longer owed. |
| Broker.RedisStreamsBroker.ClaimStale | packages/messaging/eventmesh_messaging/broker.py:72-85 | Takes over exactly the entries pending for at least the idle time among those examined, oldest first; it stops at the count, after ten pending entries per entry asked for, or at the end of the list. Their idle time starts again and nothing else changes. |
| OutboxPublisher.OutboxPublisher.PublishBatch | apps/worker/eventmesh_worker/outbox_publisher.py:55-86 | A run of protocol steps after which each row of the batch is published, or has one attempt more and is FAILED exactly when these reach ten, and otherwise still PENDING; the event, payload and age of rows, and all other rows, are as before; received events of published rows are queued; each call that reached the stream has added exactly one message with its row's payload; and the backlog is lower by the number of rows. |
| Scheduler.SelectDue | apps/scheduler/eventmesh_scheduler/main.py:41-47 | The locking query: unlocked RETRYING deliveries whose retry time has come, at most a hundred and all of them if fewer. |
| Scheduler.Scheduler.RequeueRetries | apps/scheduler/eventmesh_scheduler/main.py:39-71 | A run of protocol steps after which either all the rows are QUEUED and otherwise unchanged, or, exactly if a publish call fails, no row has changed; and each row whose call reached the stream has exactly one new message, to its own endpoint and under its event's tenant and type. |
| Scheduler.DeleteExpired | apps/scheduler/eventmesh_scheduler/main.py:79-103 | The five DELETE statements in sequence leave exactly the rows of each table that have not expired. |
| Scheduler.Scheduler.CleanUp | apps/scheduler/eventmesh_scheduler/main.py:78-107 | The pass commits if and only if no surviving row refers to an expired event, then removing exactly the expired rows; otherwise the state is as before. |
| DeliveryEngine.ResolveEndpoints | apps/worker/eventmesh_worker/delivery_engine.py:99-113 | The endpoint query: the target if it is there and active, or else exactly the active endpoints of the tenant that subscribe to the type, each once. |
| DeliveryEngine.DeliveryEngine.DeliverToEndpoint | apps/worker/eventmesh_worker/delivery_engine.py:115-224 | One row more, by the answer: deferred by the open duration while the circuit is open; DLQ for a refused URL, a redirect or a client error other than 408, 409, 425 and 429; DELIVERED for a 2xx; and for anything else RETRYING after the documented delay if more than one attempt is allowed, or DLQ. The reason recorded is true of the answer, the circuit is closed by a delivery and opened by a failure if one is enough, the event is COMPLETED if and only if the row is delivered and every other row of the event is DELIVERED or DLQ, the outcome told is the one of the row, and nothing else changes. |
| DeliveryEngine.DeliveryEngine.ProcessPayload | apps/worker/eventmesh_worker/delivery_engine.py:72-97 | Each endpoint reached before an exception has one new row of its own, and that row, the outcome told and the circuit saved are those its own answer calls for; other endpoints, earlier rows and other events are untouched; the event is COMPLETED if all its earlier rows were settled and some prefix of the new ones is settled and ends with a delivery, and PROCESSING if not; a missing event or no endpoint means nothing happens. |
| Worker.Worker.HandleMessage | apps/worker/eventmesh_worker/main.py:95-103 | The message is acknowledged if and only if no exception came up, and then every endpoint the query found has its row; otherwise it stays owed to the group. Rows, circuits and the event are as ProcessPayload leaves them. |
| Worker.Worker.Receive | apps/worker/eventmesh_worker/main.py:75-119 | After taking or reclaiming a message and handling it, the group owes what it owed before, minus exactly this message if it was acknowledged. |
| EventsApi.EventsApi.Look | apps/api/eventmesh_api/routers/events.py:40-49 | A known key is answered with its event, expired or not, and no row changes. |
| EventsApi.EventsApi.Commit | apps/api/eventmesh_api/routers/events.py:51-95 | One transaction with a new event, its one pending outbox row and its key, or a refusal that leaves both stores and the record as they were. |
| EventsApi.EventsApi.ReplayEvent | apps/api/eventmesh_api/routers/events.py:149-172 | Succeeds exactly for an event of the tenant, adding one untargeted pending row for it; otherwise nothing changes. |
| EventsApi.EventsApi.ReplayDlqEntry | apps/api/eventmesh_api/routers/deliveries.py:59-87 | Refuses an unknown or foreign delivery, refuses one that is not in the DLQ, and otherwise adds one pending row targeted at the delivery's endpoint and leaves the delivery as it is. |
| Retry.JitterBand | packages/common/eventmesh_common/retry.py:57-61 | Every jittered delay is non-negative and within the jitter band around the raw delay. |
| Retry.DelayIsExact | packages/common/eventmesh_common/retry.py:53-61 | A delay exists exactly for attempts below the limit, and is base × 2^(attempt−1) up to the cap, within (1−r) and (1+r) times that for every draw of the generator and a ratio up to 1; the fixed delay; or base × attempt. |
| Retry.BackoffTotal | packages/common/eventmesh_common/retry.py:53-57 | Without jitter and below the cap the delays after n attempts add up to exactly base × 2^n − base. |
| Retry.BackoffBudget | packages/common/eventmesh_common/retry.py:53-61 | The delays of all attempts together are at most (1+r) × min((N−1)·cap, base·(2^(N−1) − 1)), whatever the draws. |
| Retry.DoublingIsPower | packages/common/eventmesh_common/retry.py:56 | The doubling the budget is stated with is base × 2^n. |
| Retry.AddingIsProduct | packages/common/eventmesh_common/retry.py:56 | The repeated addition the budget is stated with is n × cap. |
| Retry.JitterKeepsOrder | packages/common/eventmesh_common/retry.py:56-61 | While the raw delay is uncapped, any two successive delays are in order for all draws if and only if the ratio is at most 1/3. |
| Signature.ParseBuilt | packages/auth/eventmesh_auth/signature.py:26-38 | Splitting and collecting a built header gives exactly the timestamp text and the digest, for any integer timestamp. |
| Signature.VerifyBuilt | packages/auth/eventmesh_auth/signature.py:32-50 | For any two secrets and bodies a built header is accepted exactly when the timestamp is within tolerance and the keyed hashes agree, and the check never raises on it. |
| Signature.HeaderRoundTrip | packages/auth/eventmesh_auth/signature.py:26-50 | The header built for a body verifies for it at any time within the tolerance. |
| Signature.VerifyExactly | packages/auth/eventmesh_auth/signature.py:32-50 | For every header text, whoever made it: accepted if and only if its last t part reads as a timestamp within the tolerance and its last v1 part is the keyed hash of that timestamp and the body; without a t or a v1 part it is refused, and it raises exactly for a fresh timestamp with a v1 that is not ASCII. |
| Signature.FieldsExact | packages/auth/eventmesh_auth/signature.py:38 | The parsed dictionary has a name exactly if some part bears it, with the value of the last one that does. |
| Signature.SplitExact | packages/auth/eventmesh_auth/signature.py:38 | Splitting is undone by joining, and no part holds the separator. |
| Signature.DigitsWritten | packages/auth/eventmesh_auth/signature.py:42 | A text of digits is read as the number it writes, leading zeros aside. |
| Signature.ParseIntExact | packages/auth/eventmesh_auth/signature.py:41-44 | A timestamp text is readable if and only if it is one or more digits after at most one sign. |
| Signature.SignedBytesInjective | packages/auth/eventmesh_auth/signature.py:21 | The signed bytes determine both timestamp and body. |
| RateLimit.CounterOutlivesWindow | apps/api/eventmesh_api/auth_deps.py:74-79 | The 90-second expiry never resets a counter inside its own minute. |
| RateLimit.RateLimiter.Enforce | apps/api/eventmesh_api/auth_deps.py:22-88 | With a clock that does not run backwards a request is admitted exactly when the tenant's requests in this minute, this one included, are at most 1000 for Pro, 10000 for Enterprise and 100 for Free or an unknown plan; the minute's first request sets the counter's expiry 90 seconds ahead; question and answer are recorded. |
| RateLimit.AdmitsUpToLimit | apps/api/eventmesh_api/auth_deps.py:73-88 | Of n requests of a tenant in an aligned minute exactly min(n, L) were answered with yes, over any trace and its answers. |
| RateLimit.BurstBound | apps/api/eventmesh_api/auth_deps.py:65-71 | In any 60-second interval at most 2L were. |
| RateLimit.RateLimiter.KeepsToLimit | apps/api/eventmesh_api/auth_deps.py:65-88 | Both bounds hold of the answers the limiter has given, for a tenant whose plan has not changed. |
| Pagination.PageIsExact | apps/api/eventmesh_api/routers/events.py:118-138 | A page holds rows of the tenant, of the type asked for, below the cursor, by falling creation time and id, with nothing left out that comes before one of them. |
| Pagination.Page | apps/api/eventmesh_api/routers/events.py:118-138 | It is as long as the smaller of the requested size within 1 and 200 and the number of those rows. |
| Pagination.SelectTakesNewest | apps/api/eventmesh_api/routers/events.py:120 | ORDER BY with LIMIT is strictly descending and takes the newest rows. |
| Pagination.FollowIsSound | apps/api/eventmesh_api/routers/events.py:118-139 | Whatever is inserted or removed between pages: the rows come in strictly descending order and match, and a listing that ends holds every matching row that was there throughout. |
| Pagination.ListAllIsComplete | apps/api/eventmesh_api/routers/events.py:118-139 | With only newer events arriving, following the cursor ends and yields exactly the sorted matching rows of the start, for any requested limit. |
| Pagination.SortedIsListing | apps/api/eventmesh_api/routers/events.py:120 | That listing holds every row exactly once, newest first. |

## Left out

- HTTP client, TLS, DNS, the SSRF address tables and the HMAC, hash and encryption functions: an oracle's answer, a rejected-URL flag and an arbitrary keyed hash with 64 hex digits stand for them.
- SQLAlchemy, PostgreSQL and Redis internals beyond atomic commit and rollback, unique and foreign keys, SKIP LOCKED, and the stream with its pending list; the stream is durable and untrimmed, and a UUID is never drawn twice.
- `run_forever` of the publisher, which awaits a bound method before its loop (apps/worker/eventmesh_worker/outbox_publisher.py:42), and its sleeping: `PublishAll` is the loop itself, until it would sleep.
- The order in which the publisher's query picks rows, in the protocol: any batch of unlocked pending rows is allowed there, so the results hold for the oldest-first batches of `SelectBatch` too.
- The bounded scan of XAUTOCLAIM, in the protocol: any stale pending message may be reclaimed there, so what is possible by reclaiming may take several calls.
- `_retry_attempt_number`, which the worker ignores; chains that do use it are in `RetryChains`.
- Event data, source, entity and sequence fields, `published_at`, `completed_at`, latencies and error texts: no decision of the pipeline reads them.
- Per-entity ordering, which is documented but not in the worker.
- The general order of `Event.status` values: replays and concurrent updates move it backwards; only COMPLETED is claimed.
- The retention pass is one step that waits for the locks of the rows it deletes; PostgreSQL's visibility rules within the pass are not modelled.
- Two handlers that update one endpoint's circuit at the same time write whole values; the lost-update window of the ORM is the gap between `Respond` and `SaveDelivery`.
- The concurrency limit, graceful shutdown, heartbeats, metrics and logging of the worker.
- Services run without interference: the methods of `OutboxPublisher`, `Scheduler`, `DeliveryEngine` and `Worker` take their steps back to back; what other processes do in between is covered by the theorems about runs, not by the methods' contracts.
- A crash between INCR and EXPIRE in the rate limiter, which would leave a counter without expiry.
- Python's `int()` beyond an optional sign and ASCII digits, ISO cursor text (a cursor is a pair), and floating-point rounding.
- The payload size check, authentication, tenants, API keys and the endpoint routes' own validation: easy record handling.
- The parsing of stream responses into message objects: a flattening loop.
