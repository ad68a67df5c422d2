/**
 * The delivery pipeline as a step protocol. PostgreSQL and Redis commit separately, so every transaction boundary is a
 * step of its own and a process may die between any two of them. A run is any sequence of enabled steps.
 */
module Pipeline {
  import opened Common
  import opened Tables
  import opened Broker
  import opened Breaker
  import Retry
  import Classify

  // ---- Configuration and state. ----

  /** The settings the pipeline reads; retention windows and lifetimes are in seconds. */
  datatype Config = Config(
    batchSize: nat,
    limits: Limits,
    policy: Retry.Policy,
    staleIdle: Time,
    keepEvents: Time,
    keepDeliveries: Time,
    keepDlq: Time,
    keyTtl: Time)

  const MAX_PUBLISH_ATTEMPTS: nat := 10
  const REQUEUE_LIMIT: nat := 100

  /**
   * An open publisher transaction: rows it has locked and not reached yet, the new values of the rows it has handled,
   * and the events it will mark as queued.
   */
  datatype PublishTxn = PublishTxn(todo: set<Id>, done: map<Id, OutboxRow>, wake: set<Id>)

  /** An open requeue transaction: locked rows not reached yet, and the message published for each handled row. */
  datatype RequeueTxn = RequeueTxn(todo: set<Id>, published: map<Id, Id>)

  datatype Phase =
    | Starting
    | FanOut(todo: seq<Id>)
    | Sending(delivery: Id, endpoint: Id, rest: seq<Id>, breaker: BreakerState, loaded: CircuitState)
    | Saving(delivery: Id, endpoint: Id, rest: seq<Id>, row: Delivery, circuit: Option<CircuitState>, seen: Option<set<Id>>)

  /** A running message handler; `resolved` is the endpoints it found to deliver to. */
  datatype Handler = Handler(message: Id, resolved: set<Id>, phase: Phase)

  /** An ingestion request between its idempotency lookup and its commit. */
  datatype Request = Request(tenant: Id, key: Option<string>, etype: string)

  datatype Birth = Birth(tenant: Id, etype: string)

  datatype Completion = Completion(event: Id, rows: set<Id>)

  /** An answer to a keyed ingestion request; `created` tells a new event from a repeated one. */
  datatype Response = Response(tenant: Id, key: string, event: Id, at: Time, expiresAt: Time, created: bool)

  /**
   * What has happened so far; no guard and no other component of the state ever reads it. `resolved` is the endpoints the
   * handlers of each message found, `missed` the pairs of message and endpoint that were passed over with nothing younger
   * to take care of them, and `purged` the deliveries that retention removed.
   */
  datatype History = History(
    born: map<Id, Birth>,
    owner: map<Id, Id>,
    subscribed: set<(Id, string)>,
    resolved: map<Id, set<Id>>,
    missed: set<(Id, Id)>,
    purged: map<Id, Delivery>,
    completions: seq<Completion>,
    responses: seq<Response>)

  datatype State = State(
    now: Time,
    nextId: Id,
    db: Database,
    stream: Stream,
    publishers: map<Id, PublishTxn>,
    requeues: map<Id, RequeueTxn>,
    handlers: map<Id, Handler>,
    requests: map<Id, Request>,
    log: History)

  const Init := State(
    0.0, 0, Database(map[], map[], map[], map[], map[]), EmptyStream, map[], map[], map[], map[],
    History(map[], map[], {}, map[], {}, map[], [], []))

  // ---- Steps. ----

  /** How publishing one outbox row went: the call may fail before or after Redis has appended the entry. */
  datatype XaddResult = XaddOk | XaddFailed | XaddLost

  /** What the webhook target did; a rejected URL is never called. */
  datatype Reply = Rejected | Status(code: int) | TimedOut | Unreachable

  datatype Step =
    | Tick(delay: Time)
    | CreateEndpoint(tenant: Id, subscriptions: set<string>)
    | UpdateEndpoint(endpoint: Id, status: EndpointStatus, subscriptions: set<string>)
    | DeleteEndpoint(endpoint: Id)
    | IngestLookup(request: Request)
    | IngestCommit(req: Id)
    | IngestAbandon(req: Id)
    | ReplayEvent(tenant: Id, event: Id)
    | ReplayDlq(tenant: Id, delivery: Id)
    | PublishOpen(rows: set<Id>)
    | PublishRow(txn: Id, row: Id, result: XaddResult)
    | PublishCommit(txn: Id)
    | PublishAbort(txn: Id)
    | RequeueOpen(rows: set<Id>)
    | RequeueRow(txn: Id, row: Id)
    | RequeueCommit(txn: Id)
    | RequeueAbort(txn: Id, lost: Option<Id>)
    | Consume(message: Id)
    | Claim(message: Id)
    | Resolve(handler: Id, endpoints: seq<Id>)
    | DeliverNext(handler: Id)
    | Respond(handler: Id, reply: Reply, draw: real)
    | SaveDelivery(handler: Id)
    | Acknowledge(handler: Id)
    | HandlerDies(handler: Id)
    | Retention

  // ---- What the steps read. ----

  predicate Keyed(r: Request) { r.key.Some? && r.key.value != "" }

  function KeyOf(r: Request): (Id, string)
    requires Keyed(r)
  {
    (r.tenant, r.key.value)
  }

  predicate OutboxLocked(publishers: map<Id, PublishTxn>, row: Id) {
    exists t | t in publishers :: row in publishers[t].todo || row in publishers[t].done
  }

  predicate RetryLocked(requeues: map<Id, RequeueTxn>, row: Id) {
    exists t | t in requeues :: row in requeues[t].todo || row in requeues[t].published
  }

  /** Rows a handler has written and not yet committed. */
  predicate SaveLocked(handlers: map<Id, Handler>, row: Id) {
    exists h | h in handlers :: handlers[h].phase.Saving? && handlers[h].phase.delivery == row
  }

  predicate Due(d: Delivery, now: Time) {
    d.status == Retrying && d.nextRetryAt.Some? && d.nextRetryAt.value <= now
  }

  function HandlerPayload(s: State, h: Id): Payload
    requires h in s.handlers && s.handlers[h].message in s.stream.entries
  {
    s.stream.entries[s.handlers[h].message].payload
  }

  /** The endpoints a payload goes to: its target if that is active, else every active subscriber of its tenant. */
  predicate Resolves(db: Database, p: Payload, endpoint: Id) {
    && endpoint in db.endpoints
    && db.endpoints[endpoint].status == Active
    && (if p.target.Some? then p.target.value == endpoint
        else db.endpoints[endpoint].tenant == p.tenant && p.etype in db.endpoints[endpoint].subscriptions)
  }

  /** A query result: every resolved endpoint once, in any order. */
  ghost predicate IsResolution(db: Database, p: Payload, endpoints: seq<Id>) {
    && (forall e :: e in endpoints <==> Resolves(db, p, e))
    && Distinct(endpoints)
  }

  /** The breaker as the engine loads it: only the three-valued state is stored. */
  function LoadBreaker(circuit: CircuitState): BreakerState {
    Fresh.(state := circuit)
  }

  // ---- What the steps write. ----

  function FailedRow(row: OutboxRow): OutboxRow {
    row.(attempts := row.attempts + 1,
         status := if row.attempts + 1 >= MAX_PUBLISH_ATTEMPTS then OutboxStatus.Failed else Pending)
  }

  function HandledRow(row: OutboxRow, result: XaddResult): OutboxRow {
    if result == XaddOk then row.(status := Published) else FailedRow(row)
  }

  function Marked(events: map<Id, Event>, ids: set<Id>, status: EventStatus): map<Id, Event> {
    map e | e in events :: if e in ids then events[e].(status := status) else events[e]
  }

  function Requeued(deliveries: map<Id, Delivery>, rows: set<Id>): map<Id, Delivery> {
    map d | d in deliveries :: if d in rows then deliveries[d].(status := Queued) else deliveries[d]
  }

  function RetryMessage(d: Id, row: Delivery, e: Event): Message {
    Message(FromRetry(d), Payload(row.event, e.tenant, e.etype, Some(row.endpoint)))
  }

  function NewDelivery(event: Id, endpoint: Id, status: DeliveryStatus, retryAt: Option<Time>, now: Time): Delivery {
    Delivery(event, endpoint, 1, status, None, NoError, retryAt, now)
  }

  function StatusOf(r: Reply): Option<int> { if r.Status? then Some(r.code) else None }

  /** The delivery row after the attempt, by the engine's choice of status. */
  function Attempted(c: Config, row: Delivery, r: Reply, draw: real, now: Time): Delivery
    requires row.attempt >= 1
  {
    if r.Rejected? then row.(status := Dlq, error := UrlRejected)
    else
      var result := Classify.ClassifyResponse(StatusOf(r), r.TimedOut?, r.Unreachable?);
      var answered := row.(httpStatus := StatusOf(r));
      match result.outcome
      case Success => answered.(status := Delivered)
      case PermanentFailure => answered.(status := Dlq, error := Unsuccessful(result.reason))
      case Retry =>
        var failed := answered.(error := Unsuccessful(result.reason));
        match Retry.NextDelay(c.policy, row.attempt, draw)
        case None => failed.(status := Dlq)
        case Some(delay) => failed.(status := Retrying, nextRetryAt := Some(now + delay))
  }

  function BreakerAfter(c: Config, b: BreakerState, r: Reply, row: Delivery, now: Time): BreakerState {
    if r.Rejected? then b
    else if row.status == Delivered then RecordSuccess(b) else RecordFailure(c.limits, b, now)
  }

  function RowsOf(deliveries: map<Id, Delivery>, event: Id): set<Id> {
    set d | d in deliveries && deliveries[d].event == event
  }

  /** Whether the completion query, which sees the row being written, finds only terminal rows. */
  predicate AllTerminal(deliveries: map<Id, Delivery>, event: Id) {
    forall d | d in deliveries && deliveries[d].event == event :: Terminal(deliveries[d].status)
  }

  function Expired(c: Config, d: Delivery, now: Time): bool {
    if d.status == Dlq then d.createdAt < now - c.keepDlq else d.createdAt < now - c.keepDeliveries
  }

  /** The database after the five DELETE statements of a retention pass. */
  function Swept(c: Config, db: Database, now: Time): Database {
    db.(keys := map k | k in db.keys && db.keys[k].expiresAt >= now :: db.keys[k],
        deliveries := map d | d in db.deliveries && !Expired(c, db.deliveries[d], now) :: db.deliveries[d],
        outbox := map o | o in db.outbox && !(db.outbox[o].status == Published && db.outbox[o].createdAt < now - c.keepEvents)
                  :: db.outbox[o],
        events := map e | e in db.events && db.events[e].createdAt >= now - c.keepEvents :: db.events[e])
  }

  /** The foreign keys onto events, which PostgreSQL checks when events are deleted. */
  predicate EventsReferenced(db: Database) {
    && (forall o | o in db.outbox :: db.outbox[o].event in db.events)
    && (forall d | d in db.deliveries :: db.deliveries[d].event in db.events)
    && (forall k | k in db.keys :: db.keys[k].event in db.events)
  }

  function PurgedRows(c: Config, db: Database, now: Time): map<Id, Delivery> {
    map d | d in db.deliveries && Expired(c, db.deliveries[d], now) :: db.deliveries[d]
  }

  /** Endpoints the message is known to owe a delivery to: its target, and what its handlers resolved. */
  predicate BoundFor(stream: Stream, log: History, m: Id, endpoint: Id) {
    && m in stream.entries
    && (|| stream.entries[m].payload.target == Some(endpoint)
        || (m in log.resolved && endpoint in log.resolved[m]))
  }

  function Targets(stream: Stream, log: History, m: Id): set<Id>
    requires m in stream.entries
  {
    (if stream.entries[m].payload.target.Some? then {stream.entries[m].payload.target.value} else {})
    + (if m in log.resolved then log.resolved[m] else {})
  }

  // ---- What takes care of a pair of event and endpoint. ----

  /** A delivery row younger than `k` that records an outcome for the pair, or a retry that is scheduled. */
  predicate RowCovers(deliveries: map<Id, Delivery>, d: Id, e: Id, p: Id, k: Id) {
    && d in deliveries && k < d
    && deliveries[d].event == e && deliveries[d].endpoint == p
    && deliveries[d].status in {Delivered, Dlq, Retrying}
  }

  /** An unacknowledged message younger than `k` for the event that is bound for the endpoint. */
  predicate MessageCovers(stream: Stream, log: History, m: Id, e: Id, p: Id, k: Id) {
    && k < m && Unacked(stream, m)
    && stream.entries[m].payload.event == e
    && BoundFor(stream, log, m, p)
  }

  /** A delivery of the pair younger than `k` that retention removed. */
  predicate PurgeCovers(log: History, d: Id, e: Id, p: Id, k: Id) {
    d in log.purged && k < d && log.purged[d].event == e && log.purged[d].endpoint == p
  }

  /** A message for the event, `k` itself or a younger one, that passed the endpoint over. */
  predicate MissCovers(stream: Stream, log: History, m: Id, e: Id, p: Id, k: Id) {
    k <= m && (m, p) in log.missed && m in stream.entries && stream.entries[m].payload.event == e
  }

  /** The event is gone, or since `k` retention removed a delivery of the pair or a message passed it over. */
  predicate Exempt(s: State, e: Id, p: Id, k: Id) {
    || e !in s.db.events
    || (exists m | m in s.stream.entries :: MissCovers(s.stream, s.log, m, e, p, k))
    || (exists d | d in s.log.purged :: PurgeCovers(s.log, d, e, p, k))
  }

  predicate Covered(s: State, e: Id, p: Id, k: Id) {
    || Exempt(s, e, p, k)
    || (exists d | d in s.db.deliveries :: RowCovers(s.db.deliveries, d, e, p, k))
    || (exists m | m in s.stream.entries :: MessageCovers(s.stream, s.log, m, e, p, k))
  }

  /** Those of the endpoints that nothing younger than the message takes care of. */
  function LeftAlone(s: State, m: Id, endpoints: set<Id>): set<(Id, Id)>
    requires m in s.stream.entries
  {
    set p | p in endpoints && !Covered(s, s.stream.entries[m].payload.event, p, m) :: (m, p)
  }

  // ---- Guards. ----

  predicate CanDeleteEndpoint(s: State, p: Id) {
    p in s.db.endpoints && forall d | d in s.db.deliveries :: s.db.deliveries[d].endpoint != p
  }

  predicate CanReplayEvent(s: State, tenant: Id, e: Id) {
    e in s.db.events && s.db.events[e].tenant == tenant
  }

  predicate CanReplayDlq(s: State, tenant: Id, d: Id) {
    && d in s.db.deliveries
    && s.db.deliveries[d].event in s.db.events
    && s.db.events[s.db.deliveries[d].event].tenant == tenant
    && s.db.deliveries[d].status == Dlq
  }

  /** SELECT ... FOR UPDATE SKIP LOCKED of pending outbox rows. */
  predicate CanPublishOpen(c: Config, s: State, rows: set<Id>) {
    && 1 <= |rows| <= c.batchSize
    && forall o | o in rows :: o in s.db.outbox && s.db.outbox[o].status == Pending && !OutboxLocked(s.publishers, o)
  }

  predicate CanPublishRow(s: State, t: Id, o: Id) {
    t in s.publishers && o in s.publishers[t].todo && o in s.db.outbox
  }

  predicate CanPublishCommit(s: State, t: Id) {
    t in s.publishers && s.publishers[t].todo == {}
  }

  /** SELECT ... FOR UPDATE SKIP LOCKED of deliveries whose retry is due. */
  predicate CanRequeueOpen(s: State, rows: set<Id>) {
    && |rows| <= REQUEUE_LIMIT
    && forall d | d in rows :: d in s.db.deliveries && Due(s.db.deliveries[d], s.now) && !RetryLocked(s.requeues, d)
  }

  predicate CanRequeueRow(s: State, t: Id, d: Id) {
    t in s.requeues && d in s.requeues[t].todo && d in s.db.deliveries
  }

  predicate CanRequeueCommit(s: State, t: Id) {
    t in s.requeues && s.requeues[t].todo == {}
  }

  /** A pass may fail between rows, or in a publish call whose entry Redis did append. */
  predicate CanRequeueAbort(s: State, t: Id, lost: Option<Id>) {
    && t in s.requeues
    && (lost.Some? ==> CanRequeueRow(s, t, lost.value) && s.db.deliveries[lost.value].event in s.db.events)
  }

  predicate CanClaim(c: Config, s: State, m: Id) {
    m in s.stream.pending && m in s.stream.entries && s.now - s.stream.pending[m] >= c.staleIdle
  }

  ghost predicate CanResolve(s: State, h: Id, endpoints: seq<Id>) {
    && h in s.handlers && s.handlers[h].phase.Starting? && s.handlers[h].message in s.stream.entries
    && (HandlerPayload(s, h).event in s.db.events ==> IsResolution(s.db, HandlerPayload(s, h), endpoints))
  }

  predicate CanDeliverNext(s: State, h: Id) {
    && h in s.handlers && s.handlers[h].phase.FanOut? && s.handlers[h].phase.todo != []
    && s.handlers[h].message in s.stream.entries
  }

  predicate CanRespond(s: State, h: Id) {
    && h in s.handlers && s.handlers[h].phase.Sending?
    && s.handlers[h].phase.delivery in s.db.deliveries
    && s.db.deliveries[s.handlers[h].phase.delivery].attempt >= 1
  }

  predicate CanSaveDelivery(s: State, h: Id) {
    h in s.handlers && s.handlers[h].phase.Saving? && s.handlers[h].phase.delivery in s.db.deliveries
  }

  predicate CanAcknowledge(s: State, h: Id) {
    && h in s.handlers && s.handlers[h].phase.FanOut? && s.handlers[h].phase.todo == []
    && s.handlers[h].message in s.stream.entries
  }

  /** A DELETE waits for row locks, so the pass runs when none of its rows is locked. */
  predicate CanSweep(c: Config, s: State) {
    forall d | d in s.db.deliveries && Expired(c, s.db.deliveries[d], s.now) ::
      !RetryLocked(s.requeues, d) && !SaveLocked(s.handlers, d)
  }

  // ---- Effects. ----

  function CreateEndpointEffect(s: State, tenant: Id, subscriptions: set<string>): State {
    var p := s.nextId;
    s.(nextId := p + 1,
       db := s.db.(endpoints := s.db.endpoints[p := Endpoint(tenant, Active, subscriptions, Closed)]),
       log := s.log.(owner := s.log.owner[p := tenant],
                     subscribed := s.log.subscribed + set t | t in subscriptions :: (p, t)))
  }

  function UpdateEndpointEffect(s: State, p: Id, status: EndpointStatus, subscriptions: set<string>): State
    requires p in s.db.endpoints
  {
    s.(db := s.db.(endpoints := s.db.endpoints[p := s.db.endpoints[p].(status := status, subscriptions := subscriptions)]),
       log := if status == Active
              then s.log.(subscribed := s.log.subscribed + set t | t in subscriptions :: (p, t))
              else s.log)
  }

  /** The idempotency lookup: a known key is answered at once, expired or not. */
  function IngestLookupEffect(s: State, r: Request): State {
    if Keyed(r) && KeyOf(r) in s.db.keys then
      var row := s.db.keys[KeyOf(r)];
      s.(log := s.log.(responses := s.log.responses
                + [Response(r.tenant, r.key.value, row.event, s.now, row.expiresAt, false)]))
    else
      s.(nextId := s.nextId + 1, requests := s.requests[s.nextId := r])
  }

  /** The request's transaction: event, outbox row and key together, or nothing if the key is taken. */
  function IngestCommitEffect(c: Config, s: State, id: Id): State
    requires id in s.requests
  {
    var r := s.requests[id];
    var done := s.(requests := s.requests - {id});
    if Keyed(r) && KeyOf(r) in s.db.keys then done
    else
      var e, o := s.nextId, s.nextId + 1;
      var db := s.db.(
        events := s.db.events[e := Event(r.tenant, r.etype, Received, s.now)],
        outbox := s.db.outbox[o := OutboxRow(e, Payload(e, r.tenant, r.etype, None), Pending, 0, s.now)],
        keys := if Keyed(r) then s.db.keys[KeyOf(r) := IdempotencyKey(e, s.now + c.keyTtl)] else s.db.keys);
      done.(nextId := s.nextId + 2,
            db := db,
            log := s.log.(born := s.log.born[e := Birth(r.tenant, r.etype)],
                          responses := if Keyed(r) then s.log.responses
                            + [Response(r.tenant, r.key.value, e, s.now, s.now + c.keyTtl, true)]
                            else s.log.responses))
  }

  function ReplayEventEffect(s: State, tenant: Id, e: Id): State
    requires e in s.db.events
  {
    var o := s.nextId;
    var payload := Payload(e, tenant, s.db.events[e].etype, None);
    s.(nextId := o + 1,
       db := s.db.(outbox := s.db.outbox[o := OutboxRow(e, payload, Pending, 0, s.now)],
                   events := s.db.events[e := s.db.events[e].(status := InStream)]))
  }

  function ReplayDlqEffect(s: State, tenant: Id, d: Id): State
    requires d in s.db.deliveries && s.db.deliveries[d].event in s.db.events
  {
    var o, e := s.nextId, s.db.deliveries[d].event;
    var payload := Payload(e, tenant, s.db.events[e].etype, Some(s.db.deliveries[d].endpoint));
    s.(nextId := o + 1, db := s.db.(outbox := s.db.outbox[o := OutboxRow(e, payload, Pending, 0, s.now)]))
  }

  function PublishRowEffect(s: State, t: Id, o: Id, result: XaddResult): State
    requires t in s.publishers && o in s.db.outbox
  {
    var txn, row := s.publishers[t], s.db.outbox[o];
    var wake := if result == XaddOk && row.event in s.db.events && s.db.events[row.event].status == Received
                then txn.wake + {row.event} else txn.wake;
    var moved := s.(publishers := s.publishers[t := PublishTxn(txn.todo - {o}, txn.done[o := HandledRow(row, result)], wake)]);
    if result == XaddFailed then moved
    else moved.(nextId := s.nextId + 1, stream := XAdd(s.stream, s.nextId, Message(FromOutbox(o), row.payload)))
  }

  function PublishCommitEffect(s: State, t: Id): State
    requires t in s.publishers
  {
    s.(publishers := s.publishers - {t},
       db := s.db.(outbox := s.db.outbox + s.publishers[t].done,
                   events := Marked(s.db.events, s.publishers[t].wake, InStream)))
  }

  function RequeueRowEffect(s: State, t: Id, d: Id): State
    requires t in s.requeues && d in s.db.deliveries
  {
    var txn, row := s.requeues[t], s.db.deliveries[d];
    if row.event !in s.db.events then s.(requeues := s.requeues[t := txn.(todo := txn.todo - {d})])
    else
      s.(nextId := s.nextId + 1,
         stream := XAdd(s.stream, s.nextId, RetryMessage(d, row, s.db.events[row.event])),
         requeues := s.requeues[t := RequeueTxn(txn.todo - {d}, txn.published[d := s.nextId])])
  }

  function RequeueCommitEffect(s: State, t: Id): State
    requires t in s.requeues
  {
    s.(requeues := s.requeues - {t},
       db := s.db.(deliveries := Requeued(s.db.deliveries, s.requeues[t].published.Keys)))
  }

  function RequeueAbortEffect(s: State, t: Id, lost: Option<Id>): State
    requires lost.Some? ==> lost.value in s.db.deliveries && s.db.deliveries[lost.value].event in s.db.events
  {
    var ended := s.(requeues := s.requeues - {t});
    if lost.None? then ended
    else
      var row := s.db.deliveries[lost.value];
      ended.(nextId := s.nextId + 1,
             stream := XAdd(s.stream, s.nextId, RetryMessage(lost.value, row, s.db.events[row.event])))
  }

  function WithHandler(s: State, h: Id, phase: Phase): State
    requires h in s.handlers
  {
    s.(handlers := s.handlers[h := s.handlers[h].(phase := phase)])
  }

  /** Reads the endpoints; what is found only after another handler acknowledged the message may be left alone. */
  function ResolveEffect(s: State, h: Id, endpoints: seq<Id>): State
    requires h in s.handlers && s.handlers[h].message in s.stream.entries
  {
    var m, e := s.handlers[h].message, HandlerPayload(s, h).event;
    if e !in s.db.events || endpoints == [] then WithHandler(s, h, FanOut([]))
    else
      var found := set p | p in endpoints;
      var earlier := if m in s.log.resolved then s.log.resolved[m] else {};
      var late := if Unacked(s.stream, m) then {} else LeftAlone(s, m, found - Targets(s.stream, s.log, m));
      s.(handlers := s.handlers[h := Handler(m, found, FanOut(endpoints))],
         db := s.db.(events := s.db.events[e := s.db.events[e].(status := Processing)]),
         log := s.log.(resolved := s.log.resolved[m := earlier + found],
                       missed := s.log.missed + late))
  }

  function DeliverNextEffect(c: Config, s: State, h: Id): State
    requires h in s.handlers && s.handlers[h].phase.FanOut? && s.handlers[h].phase.todo != []
    requires s.handlers[h].message in s.stream.entries
  {
    var m, todo, e := s.handlers[h].message, s.handlers[h].phase.todo, HandlerPayload(s, h).event;
    var p, rest := todo[0], todo[1..];
    if e !in s.db.events || p !in s.db.endpoints then
      WithHandler(s, h, FanOut(rest)).(log := s.log.(missed := s.log.missed + LeftAlone(s, m, {p})))
    else
      var d, loaded := s.nextId, s.db.endpoints[p].circuit;
      var (breaker, admitted) := AllowRequest(c.limits, LoadBreaker(loaded), s.now);
      var row := if admitted then NewDelivery(e, p, Delivering, None, s.now)
                 else NewDelivery(e, p, Retrying, Some(s.now + c.limits.openDuration), s.now);
      WithHandler(s, h, if admitted then Sending(d, p, rest, breaker, loaded) else FanOut(rest))
      .(nextId := d + 1, db := s.db.(deliveries := s.db.deliveries[d := row]))
  }

  function RespondEffect(c: Config, s: State, h: Id, reply: Reply, draw: real): State
    requires h in s.handlers && s.handlers[h].phase.Sending? && s.handlers[h].phase.delivery in s.db.deliveries
    requires s.db.deliveries[s.handlers[h].phase.delivery].attempt >= 1
  {
    var phase := s.handlers[h].phase;
    var d, row := phase.delivery, s.db.deliveries[phase.delivery];
    var row' := Attempted(c, row, reply, draw, s.now);
    var breaker := BreakerAfter(c, phase.breaker, reply, row', s.now);
    var circuit := if reply.Rejected? || breaker.state == phase.loaded then None else Some(breaker.state);
    var complete := row'.status == Delivered && AllTerminal(s.db.deliveries[d := row'], row.event);
    WithHandler(s, h, Saving(d, phase.endpoint, phase.rest, row', circuit,
                             if complete then Some(RowsOf(s.db.deliveries, row.event)) else None))
  }

  function SaveDeliveryEffect(s: State, h: Id): State
    requires h in s.handlers && s.handlers[h].phase.Saving?
  {
    var phase := s.handlers[h].phase;
    var d, p, e := phase.delivery, phase.endpoint, phase.row.event;
    var endpoints := if phase.circuit.Some? && p in s.db.endpoints
                     then s.db.endpoints[p := s.db.endpoints[p].(circuit := phase.circuit.value)] else s.db.endpoints;
    var events := if phase.seen.Some? then Marked(s.db.events, {e}, Completed) else s.db.events;
    WithHandler(s, h, FanOut(phase.rest))
    .(db := s.db.(deliveries := s.db.deliveries[d := phase.row], endpoints := endpoints, events := events),
      log := if phase.seen.Some? then s.log.(completions := s.log.completions + [Completion(e, phase.seen.value)]) else s.log)
  }

  /** The acknowledgement; what this handler did not find and nothing younger takes care of is recorded as missed. */
  function AcknowledgeEffect(s: State, h: Id): State
    requires h in s.handlers && s.handlers[h].message in s.stream.entries
  {
    var m := s.handlers[h].message;
    s.(handlers := s.handlers - {h},
       stream := XAck(s.stream, m),
       log := s.log.(missed := s.log.missed
         + LeftAlone(s, m, Targets(s.stream, s.log, m) - s.handlers[h].resolved)))
  }

  /** One retention transaction: it rolls back as a whole if a surviving row still refers to an expired event. */
  function RetentionEffect(c: Config, s: State): State {
    var swept := Swept(c, s.db, s.now);
    if EventsReferenced(swept)
    then s.(db := swept, log := s.log.(purged := s.log.purged + PurgedRows(c, s.db, s.now)))
    else s
  }

  function PublishOpenEffect(s: State, rows: set<Id>): State {
    s.(nextId := s.nextId + 1, publishers := s.publishers[s.nextId := PublishTxn(rows, map[], {})])
  }

  function RequeueOpenEffect(s: State, rows: set<Id>): State {
    s.(nextId := s.nextId + 1, requeues := s.requeues[s.nextId := RequeueTxn(rows, map[])])
  }

  function ConsumeEffect(s: State, m: Id): State {
    s.(nextId := s.nextId + 1, stream := XReadGroup(s.stream, m, s.now),
       handlers := s.handlers[s.nextId := Handler(m, {}, Starting)])
  }

  function ClaimEffect(s: State, m: Id): State {
    s.(nextId := s.nextId + 1, stream := XClaim(s.stream, m, s.now),
       handlers := s.handlers[s.nextId := Handler(m, {}, Starting)])
  }

  /** The routes of the API, and time passing. */
  ghost predicate ApiNext(c: Config, s: State, step: Step, t: State) {
    match step
    case Tick(delay) => delay >= 0.0 && t == s.(now := s.now + delay)
    case CreateEndpoint(tenant, subs) => t == CreateEndpointEffect(s, tenant, subs)
    case UpdateEndpoint(p, status, subs) => p in s.db.endpoints && t == UpdateEndpointEffect(s, p, status, subs)
    case DeleteEndpoint(p) => CanDeleteEndpoint(s, p) && t == s.(db := s.db.(endpoints := s.db.endpoints - {p}))
    case IngestLookup(r) => t == IngestLookupEffect(s, r)
    case IngestCommit(r) => r in s.requests && t == IngestCommitEffect(c, s, r)
    case IngestAbandon(r) => r in s.requests && t == s.(requests := s.requests - {r})
    case ReplayEvent(tenant, e) => CanReplayEvent(s, tenant, e) && t == ReplayEventEffect(s, tenant, e)
    case ReplayDlq(tenant, d) => CanReplayDlq(s, tenant, d) && t == ReplayDlqEffect(s, tenant, d)
    case _ => false
  }

  /** The outbox publisher. */
  ghost predicate PublisherNext(c: Config, s: State, step: Step, t: State) {
    match step
    case PublishOpen(rows) => CanPublishOpen(c, s, rows) && t == PublishOpenEffect(s, rows)
    case PublishRow(x, o, result) => CanPublishRow(s, x, o) && t == PublishRowEffect(s, x, o, result)
    case PublishCommit(x) => CanPublishCommit(s, x) && t == PublishCommitEffect(s, x)
    case PublishAbort(x) => x in s.publishers && t == s.(publishers := s.publishers - {x})
    case _ => false
  }

  /** The scheduler: requeueing retries, and retention. */
  ghost predicate SchedulerNext(c: Config, s: State, step: Step, t: State) {
    match step
    case RequeueOpen(rows) => CanRequeueOpen(s, rows) && t == RequeueOpenEffect(s, rows)
    case RequeueRow(x, d) => CanRequeueRow(s, x, d) && t == RequeueRowEffect(s, x, d)
    case RequeueCommit(x) => CanRequeueCommit(s, x) && t == RequeueCommitEffect(s, x)
    case RequeueAbort(x, lost) => CanRequeueAbort(s, x, lost) && t == RequeueAbortEffect(s, x, lost)
    case Retention => CanSweep(c, s) && t == RetentionEffect(c, s)
    case _ => false
  }

  /** The worker: message handlers. */
  ghost predicate WorkerNext(c: Config, s: State, step: Step, t: State) {
    match step
    case Consume(m) => IsNext(s.stream, m) && t == ConsumeEffect(s, m)
    case Claim(m) => CanClaim(c, s, m) && t == ClaimEffect(s, m)
    case Resolve(h, endpoints) => CanResolve(s, h, endpoints) && t == ResolveEffect(s, h, endpoints)
    case DeliverNext(h) => CanDeliverNext(s, h) && t == DeliverNextEffect(c, s, h)
    case Respond(h, reply, draw) => CanRespond(s, h) && t == RespondEffect(c, s, h, reply, draw)
    case SaveDelivery(h) => CanSaveDelivery(s, h) && t == SaveDeliveryEffect(s, h)
    case Acknowledge(h) => CanAcknowledge(s, h) && t == AcknowledgeEffect(s, h)
    case HandlerDies(h) => h in s.handlers && t == s.(handlers := s.handlers - {h})
    case _ => false
  }

  /** The step is possible in `s` and leads to `t`. */
  ghost predicate Next(c: Config, s: State, step: Step, t: State) {
    ApiNext(c, s, step, t) || PublisherNext(c, s, step, t) || SchedulerNext(c, s, step, t) || WorkerNext(c, s, step, t)
  }

  // ---- Runs. ----

  /** A run: the steps taken and the states before, between and after them. */
  datatype Run = Run(states: seq<State>, steps: seq<Step>)

  ghost predicate IsRun(c: Config, r: Run) {
    && |r.states| == |r.steps| + 1
    && forall i | 0 <= i < |r.steps| :: Next(c, r.states[i], r.steps[i], r.states[i + 1])
  }

  function Last(r: Run): State
    requires |r.states| > 0
  {
    r.states[|r.states| - 1]
  }

  /** A run from the empty system. */
  ghost predicate IsHistory(c: Config, r: Run) {
    IsRun(c, r) && r.states[0] == Init
  }

  /** The run, one step longer. */
  function Extend(r: Run, step: Step, t: State): Run {
    Run(r.states + [t], r.steps + [step])
  }

  lemma ExtendIsHistory(c: Config, r: Run, step: Step, t: State)
    requires IsHistory(c, r) && Next(c, Last(r), step, t)
    ensures IsHistory(c, Extend(r, step, t)) && Last(Extend(r, step, t)) == t
  {
    hide Next;
    var longer := Extend(r, step, t);
    forall i | 0 <= i < |longer.steps| ensures Next(c, longer.states[i], longer.steps[i], longer.states[i + 1]) {
      if i < |r.steps| {
        assert Next(c, r.states[i], r.steps[i], r.states[i + 1]);
      }
    }
  }

  lemma Begin(c: Config) returns (r: Run)
    ensures IsHistory(c, r) && Last(r) == Init
  {
    r := Run([Init], []);
  }

  lemma Grow(c: Config, r: Run, s: State, step: Step, t: State) returns (longer: Run)
    requires IsHistory(c, r) && Last(r) == s && Next(c, s, step, t)
    ensures IsHistory(c, longer) && Last(longer) == t
  {
    hide Next;
    ExtendIsHistory(c, r, step, t);
    longer := Extend(r, step, t);
  }
}
