/**
 * Tenant isolation over every run: each outbox payload, stream message and delivery row pairs an event with its own
 * tenant, and deliveries only ever go to endpoints of that tenant that once actively subscribed to the event's type.
 */
module Tenancy {
  import opened Common
  import opened Tables
  import opened Broker
  import opened Pipeline
  import opened Integrity

  /** The endpoint belongs to the event's tenant and was, at some time, an active subscriber of its type. */
  ghost predicate PairOk(log: History, event: Id, endpoint: Id) {
    && event in log.born
    && endpoint in log.owner
    && log.owner[endpoint] == log.born[event].tenant
    && (endpoint, log.born[event].etype) in log.subscribed
  }

  /** The payload names its event's own tenant and type, and a target, if any, that fits. */
  ghost predicate PayloadOk(log: History, p: Payload) {
    && p.event in log.born
    && log.born[p.event] == Birth(p.tenant, p.etype)
    && (p.target.Some? ==> PairOk(log, p.event, p.target.value))
  }

  ghost predicate EventsOk(events: map<Id, Event>, log: History) {
    forall e | e in events :: e in log.born && log.born[e] == Birth(events[e].tenant, events[e].etype)
  }

  ghost predicate EndpointOk(p: Id, ep: Endpoint, log: History) {
    && p in log.owner
    && log.owner[p] == ep.tenant
    && (ep.status == Active ==> forall t | t in ep.subscriptions :: (p, t) in log.subscribed)
  }

  ghost predicate EndpointsOk(endpoints: map<Id, Endpoint>, log: History) {
    forall p | p in endpoints :: EndpointOk(p, endpoints[p], log)
  }

  ghost predicate OutboxOk(outbox: map<Id, OutboxRow>, log: History) {
    forall o | o in outbox :: PayloadOk(log, outbox[o].payload) && outbox[o].payload.event == outbox[o].event
  }

  ghost predicate EntriesOk(entries: map<Id, Message>, log: History) {
    forall m | m in entries :: PayloadOk(log, entries[m].payload)
  }

  ghost predicate DeliveriesOk(deliveries: map<Id, Delivery>, log: History) {
    forall d | d in deliveries :: PairOk(log, deliveries[d].event, deliveries[d].endpoint)
  }

  /** The endpoints a handler has yet to deliver to. */
  function Remaining(x: Handler): seq<Id> {
    match x.phase
    case Starting => []
    case FanOut(todo) => todo
    case Sending(_, p, rest, _, _) => [p] + rest
    case Saving(_, p, rest, _, _, _) => [p] + rest
  }

  ghost predicate HandlerScoped(x: Handler, entries: map<Id, Message>, log: History) {
    x.message in entries && forall p | p in Remaining(x) :: PairOk(log, entries[x.message].payload.event, p)
  }

  ghost predicate HandlersScoped(handlers: map<Id, Handler>, entries: map<Id, Message>, log: History) {
    forall h | h in handlers :: HandlerScoped(handlers[h], entries, log)
  }

  ghost predicate Scoped(s: State) {
    && EventsOk(s.db.events, s.log)
    && EndpointsOk(s.db.endpoints, s.log)
    && OutboxOk(s.db.outbox, s.log)
    && EntriesOk(s.stream.entries, s.log)
    && DeliveriesOk(s.db.deliveries, s.log)
    && HandlersScoped(s.handlers, s.stream.entries, s.log)
  }

  lemma ScopedInit()
    ensures Scoped(Init)
  {
  }

  // ---- The record only grows. ----

  ghost predicate Grows(log: History, log': History) {
    && (forall e | e in log.born :: e in log'.born && log'.born[e] == log.born[e])
    && (forall p | p in log.owner :: p in log'.owner && log'.owner[p] == log.owner[p])
    && log.subscribed <= log'.subscribed
  }

  lemma ScopedGrows(s: State, log': History)
    requires Scoped(s) && Grows(s.log, log')
    ensures Scoped(s.(log := log'))
  {
    forall h | h in s.handlers ensures HandlerScoped(s.handlers[h], s.stream.entries, log') {
      assert HandlerScoped(s.handlers[h], s.stream.entries, s.log);
    }
    forall p | p in s.db.endpoints ensures EndpointOk(p, s.db.endpoints[p], log') {
      assert EndpointOk(p, s.db.endpoints[p], s.log);
    }
  }

  lemma EntriesAdd(s: State, m: Message)
    requires EntriesOk(s.stream.entries, s.log) && HandlersScoped(s.handlers, s.stream.entries, s.log)
    requires PayloadOk(s.log, m.payload) && IdsBounded(s)
    ensures EntriesOk(XAdd(s.stream, s.nextId, m).entries, s.log)
    ensures HandlersScoped(s.handlers, XAdd(s.stream, s.nextId, m).entries, s.log)
  {
    forall h | h in s.handlers ensures HandlerScoped(s.handlers[h], XAdd(s.stream, s.nextId, m).entries, s.log) {
      assert HandlerScoped(s.handlers[h], s.stream.entries, s.log);
    }
  }

  lemma HandlersPut(s: State, h: Id, x: Handler)
    requires HandlersScoped(s.handlers, s.stream.entries, s.log) && HandlerScoped(x, s.stream.entries, s.log)
    ensures HandlersScoped(s.handlers[h := x], s.stream.entries, s.log)
  {
  }

  // ---- Step by step. ----

  lemma CreateEndpointScoped(s: State, tenant: Id, subs: set<string>)
    requires Scoped(s) && IdsBounded(s)
    ensures Scoped(CreateEndpointEffect(s, tenant, subs))
  {
    hide EventsOk, OutboxOk, EntriesOk, DeliveriesOk, HandlersScoped;
    ScopedGrows(s, CreateEndpointEffect(s, tenant, subs).log);
  }

  lemma UpdateEndpointScoped(s: State, p: Id, status: EndpointStatus, subs: set<string>)
    requires Scoped(s) && p in s.db.endpoints
    ensures Scoped(UpdateEndpointEffect(s, p, status, subs))
  {
    hide EventsOk, OutboxOk, EntriesOk, DeliveriesOk, HandlersScoped;
    assert EndpointOk(p, s.db.endpoints[p], s.log);
    ScopedGrows(s, UpdateEndpointEffect(s, p, status, subs).log);
  }

  lemma IngestCommitScoped(c: Config, s: State, r: Id)
    requires Scoped(s) && IdsBounded(s) && r in s.requests
    ensures Scoped(IngestCommitEffect(c, s, r))
  {
    hide EndpointsOk, EntriesOk, DeliveriesOk, HandlersScoped;
    ScopedGrows(s, IngestCommitEffect(c, s, r).log);
  }

  lemma ReplayEventScoped(s: State, tenant: Id, e: Id)
    requires Scoped(s) && CanReplayEvent(s, tenant, e)
    ensures Scoped(ReplayEventEffect(s, tenant, e))
  {
    hide EndpointsOk, EntriesOk, DeliveriesOk, HandlersScoped;
  }

  lemma ReplayDlqScoped(s: State, tenant: Id, d: Id)
    requires Scoped(s) && CanReplayDlq(s, tenant, d)
    ensures Scoped(ReplayDlqEffect(s, tenant, d))
  {
    hide EndpointsOk, EntriesOk, HandlersScoped;
  }

  lemma PublishRowScoped(s: State, t: Id, o: Id, result: XaddResult)
    requires Scoped(s) && IdsBounded(s) && CanPublishRow(s, t, o)
    ensures Scoped(PublishRowEffect(s, t, o, result))
  {
    hide EventsOk, EndpointsOk, EntriesOk, DeliveriesOk, HandlersScoped;
    EntriesAdd(s, Message(FromOutbox(o), s.db.outbox[o].payload));
  }

  lemma PublishCommitScoped(s: State, t: Id)
    requires Scoped(s) && PublishLocks(s.publishers, s.db.outbox) && CanPublishCommit(s, t)
    ensures Scoped(PublishCommitEffect(s, t))
  {
    hide EndpointsOk, EntriesOk, DeliveriesOk, HandlersScoped;
    assert PublishTxnOk(s.publishers[t], s.db.outbox);
  }

  lemma RetryMessageOk(s: State, d: Id)
    requires EventsOk(s.db.events, s.log) && DeliveriesOk(s.db.deliveries, s.log)
    requires d in s.db.deliveries && s.db.deliveries[d].event in s.db.events
    ensures PayloadOk(s.log, RetryMessage(d, s.db.deliveries[d], s.db.events[s.db.deliveries[d].event]).payload)
  {
  }

  lemma RequeueRowScoped(s: State, t: Id, d: Id)
    requires Scoped(s) && IdsBounded(s) && Refs(s.db) && CanRequeueRow(s, t, d)
    ensures Scoped(RequeueRowEffect(s, t, d))
  {
    hide EventsOk, EndpointsOk, OutboxOk, EntriesOk, DeliveriesOk, HandlersScoped;
    RetryMessageOk(s, d);
    EntriesAdd(s, RetryMessage(d, s.db.deliveries[d], s.db.events[s.db.deliveries[d].event]));
  }

  lemma RequeueAbortScoped(s: State, t: Id, lost: Option<Id>)
    requires Scoped(s) && IdsBounded(s) && CanRequeueAbort(s, t, lost)
    ensures Scoped(RequeueAbortEffect(s, t, lost))
  {
    hide EventsOk, EndpointsOk, OutboxOk, EntriesOk, DeliveriesOk, HandlersScoped;
    if lost.Some? {
      RetryMessageOk(s, lost.value);
      EntriesAdd(s, RetryMessage(lost.value, s.db.deliveries[lost.value], s.db.events[s.db.deliveries[lost.value].event]));
    }
  }

  lemma RequeueCommitScoped(s: State, t: Id)
    requires Scoped(s) && CanRequeueCommit(s, t)
    ensures Scoped(RequeueCommitEffect(s, t))
  {
    hide EventsOk, EndpointsOk, OutboxOk, EntriesOk, HandlersScoped;
  }

  /** The targeted branch checks neither tenant nor subscription; the payload it came with already did. */
  lemma ResolutionOk(s: State, p: Payload, endpoints: seq<Id>)
    requires EndpointsOk(s.db.endpoints, s.log) && PayloadOk(s.log, p) && IsResolution(s.db, p, endpoints)
    ensures forall x | x in endpoints :: PairOk(s.log, p.event, x)
  {
    forall x | x in endpoints ensures PairOk(s.log, p.event, x) {
      assert Resolves(s.db, p, x);
      assert EndpointOk(x, s.db.endpoints[x], s.log);
    }
  }

  lemma ResolveScoped(s: State, h: Id, endpoints: seq<Id>)
    requires Scoped(s) && CanResolve(s, h, endpoints)
    ensures Scoped(ResolveEffect(s, h, endpoints))
  {
    hide EndpointsOk, OutboxOk, DeliveriesOk, HandlersScoped;
    var t := ResolveEffect(s, h, endpoints);
    if HandlerPayload(s, h).event in s.db.events {
      ResolutionOk(s, HandlerPayload(s, h), endpoints);
    }
    HandlersPut(s, h, t.handlers[h]);
    ScopedGrows(s.(handlers := t.handlers), t.log);
  }

  lemma DeliverNextScoped(c: Config, s: State, h: Id)
    requires Scoped(s) && CanDeliverNext(s, h)
    ensures Scoped(DeliverNextEffect(c, s, h))
  {
    hide EventsOk, EndpointsOk, OutboxOk, EntriesOk, HandlersScoped;
    var t := DeliverNextEffect(c, s, h);
    NextInHand(s, h);
    HandlersPut(s, h, t.handlers[h]) by {
      assert forall p | p in Remaining(t.handlers[h]) :: p in Remaining(s.handlers[h]);
    }
    ScopedGrows(s.(handlers := t.handlers), t.log);
  }

  lemma NextInHand(s: State, h: Id)
    requires HandlersScoped(s.handlers, s.stream.entries, s.log) && CanDeliverNext(s, h)
    ensures forall p | p in s.handlers[h].phase.todo :: PairOk(s.log, HandlerPayload(s, h).event, p)
  {
    assert HandlerScoped(s.handlers[h], s.stream.entries, s.log);
  }

  lemma RestInHand(s: State, h: Id)
    requires HandlersScoped(s.handlers, s.stream.entries, s.log) && CanSaveDelivery(s, h)
    ensures HandlerScoped(SaveDeliveryEffect(s, h).handlers[h], s.stream.entries, s.log)
  {
    assert HandlerScoped(s.handlers[h], s.stream.entries, s.log);
  }

  lemma RespondScoped(c: Config, s: State, h: Id, reply: Reply, draw: real)
    requires Scoped(s) && CanRespond(s, h)
    ensures Scoped(RespondEffect(c, s, h, reply, draw))
  {
    hide EventsOk, EndpointsOk, OutboxOk, EntriesOk, DeliveriesOk;
    assert HandlerScoped(s.handlers[h], s.stream.entries, s.log);
    HandlersPut(s, h, RespondEffect(c, s, h, reply, draw).handlers[h]);
  }

  lemma SaveDeliveryScoped(s: State, h: Id)
    requires Scoped(s) && CanSaveDelivery(s, h)
    requires SameAttempt(s.handlers[h].phase.row, s.db.deliveries[s.handlers[h].phase.delivery])
    ensures Scoped(SaveDeliveryEffect(s, h))
  {
    hide OutboxOk, EntriesOk, HandlersScoped;
    var t := SaveDeliveryEffect(s, h);
    RestInHand(s, h);
    HandlersPut(s, h, t.handlers[h]);
    ScopedGrows(s.(handlers := t.handlers), t.log);
    assert forall p | p in s.db.endpoints :: EndpointOk(p, s.db.endpoints[p], t.log);
  }

  lemma RetentionScoped(c: Config, s: State)
    requires Scoped(s)
    ensures Scoped(RetentionEffect(c, s))
  {
    var t := RetentionEffect(c, s);
    assert Scoped(s.(log := t.log)) by { hide *; ScopedGrows(s, t.log) by { assert Grows(s.log, t.log) by { KeepsBirths(c, s); } } }
    hide EndpointsOk, EntriesOk, HandlersScoped, Grows, EventsReferenced;
  }

  lemma KeepsBirths(c: Config, s: State)
    ensures Grows(s.log, RetentionEffect(c, s).log)
  {
  }

  lemma SameScoped(s: State, t: State)
    requires Scoped(s) && t.db == s.db && t.stream == s.stream && t.handlers == s.handlers && t.log == s.log
    ensures Scoped(t)
  {
  }

  /** Steps that only take rows, handlers or transactions away, or open new ones. */
  lemma QuietScoped(s: State, t: State)
    requires Scoped(s) && Grows(s.log, t.log)
    requires t.db.events == s.db.events && t.db.outbox == s.db.outbox && t.db.deliveries == s.db.deliveries
    requires forall p | p in t.db.endpoints :: p in s.db.endpoints && t.db.endpoints[p] == s.db.endpoints[p]
    requires t.stream.entries == s.stream.entries
    requires forall h | h in t.handlers ::
               || (h in s.handlers && t.handlers[h] == s.handlers[h])
               || (t.handlers[h].message in s.stream.entries && t.handlers[h].phase.Starting?)
    ensures Scoped(t)
  {
    ScopedGrows(s, t.log);
  }

  lemma DeleteEndpointScoped(s: State, p: Id)
    requires Scoped(s)
    ensures Scoped(s.(db := s.db.(endpoints := s.db.endpoints - {p})))
  {
    hide Scoped;
    QuietScoped(s, s.(db := s.db.(endpoints := s.db.endpoints - {p})));
  }

  lemma IngestLookupScoped(s: State, r: Request)
    requires Scoped(s)
    ensures Scoped(IngestLookupEffect(s, r))
  {
    hide Scoped;
    QuietScoped(s, IngestLookupEffect(s, r));
  }

  lemma ConsumeScoped(s: State, m: Id)
    requires Scoped(s) && IsNext(s.stream, m)
    ensures Scoped(ConsumeEffect(s, m))
  {
    hide Scoped;
    QuietScoped(s, ConsumeEffect(s, m));
  }

  lemma ClaimScoped(c: Config, s: State, m: Id)
    requires Scoped(s) && CanClaim(c, s, m)
    ensures Scoped(ClaimEffect(s, m))
  {
    hide Scoped;
    QuietScoped(s, ClaimEffect(s, m));
  }

  lemma AcknowledgeScoped(s: State, h: Id)
    requires Scoped(s) && CanAcknowledge(s, h)
    ensures Scoped(AcknowledgeEffect(s, h))
  {
    hide Scoped;
    QuietScoped(s, AcknowledgeEffect(s, h));
  }

  lemma HandlerDiesScoped(s: State, h: Id)
    requires Scoped(s)
    ensures Scoped(s.(handlers := s.handlers - {h}))
  {
    hide Scoped;
    QuietScoped(s, s.(handlers := s.handlers - {h}));
  }

  lemma ApiScoped(c: Config, s: State, step: Step, t: State)
    requires Sound(s) && Scoped(s) && ApiNext(c, s, step, t)
    ensures Scoped(t)
  {
    hide Scoped, HandlersOk, RequeueLocks, PublishLocks, Refs, IdsBounded, WellFormed, CreateEndpointEffect;
    hide UpdateEndpointEffect, IngestLookupEffect, IngestCommitEffect, ReplayEventEffect, ReplayDlqEffect;
    match step
    case Tick(_) => SameScoped(s, t);
    case CreateEndpoint(tenant, subs) => CreateEndpointScoped(s, tenant, subs);
    case UpdateEndpoint(p, status, subs) => UpdateEndpointScoped(s, p, status, subs);
    case DeleteEndpoint(p) => DeleteEndpointScoped(s, p);
    case IngestLookup(r) => IngestLookupScoped(s, r);
    case IngestCommit(r) => IngestCommitScoped(c, s, r);
    case IngestAbandon(_) => SameScoped(s, t);
    case ReplayEvent(tenant, e) => ReplayEventScoped(s, tenant, e);
    case ReplayDlq(tenant, d) => ReplayDlqScoped(s, tenant, d);
    case _ =>
  }

  lemma PublisherScoped(c: Config, s: State, step: Step, t: State)
    requires Sound(s) && Scoped(s) && PublisherNext(c, s, step, t)
    ensures Scoped(t)
  {
    hide Scoped, HandlersOk, RequeueLocks, PublishLocks, Refs, IdsBounded, WellFormed, PublishRowEffect;
    hide PublishCommitEffect;
    match step
    case PublishOpen(_) => SameScoped(s, t);
    case PublishRow(x, o, result) => PublishRowScoped(s, x, o, result);
    case PublishCommit(x) => PublishCommitScoped(s, x);
    case PublishAbort(_) => SameScoped(s, t);
    case _ =>
  }

  lemma SchedulerScoped(c: Config, s: State, step: Step, t: State)
    requires Sound(s) && Scoped(s) && SchedulerNext(c, s, step, t)
    ensures Scoped(t)
  {
    hide Scoped, HandlersOk, RequeueLocks, PublishLocks, Refs, IdsBounded, WellFormed, RequeueRowEffect;
    hide RequeueCommitEffect, RequeueAbortEffect, RetentionEffect;
    match step
    case RequeueOpen(_) => SameScoped(s, t);
    case RequeueRow(x, d) => RequeueRowScoped(s, x, d);
    case RequeueCommit(x) => RequeueCommitScoped(s, x);
    case RequeueAbort(x, lost) => RequeueAbortScoped(s, x, lost);
    case Retention => RetentionScoped(c, s);
    case _ =>
  }

  lemma WorkerScoped(c: Config, s: State, step: Step, t: State)
    requires Sound(s) && Scoped(s) && WorkerNext(c, s, step, t)
    ensures Scoped(t)
  {
    hide Scoped, HandlersOk, RequeueLocks, PublishLocks, Refs, IdsBounded, WellFormed, ConsumeEffect, ClaimEffect;
    hide ResolveEffect, DeliverNextEffect, RespondEffect, SaveDeliveryEffect, AcknowledgeEffect;
    match step
    case Consume(m) => ConsumeScoped(s, m);
    case Claim(m) => ClaimScoped(c, s, m);
    case Resolve(h, endpoints) => ResolveScoped(s, h, endpoints);
    case DeliverNext(h) => DeliverNextScoped(c, s, h);
    case Respond(h, reply, draw) => RespondScoped(c, s, h, reply, draw);
    case SaveDelivery(h) => AttemptSaved(s, h); SaveDeliveryScoped(s, h);
    case Acknowledge(h) => AcknowledgeScoped(s, h);
    case HandlerDies(h) => HandlerDiesScoped(s, h);
    case _ =>
  }

  lemma ScopedStep(c: Config, s: State, step: Step, t: State)
    requires Sound(s) && Scoped(s) && Next(c, s, step, t)
    ensures Scoped(t)
  {
    hide ApiNext, PublisherNext, SchedulerNext, WorkerNext, Scoped, HandlersOk, RequeueLocks, PublishLocks, Refs;
    hide IdsBounded, WellFormed;
    if ApiNext(c, s, step, t) {
      ApiScoped(c, s, step, t);
    } else if PublisherNext(c, s, step, t) {
      PublisherScoped(c, s, step, t);
    } else if SchedulerNext(c, s, step, t) {
      SchedulerScoped(c, s, step, t);
    } else {
      WorkerScoped(c, s, step, t);
    }
  }

  lemma {:induction false} AlwaysScoped(c: Config, r: Run, i: nat)
    requires IsHistory(c, r) && i < |r.states|
    ensures Scoped(r.states[i])
  {
    hide Scoped, Sound, Next;
    if i == 0 {
      ScopedInit();
    } else {
      AlwaysScoped(c, r, i - 1);
      AlwaysSound(c, r, i - 1);
      ScopedStep(c, r.states[i - 1], r.steps[i - 1], r.states[i]);
    }
  }

  /**
   * Tenant isolation, in every state of every run: messages and outbox rows carry their event's own tenant and type,
   * and every delivery row is for an endpoint of the event's tenant that once actively subscribed to its type.
   */
  lemma TenantsStayApart(c: Config, r: Run, i: nat)
    requires IsHistory(c, r) && i < |r.states|
    ensures var s := r.states[i];
            && (forall o | o in s.db.outbox :: PayloadOk(s.log, s.db.outbox[o].payload))
            && (forall m | m in s.stream.entries :: PayloadOk(s.log, s.stream.entries[m].payload))
            && (forall d | d in s.db.deliveries ::
                  var row := s.db.deliveries[d];
                  && row.event in s.db.events && row.endpoint in s.db.endpoints
                  && s.db.endpoints[row.endpoint].tenant == s.db.events[row.event].tenant
                  && (row.endpoint, s.db.events[row.event].etype) in s.log.subscribed)
  {
    hide Next, IdsBounded, PublishLocks, RequeueLocks, HandlersOk;
    AlwaysSound(c, r, i);
    AlwaysScoped(c, r, i);
    var s := r.states[i];
    forall d | d in s.db.deliveries
      ensures var row := s.db.deliveries[d];
              && row.event in s.db.events && row.endpoint in s.db.endpoints
              && s.db.endpoints[row.endpoint].tenant == s.db.events[row.event].tenant
              && (row.endpoint, s.db.events[row.event].etype) in s.log.subscribed
    {
      assert PairOk(s.log, s.db.deliveries[d].event, s.db.deliveries[d].endpoint);
      assert EndpointOk(s.db.deliveries[d].endpoint, s.db.endpoints[s.db.deliveries[d].endpoint], s.log);
    }
  }
}
