/**
 * Nothing gets stuck. Whatever has crashed, been rolled back or been left locked: from every state of every run the
 * publisher, the scheduler and the worker have a way on, without any request to the API, in which an unacknowledged
 * message is finished, a pending outbox row is published, and a delivery that waits for its retry is sent again. Whether
 * they can still deliver a given event to a given endpoint is decided exactly by the state.
 */
module Recovery {
  import opened Common
  import opened Tables
  import opened Broker
  import opened Breaker
  import opened Pipeline
  import opened Integrity
  import opened Tenancy
  import opened Subscribers
  import opened Deliveries
  import opened RetryChains
  import opened DeliveryEngine

  /** Steps of the publisher, the scheduler and the worker, and time passing: no one has to ask for them. */
  predicate Automatic(step: Step) {
    || step.Tick?
    || step.PublishOpen? || step.PublishRow? || step.PublishCommit? || step.PublishAbort?
    || step.RequeueOpen? || step.RequeueRow? || step.RequeueCommit? || step.RequeueAbort? || step.Retention?
    || step.Consume? || step.Claim? || step.Resolve? || step.DeliverNext? || step.Respond? || step.SaveDelivery?
    || step.Acknowledge? || step.HandlerDies?
  }

  /** A run that goes on where `r` ends, by automatic steps only, and has reached the state `s`. */
  ghost predicate At(c: Config, r: Run, longer: Run, s: State) {
    && IsHistory(c, longer) && r.steps <= longer.steps && r.states <= longer.states && Last(longer) == s
    && forall j | |r.steps| <= j < |longer.steps| :: Automatic(longer.steps[j])
  }

  lemma Go(c: Config, r: Run, now: Run, s: State, step: Step, t: State) returns (longer: Run)
    requires At(c, r, now, s) && Next(c, s, step, t) && Automatic(step)
    ensures At(c, r, longer, t)
  {
    hide Next, Automatic;
    ExtendIsHistory(c, now, step, t);
    longer := Extend(now, step, t);
  }

  lemma WorkerGo(c: Config, r: Run, now: Run, s: State, step: Step, t: State) returns (longer: Run)
    requires At(c, r, now, s) && WorkerNext(c, s, step, t)
    ensures At(c, r, longer, t)
  {
    WorkerIsAutomatic(c, s, step, t);
    hide WorkerNext, At, Automatic;
    longer := Go(c, r, now, s, step, t);
  }

  lemma WorkerIsAutomatic(c: Config, s: State, step: Step, t: State)
    requires WorkerNext(c, s, step, t)
    ensures Automatic(step)
  {
  }

  lemma Chain(c: Config, r: Run, now: Run, s: State, longer: Run, t: State)
    requires At(c, r, now, s) && At(c, now, longer, t)
    ensures At(c, r, longer, t)
  {
    hide Automatic;
  }

  /** The same events and endpoints, and the same record of them. */
  ghost predicate SameSetting(s: State, t: State) {
    t.db.endpoints == s.db.endpoints && t.db.events.Keys == s.db.events.Keys && t.log.born == s.log.born
  }

  // ---- Messages. ----

  lemma {:induction false} AsList(ids: set<Id>) returns (list: seq<Id>)
    ensures forall x :: x in list <==> x in ids
    ensures Distinct(list)
    decreases |ids|
  {
    if ids == {} {
      list := [];
    } else {
      var x :| x in ids;
      var rest := AsList(ids - {x});
      list := [x] + rest;
    }
  }

  const OK := Answer(Status(200), 0.0)

  /** The endpoint query always has a result. */
  lemma SomeResolution(db: Database, p: Payload) returns (endpoints: seq<Id>)
    ensures IsResolution(db, p, endpoints)
  {
    var found := set e | e in db.endpoints && Resolves(db, p, e);
    endpoints := AsList(found);
    assert forall e :: e in endpoints <==> e in found;
  }

  /** The three transactions of an attempt are possible as soon as their guards hold. */
  lemma TurnAllowed(c: Config, s: State, h: Id, answer: Answer)
    ensures CanDeliverNext(s, h) ==> WorkerNext(c, s, DeliverNext(h), DeliverNextEffect(c, s, h))
    ensures CanRespond(s, h) ==>
              WorkerNext(c, s, Respond(h, answer.reply, answer.draw), RespondEffect(c, s, h, answer.reply, answer.draw))
    ensures CanSaveDelivery(s, h) ==> WorkerNext(c, s, SaveDelivery(h), SaveDeliveryEffect(s, h))
  {
    hide DeliverNextEffect, RespondEffect, SaveDeliveryEffect;
  }

  /** One endpoint's turn can always be completed; here a request, if it comes to one, is answered well. */
  lemma OneTurn(c: Config, r: Run, now: Run, s: State, h: Id) returns (longer: Run, t: State)
    requires At(c, r, now, s) && CanDeliverNext(s, h)
    ensures At(c, r, longer, t) && Called(c, s, t, h, OK)
  {
    hide At, Called, WorkerNext, DeliverNextEffect, RespondEffect, SaveDeliveryEffect;
    var a := DeliverNextEffect(c, s, h);
    TurnAllowed(c, s, h, OK);
    longer := WorkerGo(c, r, now, s, DeliverNext(h), a);
    t := a;
    TurnTaken(c, s, h);
    if !a.handlers[h].phase.Sending? {
      SkippedOrDeferred(c, s, h, OK);
    } else {
      AnswerTaken(c, s, a, h, OK);
      var b := RespondEffect(c, a, h, OK.reply, OK.draw);
      TurnAllowed(c, a, h, OK);
      longer := WorkerGo(c, r, longer, a, Respond(h, OK.reply, OK.draw), b);
      OutcomeSaved(c, s, a, b, h, OK);
      t := SaveDeliveryEffect(b, h);
      TurnAllowed(c, b, h, OK);
      longer := WorkerGo(c, r, longer, b, SaveDelivery(h), t);
    }
  }

  ghost predicate FansOut(s: State, h: Id, m: Id) {
    h in s.handlers && s.handlers[h].message == m && m in s.stream.entries && s.handlers[h].phase.FanOut?
  }

  ghost predicate IsDelivered(deliveries: map<Id, Delivery>, d: Id, e: Id, p: Id) {
    d in deliveries && deliveries[d].event == e && deliveries[d].endpoint == p && deliveries[d].status == Delivered
  }

  ghost predicate DeliveredTo(s: State, e: Id, p: Id) {
    exists d :: IsDelivered(s.db.deliveries, d, e, p)
  }

  /** The pair is delivered, or it is on the handler's list and nothing stands in its way. */
  ghost predicate Reaches(s: State, h: Id, e: Id, p: Id) {
    && h in s.handlers && s.handlers[h].phase.FanOut? && e in s.db.events
    && (|| DeliveredTo(s, e, p)
        || (p in s.handlers[h].phase.todo && p in s.db.endpoints && s.db.endpoints[p].circuit == Closed))
  }

  /** The turn of the pair delivers it, and the turn of another endpoint leaves it in place. */
  lemma TurnReaches(c: Config, s: State, t: State, h: Id, m: Id, p: Id)
    requires IdsBounded(s) && FansOut(s, h, m) && CanDeliverNext(s, h) && Called(c, s, t, h, OK)
    requires Reaches(s, h, s.stream.entries[m].payload.event, p)
    ensures Reaches(t, h, s.stream.entries[m].payload.event, p)
  {
    var e, q := s.stream.entries[m].payload.event, s.handlers[h].phase.todo[0];
    if q in s.db.endpoints {
      RowKnown(c, e, q, 1, TurnOf(c, s, q, OK));
    }
    hide RowAfter, CircuitAfter, AllTerminal;
    if d :| IsDelivered(s.db.deliveries, d, e, p) {
      assert IsDelivered(t.db.deliveries, d, e, p);
    } else if q == p {
      assert IsDelivered(t.db.deliveries, s.nextId, e, p);
    } else {
      assert s.handlers[h].phase.todo == [q] + s.handlers[h].phase.todo[1..];
    }
  }

  lemma {:induction false} FinishFanOut(c: Config, r: Run, now: Run, s: State, h: Id, m: Id, p: Id)
    returns (longer: Run, t: State)
    requires At(c, r, now, s) && FansOut(s, h, m)
    ensures At(c, r, longer, t) && FansOut(t, h, m) && t.handlers[h].phase.todo == [] && t.stream == s.stream
    ensures var e := s.stream.entries[m].payload.event;
            Reaches(s, h, e, p) ==> DeliveredTo(t, e, p)
    decreases |s.handlers[h].phase.todo|
  {
    hide At, AfterCall, Reaches, IdsBounded, DeliveredTo;
    if s.handlers[h].phase.todo == [] {
      longer, t := now, s;
      ListEmpty(s, h, s.stream.entries[m].payload.event, p);
    } else {
      var u: State;
      longer, u := OneTurn(c, r, now, s, h);
      if Reaches(s, h, s.stream.entries[m].payload.event, p) {
        SoundAt(c, r, now, s);
        TurnReaches(c, s, u, h, m, p);
      }
      longer, t := FinishFanOut(c, r, longer, u, h, m, p);
    }
  }

  lemma ListEmpty(s: State, h: Id, e: Id, p: Id)
    requires h in s.handlers && s.handlers[h].phase.FanOut? && s.handlers[h].phase.todo == []
    ensures Reaches(s, h, e, p) ==> DeliveredTo(s, e, p)
  {
  }

  /** The handler finds its endpoints. */
  lemma Look(c: Config, r: Run, now: Run, s: State, h: Id, m: Id) returns (longer: Run, t: State)
    requires At(c, r, now, s)
    requires h in s.handlers && s.handlers[h] == Handler(m, {}, Starting) && m in s.stream.entries
    ensures At(c, r, longer, t) && FansOut(t, h, m) && t.stream == s.stream && SameSetting(s, t)
    ensures forall p | s.stream.entries[m].payload.event in s.db.events && Resolves(s.db, s.stream.entries[m].payload, p) ::
              p in t.handlers[h].phase.todo
  {
    hide At, ResolveEffect, Next;
    var endpoints := SomeResolution(s.db, s.stream.entries[m].payload);
    t := ResolveEffect(s, h, endpoints);
    QueryPlans(c, s, h, endpoints);
    ResolveKeepsBirths(s, h, endpoints);
    longer := Go(c, r, now, s, Resolve(h, endpoints), t);
  }

  lemma ResolveKeepsBirths(s: State, h: Id, endpoints: seq<Id>)
    requires CanResolve(s, h, endpoints)
    ensures ResolveEffect(s, h, endpoints).log.born == s.log.born
  {
  }

  lemma Wait(c: Config, r: Run, now: Run, s: State, until: Time) returns (longer: Run, t: State)
    requires At(c, r, now, s)
    ensures At(c, r, longer, t) && t == s.(now := t.now) && t.now >= until
  {
    hide At, PublisherNext, SchedulerNext, WorkerNext;
    var delay := if until > s.now then until - s.now else 0.0;
    t := s.(now := s.now + delay);
    longer := Go(c, r, now, s, Tick(delay), t);
  }

  /** After long enough a pending message can be reclaimed. */
  lemma Reclaim(c: Config, r: Run, now: Run, s: State, m: Id) returns (longer: Run, t: State, h: Id)
    requires At(c, r, now, s) && m in s.stream.entries && m in s.stream.pending
    ensures At(c, r, longer, t)
    ensures h in t.handlers && t.handlers[h] == Handler(m, {}, Starting)
    ensures t.stream.entries == s.stream.entries && t.stream.cursor == s.stream.cursor && SameSetting(s, t)
  {
    hide At;
    longer, t := Wait(c, r, now, s, s.stream.pending[m] + c.staleIdle);
    h := t.nextId;
    longer := WorkerGo(c, r, longer, t, Claim(m), ClaimEffect(t, m));
    t := ClaimEffect(t, m);
  }

  lemma {:induction false} FirstUnread(q: Stream, m: Id) returns (x: Id)
    requires m in q.entries && q.cursor <= m
    ensures IsNext(q, x) && x <= m
    decreases m
  {
    if y :| y in q.entries && q.cursor <= y < m {
      x := FirstUnread(q, y);
    } else {
      x := m;
    }
  }

  /** Unread messages can be read, up to the one in question. */
  lemma {:induction false} ReadUpTo(c: Config, r: Run, now: Run, s: State, m: Id) returns (longer: Run, t: State)
    requires At(c, r, now, s) && Unacked(s.stream, m)
    ensures At(c, r, longer, t) && m in t.stream.pending && t.stream.entries == s.stream.entries && SameSetting(s, t)
    decreases m + 1 - s.stream.cursor
  {
    hide At;
    if m in s.stream.pending {
      longer, t := now, s;
    } else {
      var x := FirstUnread(s.stream, m);
      t := ConsumeEffect(s, x);
      longer := WorkerGo(c, r, now, s, Consume(x), t);
      if x != m {
        longer, t := ReadUpTo(c, r, longer, t, m);
      }
    }
  }

  lemma PendingWasRead(c: Config, r: Run, now: Run, s: State, m: Id)
    requires At(c, r, now, s) && m in s.stream.pending
    ensures m < s.stream.cursor
  {
    hide Next;
    AlwaysSound(c, now, |now.states| - 1);
  }

  lemma Here(c: Config, r: Run)
    requires IsHistory(c, r)
    ensures At(c, r, r, Last(r))
  {
  }

  /** The message has been finished. */
  ghost predicate Finished(s: State, m: Id) {
    m in s.stream.entries && !Unacked(s.stream, m)
  }

  /** Every unacknowledged message can be finished: some continuation acknowledges it. */
  lemma MessageCanBeFinished(c: Config, r: Run, m: Id)
    requires IsHistory(c, r) && Unacked(Last(r).stream, m)
    ensures exists longer, t :: At(c, r, longer, t) && Finished(t, m)
  {
    Here(c, r);
    var longer, t := ReadUpTo(c, r, r, Last(r), m);
    hide At, IsHistory;
    PendingWasRead(c, r, longer, t, m);
    var h: Id;
    longer, t, h := Reclaim(c, r, longer, t, m);
    longer, t := Look(c, r, longer, t, h, m);
    longer, t := FinishFanOut(c, r, longer, t, h, m, 0);
    longer := WorkerGo(c, r, longer, t, Acknowledge(h), AcknowledgeEffect(t, h));
    assert Finished(AcknowledgeEffect(t, h), m);
  }

  // ---- Outbox rows. ----

  lemma SoundAt(c: Config, r: Run, now: Run, s: State)
    requires At(c, r, now, s)
    ensures Sound(s)
  {
    hide Next, Sound;
    AlwaysSound(c, now, |now.states| - 1);
  }

  /** The locks of one transaction gone, a row it held is free. */
  lemma RollbackFrees(publishers: map<Id, PublishTxn>, outbox: map<Id, OutboxRow>, x: Id, o: Id)
    requires PublishLocks(publishers, outbox) && x in publishers && (o in publishers[x].todo || o in publishers[x].done)
    ensures !OutboxLocked(publishers - {x}, o)
  {
    forall t | t in publishers - {x} ensures o !in publishers[t].todo && o !in publishers[t].done {
      assert Apart(publishers[x], publishers[t]);
      assert o in publishers[x].todo + publishers[x].done.Keys;
    }
  }

  lemma FreeRow(c: Config, r: Run, now: Run, s: State, o: Id) returns (longer: Run, t: State)
    requires At(c, r, now, s)
    ensures At(c, r, longer, t) && t == s.(publishers := t.publishers) && !OutboxLocked(t.publishers, o)
  {
    hide At, ApiNext, SchedulerNext, WorkerNext;
    longer, t := now, s;
    if OutboxLocked(s.publishers, o) {
      SoundAt(c, r, now, s);
      var x :| x in s.publishers && (o in s.publishers[x].todo || o in s.publishers[x].done);
      RollbackFrees(s.publishers, s.db.outbox, x, o);
      t := s.(publishers := s.publishers - {x});
      longer := Go(c, r, now, s, PublishAbort(x), t);
    }
  }

  /** The row is published and its message waits in the stream. */
  ghost predicate Announced(s: State, t: State, o: Id, m: Id) {
    && o in s.db.outbox && o in t.db.outbox && t.db.outbox[o].status == Published
    && Unacked(t.stream, m) && t.stream.entries[m] == Message(FromOutbox(o), s.db.outbox[o].payload)
    && SameSetting(s, t)
  }

  /** The states on the way to publishing one row. */
  function BatchOpened(s: State, o: Id): State { PublishOpenEffect(s, {o}) }

  function RowSent(s: State, o: Id): State
    requires o in s.db.outbox
  {
    PublishRowEffect(BatchOpened(s, o), s.nextId, o, XaddOk)
  }

  lemma PublishAllowed(c: Config, s: State, o: Id)
    requires c.batchSize >= 1 && o in s.db.outbox && s.db.outbox[o].status == Pending && !OutboxLocked(s.publishers, o)
    ensures PublisherNext(c, s, PublishOpen({o}), BatchOpened(s, o))
    ensures PublisherNext(c, BatchOpened(s, o), PublishRow(s.nextId, o, XaddOk), RowSent(s, o))
    ensures s.nextId in RowSent(s, o).publishers
    ensures PublisherNext(c, RowSent(s, o), PublishCommit(s.nextId), PublishCommitEffect(RowSent(s, o), s.nextId))
  {
    assert {o} - {o} == {};
    hide OutboxLocked;
  }

  lemma PublishAnnounces(s: State, o: Id)
    requires IdsBounded(s) && o in s.db.outbox && s.nextId in RowSent(s, o).publishers
    ensures Announced(s, PublishCommitEffect(RowSent(s, o), s.nextId), o, s.nextId + 1)
  {
  }

  /** Every pending outbox row can be published, even one that a transaction still holds. */
  lemma RowCanBePublished(c: Config, r: Run, o: Id)
    requires IsHistory(c, r) && c.batchSize >= 1 && o in Last(r).db.outbox && Last(r).db.outbox[o].status == Pending
    ensures exists longer, t, m :: At(c, r, longer, t) && Announced(Last(r), t, o, m)
  {
    Here(c, r);
    var longer, s := FreeRow(c, r, r, Last(r), o);
    SoundAt(c, r, longer, s);
    hide At, IsHistory, ApiNext, PublisherNext, SchedulerNext, WorkerNext, Announced, BatchOpened, RowSent, PublishCommitEffect;
    PublishAllowed(c, s, o);
    PublishAnnounces(s, o);
    var t := PublishCommitEffect(RowSent(s, o), s.nextId);
    longer := Go(c, r, longer, s, PublishOpen({o}), BatchOpened(s, o));
    longer := Go(c, r, longer, BatchOpened(s, o), PublishRow(s.nextId, o, XaddOk), RowSent(s, o));
    longer := Go(c, r, longer, RowSent(s, o), PublishCommit(s.nextId), t);
    SameRow(Last(r), s, t, o, s.nextId + 1);
    assert At(c, r, longer, t) && Announced(Last(r), t, o, s.nextId + 1);
  }

  lemma SameRow(s0: State, s: State, t: State, o: Id, m: Id)
    requires Announced(s, t, o, m) && s == s0.(publishers := s.publishers)
    ensures Announced(s0, t, o, m)
  {
  }

  // ---- Retries. ----

  lemma RollbackFreesRetry(requeues: map<Id, RequeueTxn>, deliveries: map<Id, Delivery>, x: Id, d: Id)
    requires RequeueLocks(requeues, deliveries) && x in requeues && (d in requeues[x].todo || d in requeues[x].published)
    ensures !RetryLocked(requeues - {x}, d)
  {
    forall t | t in requeues - {x} ensures d !in requeues[t].todo && d !in requeues[t].published {
      assert ApartRetries(requeues[x], requeues[t]);
      assert d in requeues[x].todo + requeues[x].published.Keys;
    }
  }

  lemma FreeRetry(c: Config, r: Run, now: Run, s: State, d: Id) returns (longer: Run, t: State)
    requires At(c, r, now, s)
    ensures At(c, r, longer, t) && t == s.(requeues := t.requeues) && !RetryLocked(t.requeues, d)
  {
    hide At, ApiNext, PublisherNext, WorkerNext;
    longer, t := now, s;
    if RetryLocked(s.requeues, d) {
      SoundAt(c, r, now, s);
      var x :| x in s.requeues && (d in s.requeues[x].todo || d in s.requeues[x].published);
      RollbackFreesRetry(s.requeues, s.db.deliveries, x, d);
      t := s.(requeues := s.requeues - {x});
      longer := Go(c, r, now, s, RequeueAbort(x, None), t);
    }
  }

  /** The delivery is queued and a message for its event and endpoint waits in the stream. */
  ghost predicate SentAgain(s: State, t: State, d: Id, m: Id) {
    && d in s.db.deliveries && d in t.db.deliveries && t.db.deliveries[d].status == Queued
    && Unacked(t.stream, m) && t.stream.entries[m].source == FromRetry(d)
    && t.stream.entries[m].payload.event == s.db.deliveries[d].event
    && t.stream.entries[m].payload.target == Some(s.db.deliveries[d].endpoint)
    && SameSetting(s, t)
  }

  /** The states on the way to requeueing one delivery. */
  function PassOpened(s: State, d: Id): State { RequeueOpenEffect(s, {d}) }

  function PassSent(s: State, d: Id): State
    requires d in s.db.deliveries
  {
    RequeueRowEffect(PassOpened(s, d), s.nextId, d)
  }

  lemma RequeueAllowed(c: Config, s: State, d: Id)
    requires d in s.db.deliveries && Due(s.db.deliveries[d], s.now) && !RetryLocked(s.requeues, d)
    ensures SchedulerNext(c, s, RequeueOpen({d}), PassOpened(s, d))
    ensures SchedulerNext(c, PassOpened(s, d), RequeueRow(s.nextId, d), PassSent(s, d))
    ensures s.nextId in PassSent(s, d).requeues
    ensures SchedulerNext(c, PassSent(s, d), RequeueCommit(s.nextId), RequeueCommitEffect(PassSent(s, d), s.nextId))
  {
    assert {d} - {d} == {};
    hide RetryLocked;
  }

  lemma RequeueSends(s: State, d: Id)
    requires IdsBounded(s) && d in s.db.deliveries && s.db.deliveries[d].event in s.db.events
    requires s.nextId in PassSent(s, d).requeues
    ensures SentAgain(s, RequeueCommitEffect(PassSent(s, d), s.nextId), d, s.nextId + 1)
  {
    assert d in PassSent(s, d).requeues[s.nextId].published.Keys;
  }

  /** Every delivery that waits for its retry can be sent again, even one that a pass still holds. */
  lemma RetryCanBeSent(c: Config, r: Run, d: Id)
    requires IsHistory(c, r) && d in Last(r).db.deliveries && Last(r).db.deliveries[d].status == Retrying
    ensures exists longer, t, m :: At(c, r, longer, t) && SentAgain(Last(r), t, d, m)
  {
    Here(c, r);
    var row := Last(r).db.deliveries[d];
    HasRetryTime(c, r, d);
    hide At, IsHistory, ApiNext, PublisherNext, SchedulerNext, WorkerNext, SentAgain, PassOpened, PassSent, RequeueCommitEffect;
    var longer, s := FreeRetry(c, r, r, Last(r), d);
    longer, s := Wait(c, r, longer, s, row.nextRetryAt.value);
    SoundAt(c, r, longer, s);
    RequeueAllowed(c, s, d);
    RequeueSends(s, d);
    var t := RequeueCommitEffect(PassSent(s, d), s.nextId);
    longer := Go(c, r, longer, s, RequeueOpen({d}), PassOpened(s, d));
    longer := Go(c, r, longer, PassOpened(s, d), RequeueRow(s.nextId, d), PassSent(s, d));
    longer := Go(c, r, longer, PassSent(s, d), RequeueCommit(s.nextId), t);
    SameDelivery(Last(r), s, t, d, s.nextId + 1);
    assert At(c, r, longer, t) && SentAgain(Last(r), t, d, s.nextId + 1);
  }

  lemma SameDelivery(s0: State, s: State, t: State, d: Id, m: Id)
    requires SentAgain(s, t, d, m) && s == s0.(requeues := s.requeues, now := s.now)
    ensures SentAgain(s0, t, d, m)
  {
  }

  lemma HasRetryTime(c: Config, r: Run, d: Id)
    requires IsHistory(c, r) && d in Last(r).db.deliveries && Last(r).db.deliveries[d].status == Retrying
    ensures Last(r).db.deliveries[d].nextRetryAt.Some?
  {
    hide Next;
    RowsAlwaysTruthful(c, r, |r.states| - 1);
    assert RowOk(c, Last(r).db.deliveries[d], Last(r).now);
  }

  // ---- Deliveries. ----

  lemma ScopedAt(c: Config, r: Run, now: Run, s: State)
    requires At(c, r, now, s)
    ensures Scoped(s)
  {
    hide Next, Scoped;
    AlwaysScoped(c, now, |now.states| - 1);
  }

  /** Nothing stands in the way of a delivery to the endpoint. */
  ghost predicate Ready(s: State, e: Id, p: Id) {
    e in s.db.events && Wants(s, e, p) && p in s.db.endpoints && s.db.endpoints[p].circuit == Closed
  }

  lemma StillReady(s: State, t: State, e: Id, p: Id)
    requires Ready(s, e, p) && SameSetting(s, t)
    ensures Ready(t, e, p)
  {
  }

  lemma MeantResolves(s: State, m: Id, e: Id, p: Id)
    requires Scoped(s) && Ready(s, e, p) && Meant(s.stream, m, e, p)
    ensures Resolves(s.db, s.stream.entries[m].payload, p)
  {
    assert PayloadOk(s.log, s.stream.entries[m].payload);
  }

  /** An unacknowledged message that is meant for the endpoint can be turned into a delivery. */
  lemma DeliverVia(c: Config, r: Run, now: Run, s: State, m: Id, e: Id, p: Id) returns (longer: Run, t: State)
    requires At(c, r, now, s) && Unacked(s.stream, m) && Meant(s.stream, m, e, p) && Ready(s, e, p)
    ensures At(c, r, longer, t) && DeliveredTo(t, e, p)
  {
    hide At, Ready, DeliveredTo, Scoped, Resolves;
    var u: State, h: Id;
    longer, t := ReadUpTo(c, r, now, s, m);
    longer, u, h := Reclaim(c, r, longer, t, m);
    StillReady(s, t, e, p);
    StillReady(t, u, e, p);
    ScopedAt(c, r, longer, u);
    MeantResolves(u, m, e, p);
    EventThere(u, e, p);
    longer, t := Look(c, r, longer, u, h, m);
    StillReady(u, t, e, p);
    OnTheList(t, h, e, p);
    longer, t := FinishFanOut(c, r, longer, t, h, m, p);
  }

  lemma EventThere(s: State, e: Id, p: Id)
    requires Ready(s, e, p)
    ensures e in s.db.events
  {
  }

  lemma OnTheList(s: State, h: Id, e: Id, p: Id)
    requires Ready(s, e, p) && h in s.handlers && s.handlers[h].phase.FanOut? && p in s.handlers[h].phase.todo
    ensures Reaches(s, h, e, p)
  {
  }

  ghost predicate CanStillBeDelivered(c: Config, r: Run, e: Id, p: Id) {
    exists longer, t :: At(c, r, longer, t) && DeliveredTo(t, e, p)
  }

  lemma ViaMessage(c: Config, r: Run, m: Id, e: Id, p: Id)
    requires IsHistory(c, r) && Unacked(Last(r).stream, m) && Meant(Last(r).stream, m, e, p) && Ready(Last(r), e, p)
    ensures CanStillBeDelivered(c, r, e, p)
  {
    Here(c, r);
    var longer, t := DeliverVia(c, r, r, Last(r), m, e, p);
  }

  /** A payload about the event that is not addressed to another endpoint. */
  ghost predicate For(x: Payload, e: Id, p: Id) {
    x.event == e && (x.target.None? || x.target == Some(p))
  }

  lemma ViaOutbox(c: Config, r: Run, o: Id, e: Id, p: Id)
    requires IsHistory(c, r) && c.batchSize >= 1 && o in Last(r).db.outbox && Last(r).db.outbox[o].status == Pending
    requires For(Last(r).db.outbox[o].payload, e, p) && Ready(Last(r), e, p)
    ensures CanStillBeDelivered(c, r, e, p)
  {
    hide At, Ready, DeliveredTo;
    RowCanBePublished(c, r, o);
    var now, s, m :| At(c, r, now, s) && Announced(Last(r), s, o, m);
    StillReady(Last(r), s, e, p);
    var longer, t := DeliverVia(c, r, now, s, m, e, p);
  }

  /** A delivery of the pair that waits for its retry. */
  ghost predicate Waits(deliveries: map<Id, Delivery>, d: Id, e: Id, p: Id) {
    d in deliveries && deliveries[d].event == e && deliveries[d].endpoint == p && deliveries[d].status == Retrying
  }

  lemma ViaRetry(c: Config, r: Run, d: Id, e: Id, p: Id)
    requires IsHistory(c, r) && Waits(Last(r).db.deliveries, d, e, p) && Ready(Last(r), e, p)
    ensures CanStillBeDelivered(c, r, e, p)
  {
    hide At, Ready, DeliveredTo;
    RetryCanBeSent(c, r, d);
    var now, s, m :| At(c, r, now, s) && SentAgain(Last(r), s, d, m);
    StillReady(Last(r), s, e, p);
    var longer, t := DeliverVia(c, r, now, s, m, e, p);
  }
}
