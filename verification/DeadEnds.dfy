/**
 * The dead ends are reachable. From every state the processes alone can give up any pending outbox row and let its event
 * age, which ends retention; and with a threshold of at most one any request that is out can open its endpoint's circuit,
 * which ends the endpoint's calls.
 */
module DeadEnds {
  import opened Common
  import opened Tables
  import opened Breaker
  import opened Pipeline
  import opened PersistedBreaker
  import opened Retention
  import opened Recovery
  import opened Integrity
  import EarlyCompletion

  // ---- Outbox rows that are given up. ----

  /** The states of a batch of one row whose publish call fails. */
  function RowRefused(s: State, o: Id): State
    requires o in s.db.outbox
  {
    PublishRowEffect(BatchOpened(s, o), s.nextId, o, XaddFailed)
  }

  lemma RefusalAllowed(c: Config, s: State, o: Id)
    requires c.batchSize >= 1 && o in s.db.outbox && s.db.outbox[o].status == Pending && !OutboxLocked(s.publishers, o)
    ensures PublisherNext(c, s, PublishOpen({o}), BatchOpened(s, o))
    ensures PublisherNext(c, BatchOpened(s, o), PublishRow(s.nextId, o, XaddFailed), RowRefused(s, o))
    ensures s.nextId in RowRefused(s, o).publishers
    ensures PublisherNext(c, RowRefused(s, o), PublishCommit(s.nextId), PublishCommitEffect(RowRefused(s, o), s.nextId))
  {
    assert {o} - {o} == {};
    hide OutboxLocked;
  }

  lemma RefusalCounts(s: State, o: Id)
    requires IdsBounded(s) && o in s.db.outbox && s.nextId in RowRefused(s, o).publishers
    ensures var t := PublishCommitEffect(RowRefused(s, o), s.nextId);
            && o in t.db.outbox && t.db.outbox[o] == FailedRow(s.db.outbox[o])
            && t.publishers == s.publishers
  {
    assert s.publishers[s.nextId := RowRefused(s, o).publishers[s.nextId]] - {s.nextId} == s.publishers;
  }

  /** Publish calls that fail use up the attempts of the row. */
  lemma {:induction false} GiveUp(c: Config, r: Run, now: Run, s: State, o: Id) returns (longer: Run, t: State)
    requires At(c, r, now, s) && c.batchSize >= 1
    requires o in s.db.outbox && s.db.outbox[o].status == Pending && !OutboxLocked(s.publishers, o)
    ensures At(c, r, longer, t) && o in t.db.outbox && t.db.outbox[o].status == OutboxStatus.Failed
    decreases MAX_PUBLISH_ATTEMPTS - s.db.outbox[o].attempts
  {
    SoundAt(c, r, now, s);
    hide At, ApiNext, PublisherNext, SchedulerNext, WorkerNext, BatchOpened, RowRefused, PublishCommitEffect, OutboxLocked;
    RefusalAllowed(c, s, o);
    RefusalCounts(s, o);
    t := PublishCommitEffect(RowRefused(s, o), s.nextId);
    longer := Go(c, r, now, s, PublishOpen({o}), BatchOpened(s, o));
    longer := Go(c, r, longer, BatchOpened(s, o), PublishRow(s.nextId, o, XaddFailed), RowRefused(s, o));
    longer := Go(c, r, longer, RowRefused(s, o), PublishCommit(s.nextId), t);
    if t.db.outbox[o].status == Pending {
      longer, t := GiveUp(c, r, longer, t, o);
    }
  }

  /** The row was given up and its event has aged out. */
  ghost predicate BlocksRetention(c: Config, s: State, o: Id) {
    o in s.db.outbox && s.db.outbox[o].status == OutboxStatus.Failed && Aged(c, s, s.db.outbox[o].event)
  }

  /**
   * From every state of every run any pending outbox row can end retention, without a request to the API: there is a
   * continuation after which no retention pass ever changes anything again, however the run goes on.
   */
  lemma RowCanEndRetention(c: Config, r: Run, o: Id) returns (longer: Run)
    requires IsHistory(c, r) && c.batchSize >= 1 && o in Last(r).db.outbox && Last(r).db.outbox[o].status == Pending
    ensures IsHistory(c, longer) && At(c, r, longer, Last(longer)) && BlocksRetention(c, Last(longer), o)
    ensures forall on: Run, j | IsHistory(c, on) && longer.states <= on.states && |longer.steps| <= j < |on.steps|
                                && on.steps[j] == Step.Retention
              :: on.states[j + 1] == on.states[j]
  {
    hide Next, OutboxLocked;
    Here(c, r);
    var now, s := FreeRow(c, r, r, Last(r), o);
    now, s := GiveUp(c, r, now, s, o);
    AlwaysSound(c, now, |now.states| - 1);
    var e := s.db.outbox[o].event;
    var until := s.db.events[e].createdAt + c.keepEvents + 1.0;
    var t;
    longer, t := Wait(c, r, now, s, until);
    assert BlocksRetention(c, t, o);
    forall on: Run, j | IsHistory(c, on) && longer.states <= on.states && |longer.steps| <= j < |on.steps| && on.steps[j] == Step.Retention
      ensures on.states[j + 1] == on.states[j]
    {
      assert on.states[|longer.steps|] == t;
      FailedRowEndsRetention(c, on, |longer.steps|, j, o);
    }
  }

  // ---- Circuits that open. ----

  lemma FailureOpens(c: Config, s: State, h: Id)
    requires c.limits.failureThreshold <= 1 && Stored(c, s) && CanRespond(s, h) && s.handlers[h].phase.endpoint in s.db.endpoints
    ensures var u := RespondEffect(c, s, h, Unreachable, 0.0);
            && CanSaveDelivery(u, h)
            && var t, p := SaveDeliveryEffect(u, h), s.handlers[h].phase.endpoint;
               p in t.db.endpoints && t.db.endpoints[p].circuit == Open
  {
    assert HandlerStored(c, s.handlers[h]);
    RespondStored(c, s, h, Unreachable, 0.0);
  }

  /** A request that is out has its row, and so its endpoint. */
  lemma EndpointThere(c: Config, r: Run, h: Id)
    requires IsHistory(c, r) && CanRespond(Last(r), h)
    ensures Last(r).handlers[h].phase.endpoint in Last(r).db.endpoints
  {
    hide Next, IdsBounded, PublishLocks, RequeueLocks;
    AlwaysSound(c, r, |r.states| - 1);
    assert HandlerOk(Last(r).handlers[h], Last(r).stream, Last(r).db.deliveries, Last(r).nextId);
  }

  /** With a threshold of at most one, every request that is out can open the circuit of its endpoint. */
  lemma RequestCanOpenCircuit(c: Config, r: Run, h: Id) returns (longer: Run)
    requires IsHistory(c, r) && c.limits.failureThreshold <= 1 && CanRespond(Last(r), h)
    ensures IsHistory(c, longer) && At(c, r, longer, Last(longer)) && Last(r).handlers[h].phase.endpoint in Last(longer).db.endpoints
    ensures Last(longer).db.endpoints[Last(r).handlers[h].phase.endpoint].circuit == Open
  {
    var s := Last(r);
    AlwaysStored(c, r, |r.states| - 1);
    EndpointThere(c, r, h);
    FailureOpens(c, s, h);
    Here(c, r);
    var u := RespondEffect(c, s, h, Unreachable, 0.0);
    var t := SaveDeliveryEffect(u, h);
    assert WorkerNext(c, s, Respond(h, Unreachable, 0.0), u) && WorkerNext(c, u, SaveDelivery(h), t);
    hide WorkerNext, RespondEffect, SaveDeliveryEffect, Next;
    longer := WorkerGo(c, r, r, s, Respond(h, Unreachable, 0.0), u);
    longer := WorkerGo(c, r, longer, u, SaveDelivery(h), t);
  }

  /** A run whose last state has an endpoint with an open circuit. */
  lemma CircuitOpened() returns (r: Run)
    ensures IsHistory(EarlyCompletion.C, r) && 0 in Last(r).db.endpoints && Last(r).db.endpoints[0].circuit == Open
  {
    hide Next;
    r := EarlyCompletion.RequestOut();
    r := RequestCanOpenCircuit(EarlyCompletion.C, r, 7);
  }
}
