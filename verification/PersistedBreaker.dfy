/**
 * The circuit breaker as the delivery engine uses it (apps/worker/eventmesh_worker/delivery_engine.py): a new object for
 * every attempt, of which only the three-valued state is loaded and saved. What the object promises over its lifetime
 * does not carry over. A threshold of two or more is never reached, and a circuit that opens never closes again.
 */
module PersistedBreaker {
  import opened Common
  import opened Tables
  import opened Breaker
  import opened Pipeline
  import opened Frames

  /** A stored state is closed, or open if one failure is enough to open it. */
  ghost predicate CircuitOk(c: Config, circuit: CircuitState) {
    circuit == Closed || (circuit == Open && c.limits.failureThreshold <= 1)
  }

  ghost predicate EndpointsStored(c: Config, endpoints: map<Id, Endpoint>) {
    forall p | p in endpoints :: CircuitOk(c, endpoints[p].circuit)
  }

  /** Every attempt in progress found the circuit closed, and can at most open it. */
  ghost predicate HandlerStored(c: Config, x: Handler) {
    && (x.phase.Sending? ==> x.phase.loaded == Closed && x.phase.breaker == Fresh)
    && (x.phase.Saving? && x.phase.circuit.Some? ==> x.phase.circuit.value == Open && c.limits.failureThreshold <= 1)
  }

  ghost predicate HandlersStored(c: Config, handlers: map<Id, Handler>) {
    forall h | h in handlers :: HandlerStored(c, handlers[h])
  }

  ghost predicate Stored(c: Config, s: State) {
    EndpointsStored(c, s.db.endpoints) && HandlersStored(c, s.handlers)
  }

  lemma StoredInit(c: Config)
    ensures Stored(c, Init)
  {
  }

  lemma ApiStored(c: Config, s: State, step: Step, t: State)
    requires Stored(c, s) && ApiNext(c, s, step, t)
    ensures Stored(c, t)
  {
    hide HandlersStored;
    ApiFrames(c, s, step, t);
    ApiEndpoints(c, s, step, t);
  }

  lemma ApiEndpoints(c: Config, s: State, step: Step, t: State)
    requires EndpointsStored(c, s.db.endpoints) && ApiNext(c, s, step, t)
    ensures EndpointsStored(c, t.db.endpoints)
  {
  }

  lemma DeliverStored(c: Config, s: State, h: Id)
    requires Stored(c, s) && CanDeliverNext(s, h)
    ensures Stored(c, DeliverNextEffect(c, s, h))
  {
    var t := DeliverNextEffect(c, s, h);
    assert t.db.endpoints == s.db.endpoints;
    assert HandlerStored(c, t.handlers[h]);
    forall k | k in t.handlers ensures HandlerStored(c, t.handlers[k]) {
      assert k != h ==> HandlerStored(c, s.handlers[k]);
    }
  }

  /** A failed attempt opens the circuit if and only if one failure is enough. */
  lemma RespondStored(c: Config, s: State, h: Id, reply: Reply, draw: real)
    requires Stored(c, s) && CanRespond(s, h)
    ensures Stored(c, RespondEffect(c, s, h, reply, draw))
    ensures var phase := RespondEffect(c, s, h, reply, draw).handlers[h].phase;
            phase.circuit == Some(Open) <==>
              !reply.Rejected? && phase.row.status != Delivered && c.limits.failureThreshold <= 1
  {
    var t := RespondEffect(c, s, h, reply, draw);
    assert HandlerStored(c, s.handlers[h]);
    forall k | k in t.handlers ensures HandlerStored(c, t.handlers[k]) {
      assert k != h ==> HandlerStored(c, s.handlers[k]);
    }
  }

  lemma SaveStored(c: Config, s: State, h: Id)
    requires Stored(c, s) && CanSaveDelivery(s, h)
    ensures Stored(c, SaveDeliveryEffect(s, h))
  {
    var t := SaveDeliveryEffect(s, h);
    assert HandlerStored(c, s.handlers[h]);
    forall k | k in t.handlers ensures HandlerStored(c, t.handlers[k]) {
      assert k != h ==> HandlerStored(c, s.handlers[k]);
    }
  }

  /** A handler that is neither sending nor saving, or is gone. */
  lemma IdleStored(c: Config, s: State, t: State)
    requires Stored(c, s) && t.db.endpoints == s.db.endpoints
    requires forall k | k in t.handlers ::
               || (k in s.handlers && t.handlers[k] == s.handlers[k])
               || t.handlers[k].phase.Starting? || t.handlers[k].phase.FanOut?
    ensures Stored(c, t)
  {
    forall k | k in t.handlers ensures HandlerStored(c, t.handlers[k]) {
      assert k in s.handlers && t.handlers[k] == s.handlers[k] ==> HandlerStored(c, s.handlers[k]);
    }
  }

  lemma WorkerStored(c: Config, s: State, step: Step, t: State)
    requires Stored(c, s) && WorkerNext(c, s, step, t)
    ensures Stored(c, t)
  {
    hide Stored, DeliverNextEffect, RespondEffect, SaveDeliveryEffect;
    match step
    case DeliverNext(h) => DeliverStored(c, s, h);
    case Respond(h, reply, draw) => RespondStored(c, s, h, reply, draw);
    case SaveDelivery(h) => SaveStored(c, s, h);
    case _ => IdleStored(c, s, t);
  }

  lemma StoredStep(c: Config, s: State, step: Step, t: State)
    requires Stored(c, s) && Next(c, s, step, t)
    ensures Stored(c, t)
  {
    hide ApiNext, PublisherNext, SchedulerNext, WorkerNext, EndpointsStored, HandlersStored;
    if ApiNext(c, s, step, t) { ApiStored(c, s, step, t); }
    else if PublisherNext(c, s, step, t) { PublisherFrames(c, s, step, t); }
    else if SchedulerNext(c, s, step, t) { SchedulerFrames(c, s, step, t); }
    else { WorkerStored(c, s, step, t); }
  }

  lemma {:induction false} AlwaysStored(c: Config, r: Run, i: nat)
    requires IsHistory(c, r) && i < |r.states|
    ensures Stored(c, r.states[i])
  {
    hide Next, Stored;
    if i == 0 {
      StoredInit(c);
    } else {
      AlwaysStored(c, r, i - 1);
      StoredStep(c, r.states[i - 1], r.steps[i - 1], r.states[i]);
    }
  }

  /** With a threshold of two or more no circuit is ever anything but closed, however many deliveries fail in a row. */
  lemma HighThresholdNeverOpens(c: Config, r: Run, i: nat, p: Id)
    requires IsHistory(c, r) && i < |r.states| && p in r.states[i].db.endpoints && c.limits.failureThreshold >= 2
    ensures r.states[i].db.endpoints[p].circuit == Closed
  {
    hide Next;
    AlwaysStored(c, r, i);
    assert CircuitOk(c, r.states[i].db.endpoints[p].circuit);
  }

  // ---- An open circuit. ----

  ghost predicate OpenIfThere(s: State, p: Id) {
    p in s.db.endpoints ==> s.db.endpoints[p].circuit == Open
  }

  lemma ApiKeepsOpen(c: Config, s: State, step: Step, t: State, p: Id)
    requires ApiNext(c, s, step, t) && OpenIfThere(s, p) && p < s.nextId
    ensures OpenIfThere(t, p)
  {
  }

  lemma WorkerKeepsOpen(c: Config, s: State, step: Step, t: State, p: Id)
    requires WorkerNext(c, s, step, t) && OpenIfThere(s, p) && HandlersStored(c, s.handlers)
    ensures OpenIfThere(t, p)
  {
    if step.SaveDelivery? {
      assert HandlerStored(c, s.handlers[step.handler]);
    }
  }

  lemma OpenStep(c: Config, s: State, step: Step, t: State, p: Id)
    requires Next(c, s, step, t) && Stored(c, s) && OpenIfThere(s, p) && p < s.nextId
    ensures OpenIfThere(t, p) && p < t.nextId
  {
    hide ApiNext, PublisherNext, SchedulerNext, WorkerNext, EndpointsStored, HandlersStored;
    CounterGrows(c, s, step, t);
    if ApiNext(c, s, step, t) { ApiKeepsOpen(c, s, step, t, p); }
    else if PublisherNext(c, s, step, t) { PublisherFrames(c, s, step, t); }
    else if SchedulerNext(c, s, step, t) { SchedulerFrames(c, s, step, t); }
    else { WorkerKeepsOpen(c, s, step, t, p); }
  }

  /** An open circuit stays open for as long as the endpoint exists, however much time passes. */
  lemma {:induction false} OpenForGood(c: Config, r: Run, i: nat, j: nat, p: Id)
    requires IsHistory(c, r) && i <= j < |r.states| && p < r.states[i].nextId && OpenIfThere(r.states[i], p)
    ensures OpenIfThere(r.states[j], p) && p < r.states[j].nextId
  {
    hide Next, Stored, OpenIfThere;
    if i < j {
      OpenForGood(c, r, i, j - 1, p);
      AlwaysStored(c, r, j - 1);
      OpenStep(c, r.states[j - 1], r.steps[j - 1], r.states[j], p);
    }
  }

  /**
   * After its circuit has opened an endpoint is never called again: every later turn of it in a fan-out ends in a
   * deferred delivery instead of a request.
   */
  lemma OpenEndpointNeverCalled(c: Config, r: Run, i: nat, j: nat, h: Id, p: Id)
    requires IsHistory(c, r) && i <= j < |r.steps| && p < r.states[i].nextId && OpenIfThere(r.states[i], p)
    requires r.steps[j] == DeliverNext(h)
    ensures h in r.states[j].handlers && h in r.states[j + 1].handlers && r.states[j].handlers[h].phase.FanOut?
    ensures var s, t := r.states[j], r.states[j + 1];
            var todo := s.handlers[h].phase.todo;
            && todo != []
            && (todo[0] == p ==>
                  && t.handlers[h].phase == FanOut(todo[1..])
                  && (t.db.deliveries != s.db.deliveries ==>
                        && t.db.deliveries.Keys == s.db.deliveries.Keys + {s.nextId}
                        && t.db.deliveries[s.nextId].status == Retrying
                        && t.db.deliveries[s.nextId].nextRetryAt == Some(s.now + c.limits.openDuration)))
  {
    OpenForGood(c, r, i, j, p);
    assert Next(c, r.states[j], r.steps[j], r.states[j + 1]);
  }
}
