/**
 * The delivery engine (apps/worker/eventmesh_worker/delivery_engine.py) and the worker that feeds it
 * (apps/worker/eventmesh_worker/main.py).
 */
module DeliveryEngine {
  import opened Common
  import opened Tables
  import opened Breaker
  import opened Pipeline
  import opened Integrity
  import opened Deliveries
  import opened RetryChains
  import opened World
  import Classify
  import Retry

  // ---- One endpoint. ----

  /** Whether the stored circuit lets a request through. */
  predicate Admitted(c: Config, ep: Endpoint, now: Time) {
    AllowRequest(c.limits, LoadBreaker(ep.circuit), now).1
  }

  /** What the world does when the endpoint is called. */
  datatype Answer = Answer(reply: Reply, draw: real)

  function TurnOf(c: Config, s: State, p: Id, answer: Answer): Turn
    requires p in s.db.endpoints
  {
    Turn(Admitted(c, s.db.endpoints[p], s.now), answer.reply, answer.draw, s.now)
  }

  /** The stored circuit after the call. */
  function CircuitAfter(c: Config, ep: Endpoint, turn: Turn, row: Delivery): CircuitState {
    if !IsSend(turn) then ep.circuit
    else
      var b := AllowRequest(c.limits, LoadBreaker(ep.circuit), turn.at).0;
      (if row.status == Delivered then RecordSuccess(b) else RecordFailure(c.limits, b, turn.at)).state
  }

  /**
   * The database after a call for an event and an endpoint that are there: one row more, the circuit saved, and the event
   * completed if the row is delivered and every row of the event is delivered or dead-lettered.
   */
  function AfterCall(c: Config, s: State, e: Id, p: Id, answer: Answer): Database
    requires e in s.db.events && p in s.db.endpoints
  {
    var turn := TurnOf(c, s, p, answer);
    var row := RowAfter(c, e, p, 1, turn);
    var deliveries := s.db.deliveries[s.nextId := row];
    s.db.(deliveries := deliveries,
          endpoints := s.db.endpoints[p := s.db.endpoints[p].(circuit := CircuitAfter(c, s.db.endpoints[p], turn, row))],
          events := if row.status == Delivered && AllTerminal(deliveries, e)
                    then Marked(s.db.events, {e}, Completed) else s.db.events)
  }

  /** What the caller is told. */
  function OutcomeOf(turn: Turn): Classify.Outcome {
    if !turn.admitted then Classify.Outcome.Retry
    else if turn.reply.Rejected? then Classify.PermanentFailure
    else Classify.ClassifyResponse(StatusOf(turn.reply), turn.reply.TimedOut?, turn.reply.Unreachable?).outcome
  }

  /** The state after the call: the three transactions of an attempt, or the one of a deferral. */
  ghost predicate Called(c: Config, s: State, t: State, h: Id, answer: Answer)
    requires CanDeliverNext(s, h)
  {
    var x := s.handlers[h];
    var e, p := HandlerPayload(s, h).event, x.phase.todo[0];
    && t.stream == s.stream && t.publishers == s.publishers && t.requeues == s.requeues && t.now == s.now
    && t.handlers == s.handlers[h := x.(phase := FanOut(x.phase.todo[1..]))]
    && if e in s.db.events && p in s.db.endpoints then t.nextId == s.nextId + 1 && t.db == AfterCall(c, s, e, p, answer)
       else t.nextId == s.nextId && t.db == s.db
  }

  lemma SkippedOrDeferred(c: Config, s: State, h: Id, answer: Answer)
    requires CanDeliverNext(s, h) && !DeliverNextEffect(c, s, h).handlers[h].phase.Sending?
    ensures Called(c, s, DeliverNextEffect(c, s, h), h, answer)
  {
    var t, p := DeliverNextEffect(c, s, h), s.handlers[h].phase.todo[0];
    if t.db != s.db {
      assert t.db.endpoints == s.db.endpoints[p := s.db.endpoints[p]];
    }
  }

  /** The first transaction of an attempt: the row is on record before the request goes out. */
  lemma AttemptStarts(c: Config, s: State, h: Id)
    requires CanDeliverNext(s, h) && DeliverNextEffect(c, s, h).handlers[h].phase.Sending?
    ensures var a, x := DeliverNextEffect(c, s, h), s.handlers[h];
            var e, p, d := HandlerPayload(s, h).event, x.phase.todo[0], s.nextId;
            && e in s.db.events && p in s.db.endpoints && Admitted(c, s.db.endpoints[p], s.now)
            && a == s.(nextId := d + 1,
                       db := s.db.(deliveries := s.db.deliveries[d := NewDelivery(e, p, Delivering, None, s.now)]),
                       handlers := s.handlers[h := x.(phase := a.handlers[h].phase)])
            && a.handlers[h].phase == Sending(d, p, x.phase.todo[1..],
                 AllowRequest(c.limits, LoadBreaker(s.db.endpoints[p].circuit), s.now).0, s.db.endpoints[p].circuit)
  {
  }

  /** The second: the answer, the new circuit and the completion check, none of it committed yet. */
  lemma AnswerTaken(c: Config, s: State, a: State, h: Id, answer: Answer)
    requires CanDeliverNext(s, h) && a == DeliverNextEffect(c, s, h) && a.handlers[h].phase.Sending?
    ensures CanRespond(a, h)
    ensures var b, x := RespondEffect(c, a, h, answer.reply, answer.draw), s.handlers[h];
            var e, p, d := HandlerPayload(s, h).event, x.phase.todo[0], s.nextId;
            && p in s.db.endpoints
            && var turn := TurnOf(c, s, p, answer);
               var row := RowAfter(c, e, p, 1, turn);
               var circuit := CircuitAfter(c, s.db.endpoints[p], turn, row);
            && b == a.(handlers := s.handlers[h := x.(phase := b.handlers[h].phase)])
            && b.handlers[h].phase.Saving?
            && var phase := b.handlers[h].phase;
            && phase.delivery == d && phase.endpoint == p && phase.rest == x.phase.todo[1..] && phase.row == row
            && (if phase.circuit.Some? then phase.circuit.value == circuit else circuit == s.db.endpoints[p].circuit)
            && (phase.seen.Some? <==> row.status == Delivered && AllTerminal(s.db.deliveries[d := row], e))
  {
    AttemptStarts(c, s, h);
    hide DeliverNextEffect, AllTerminal;
    var d := s.nextId;
    var row := RespondEffect(c, a, h, answer.reply, answer.draw).handlers[h].phase.row;
    assert a.db.deliveries[d := row] == s.db.deliveries[d := row];
  }

  /** The third: everything is committed together. */
  lemma OutcomeSaved(c: Config, s: State, a: State, b: State, h: Id, answer: Answer)
    requires CanDeliverNext(s, h) && a == DeliverNextEffect(c, s, h) && a.handlers[h].phase.Sending?
    requires CanRespond(a, h) && b == RespondEffect(c, a, h, answer.reply, answer.draw)
    ensures CanSaveDelivery(b, h) && Called(c, s, SaveDeliveryEffect(b, h), h, answer)
  {
    AttemptStarts(c, s, h);
    AnswerTaken(c, s, a, h, answer);
    hide DeliverNextEffect, RespondEffect, AllTerminal, CircuitAfter, RowAfter;
    var t, x := SaveDeliveryEffect(b, h), s.handlers[h];
    var e, p := HandlerPayload(s, h).event, x.phase.todo[0];
    assert b.handlers[h].phase.row.event == e by { RowKnown(c, e, p, 1, TurnOf(c, s, p, answer)); }
    assert t.handlers == s.handlers[h := x.(phase := FanOut(x.phase.todo[1..]))];
    assert t.db.endpoints == AfterCall(c, s, e, p, answer).endpoints;
    assert t.db.deliveries == AfterCall(c, s, e, p, answer).deliveries;
  }

  /**
   * A call leaves a row of its own pair that is delivered, dead-lettered or waiting for its retry: delivered exactly for
   * a request that went out and succeeded, retrying exactly for a deferral or a retryable failure with attempts left.
   */
  lemma RowKnown(c: Config, e: Id, p: Id, attempt: nat, turn: Turn)
    requires attempt >= 1
    ensures var row := RowAfter(c, e, p, attempt, turn);
            && row.event == e && row.endpoint == p && row.attempt == attempt && row.createdAt == turn.at
            && row.status in {Delivered, Dlq, Retrying}
            && row.httpStatus == (if IsSend(turn) then StatusOf(turn.reply) else None)
            && (row.status == Delivered <==> IsSend(turn) && OutcomeOf(turn) == Classify.Success)
            && (row.status == Retrying <==>
                  OutcomeOf(turn) == Classify.Outcome.Retry && (turn.admitted ==> attempt < c.policy.maxAttempts))
            && (row.status == Retrying ==>
                  row.nextRetryAt == Some(turn.at + if turn.admitted then Retry.NextDelay(c.policy, attempt, turn.draw).value
                                                    else c.limits.openDuration))
  {
  }

  // ---- What a call leaves behind, by what the target did. ----

  /**
   * The row of a call, its outcome, and its retry: a deferral while the circuit is open, a dead letter for a refused URL,
   * a delivery for a 2xx, a dead letter for a redirect or a client error that is not one of the four retryable, and for
   * anything else the documented delay if more than one attempt is allowed.
   */
  ghost predicate RowSays(c: Config, circuit: CircuitState, now: Time, answer: Answer, row: Delivery, outcome: Classify.Outcome) {
    var reply := answer.reply;
    if circuit == Open then
      && row.status == Retrying && row.httpStatus == None && row.error == NoError
      && row.nextRetryAt == Some(now + c.limits.openDuration) && outcome == Classify.Outcome.Retry
    else if reply.Rejected? then
      && row.status == Dlq && row.httpStatus == None && row.error == UrlRejected && row.nextRetryAt == None
      && outcome == Classify.PermanentFailure
    else if reply.Status? && 200 <= reply.code <= 299 then
      && row.status == Delivered && row.httpStatus == Some(reply.code) && row.error == NoError && row.nextRetryAt == None
      && outcome == Classify.Success
    else if reply.Status? && 300 <= reply.code <= 499 && reply.code !in {408, 409, 425, 429} then
      && row.status == Dlq && row.httpStatus == Some(reply.code) && row.nextRetryAt == None
      && row.error.Unsuccessful? && Classify.Explains(row.error.reason, Some(reply.code), false, false)
      && outcome == Classify.PermanentFailure
    else
      && row.httpStatus == (if reply.Status? then Some(reply.code) else None)
      && row.error.Unsuccessful?
      && Classify.Explains(row.error.reason, row.httpStatus, reply.TimedOut?, reply.Unreachable?)
      && outcome == Classify.Outcome.Retry
      && if c.policy.maxAttempts <= 1 then row.status == Dlq && row.nextRetryAt == None
         else && row.status == Retrying && row.nextRetryAt.Some?
              && Retry.DocumentedDelay(c.policy, 1, answer.draw, row.nextRetryAt.value - now)
  }

  /** The stored circuit: closed by a delivery; opened by a failed request if half open, or if one failure is enough. */
  ghost predicate CircuitSays(c: Config, before: CircuitState, row: Delivery, after: CircuitState) {
    if before == Open || row.error == UrlRejected then after == before
    else if row.status == Delivered then after == Closed
    else after == if before == HalfOpen || c.limits.failureThreshold <= 1 then Open else Closed
  }

  /**
   * One row more and the circuit saved; and the event is completed if and only if the row is delivered and every other row
   * of the event is delivered or dead-lettered.
   */
  ghost predicate CallRecorded(c: Config, s: State, t: State, e: Id, p: Id, answer: Answer, outcome: Classify.Outcome)
    requires e in s.db.events && p in s.db.endpoints
  {
    && s.nextId !in s.db.deliveries && s.nextId in t.db.deliveries && p in t.db.endpoints
    && var row, before, after := t.db.deliveries[s.nextId], s.db.endpoints[p].circuit, t.db.endpoints[p].circuit;
    && t.db.deliveries == s.db.deliveries[s.nextId := row]
    && row.event == e && row.endpoint == p && row.attempt == 1 && row.createdAt == s.now
    && RowSays(c, before, s.now, answer, row, outcome)
    && CircuitSays(c, before, row, after)
    && t.db.endpoints == s.db.endpoints[p := s.db.endpoints[p].(circuit := after)]
    && t.db.events == (if row.status == Delivered && OthersSettled(s.db.deliveries, e, s.nextId)
                       then s.db.events[e := s.db.events[e].(status := Completed)] else s.db.events)
    && t.db.outbox == s.db.outbox && t.db.keys == s.db.keys
  }

  lemma RowTold(c: Config, s: State, e: Id, p: Id, answer: Answer)
    requires p in s.db.endpoints
    ensures var turn := TurnOf(c, s, p, answer);
            RowSays(c, s.db.endpoints[p].circuit, s.now, answer, RowAfter(c, e, p, 1, turn), OutcomeOf(turn))
  {
    var status, timedOut, failed := StatusOf(answer.reply), answer.reply.TimedOut?, answer.reply.Unreachable?;
    Classify.OutcomeByStatus(status, timedOut, failed);
    Classify.ReasonIsTrue(status, timedOut, failed, Classify.ClassifyResponse(status, timedOut, failed).reason);
    Retry.DelayIsExact(c.policy, 1, answer.draw);
    hide Retry.DocumentedDelay, Retry.NextDelay, Classify.ClassifyResponse, Classify.Explains;
  }

  lemma CircuitTold(c: Config, s: State, e: Id, p: Id, answer: Answer)
    requires p in s.db.endpoints
    ensures var turn := TurnOf(c, s, p, answer);
            var row := RowAfter(c, e, p, 1, turn);
            CircuitSays(c, s.db.endpoints[p].circuit, row, CircuitAfter(c, s.db.endpoints[p], turn, row))
  {
    hide Retry.NextDelay, Classify.ClassifyResponse;
  }

  lemma CompletionTold(db: Database, e: Id, d: Id, row: Delivery)
    requires e in db.events && row.event == e && row.status == Delivered
    ensures AllTerminal(db.deliveries[d := row], e) <==> OthersSettled(db.deliveries, e, d)
    ensures Marked(db.events, {e}, Completed) == db.events[e := db.events[e].(status := Completed)]
  {
    var after := db.deliveries[d := row];
    assert forall x | x in db.deliveries && x != d :: x in after && after[x] == db.deliveries[x];
  }

  lemma CallIsRecorded(c: Config, s: State, t: State, h: Id, answer: Answer)
    requires CanDeliverNext(s, h) && Called(c, s, t, h, answer) && s.nextId !in s.db.deliveries
    requires HandlerPayload(s, h).event in s.db.events && s.handlers[h].phase.todo[0] in s.db.endpoints
    ensures var e, p := HandlerPayload(s, h).event, s.handlers[h].phase.todo[0];
            CallRecorded(c, s, t, e, p, answer, OutcomeOf(TurnOf(c, s, p, answer)))
  {
    var e, p := HandlerPayload(s, h).event, s.handlers[h].phase.todo[0];
    var turn := TurnOf(c, s, p, answer);
    var row := RowAfter(c, e, p, 1, turn);
    RowKnown(c, e, p, 1, turn);
    RowTold(c, s, e, p, answer);
    CircuitTold(c, s, e, p, answer);
    if row.status == Delivered {
      CompletionTold(s.db, e, s.nextId, row);
    }
    hide RowAfter, OutcomeOf, CircuitAfter, RowSays, CircuitSays, AllTerminal, OthersSettled, Marked, TurnOf;
  }

  // ---- The fan-out of one message. ----

  /** A delivery of the pair with an outcome on record or a retry scheduled. */
  ghost predicate Dealt(deliveries: map<Id, Delivery>, d: Id, e: Id, p: Id) {
    && d in deliveries && deliveries[d].event == e && deliveries[d].endpoint == p
    && deliveries[d].status in {Delivered, Dlq, Retrying}
  }

  /** What the calls for the first `n` endpoints leave alone, and the one row each of them adds. */
  ghost predicate Fanned(s: State, t: State, h: Id, e: Id, endpoints: seq<Id>, n: nat)
    requires n <= |endpoints| && h in s.handlers
  {
    && t.nextId == s.nextId + n && t.stream == s.stream
    && t.handlers == s.handlers[h := s.handlers[h].(phase := FanOut(endpoints[n..]))]
    && e in t.db.events && t.db.endpoints.Keys == s.db.endpoints.Keys
    && (forall d | d in t.db.deliveries :: d in s.db.deliveries || s.nextId <= d < s.nextId + n)
    && (forall d | d in s.db.deliveries :: d in t.db.deliveries && t.db.deliveries[d] == s.db.deliveries[d])
    && (forall i | 0 <= i < n :: Dealt(t.db.deliveries, s.nextId + i, e, endpoints[i]))
  }

  lemma FannedStart(s: State, h: Id, e: Id, endpoints: seq<Id>)
    requires h in s.handlers && e in s.db.events && s.handlers[h].phase == FanOut(endpoints)
    ensures Fanned(s, s, h, e, endpoints, 0)
  {
    assert endpoints[0..] == endpoints;
  }

  /** The rest of the list starts with the next endpoint. */
  lemma FannedReady(s: State, t: State, h: Id, e: Id, endpoints: seq<Id>, n: nat)
    requires n < |endpoints| && h in s.handlers && s.handlers[h].message in s.stream.entries
    requires e == s.stream.entries[s.handlers[h].message].payload.event && Fanned(s, t, h, e, endpoints, n)
    ensures CanDeliverNext(t, h) && HandlerPayload(t, h).event == e && t.handlers[h].phase.todo[0] == endpoints[n]
    ensures t.handlers[h].phase.todo[1..] == endpoints[n + 1..]
  {
  }

  lemma FannedNext(c: Config, s: State, t: State, u: State, h: Id, e: Id, endpoints: seq<Id>, n: nat, answer: Answer)
    requires n < |endpoints| && h in s.handlers && s.handlers[h].message in s.stream.entries
    requires e == s.stream.entries[s.handlers[h].message].payload.event && Fanned(s, t, h, e, endpoints, n)
    requires forall d | d in s.db.deliveries :: d < s.nextId
    requires endpoints[n] in s.db.endpoints && CanDeliverNext(t, h) && Called(c, t, u, h, answer)
    ensures Fanned(s, u, h, e, endpoints, n + 1)
  {
    var p := endpoints[n];
    FannedReady(s, t, h, e, endpoints, n);
    RowKnown(c, e, p, 1, TurnOf(c, t, p, answer));
    hide RowAfter, CircuitAfter, AllTerminal;
    assert u.db == AfterCall(c, t, e, p, answer);
    assert u.handlers == s.handlers[h := s.handlers[h].(phase := FanOut(endpoints[n + 1..]))];
    forall i | 0 <= i < n + 1 ensures Dealt(u.db.deliveries, s.nextId + i, e, endpoints[i]) {
      if i < n {
        assert Dealt(t.db.deliveries, s.nextId + i, e, endpoints[i]);
      }
    }
  }

  /**
   * The endpoint query: for a targeted payload the target if it is there and active, and otherwise every active endpoint of
   * the tenant that subscribes to the type; each once, in any order.
   */
  method ResolveEndpoints(db: Database, p: Payload) returns (endpoints: seq<Id>)
    ensures IsResolution(db, p, endpoints)
    ensures p.target.Some? ==>
              endpoints == if p.target.value in db.endpoints && db.endpoints[p.target.value].status == Active then [p.target.value] else []
    ensures p.target.None? ==>
              forall e :: e in endpoints <==>
                && e in db.endpoints && db.endpoints[e].status == Active && db.endpoints[e].tenant == p.tenant
                && p.etype in db.endpoints[e].subscriptions
  {
    if p.target.Some? {
      endpoints := if p.target.value in db.endpoints && db.endpoints[p.target.value].status == Active then [p.target.value] else [];
      return;
    }
    endpoints := [];
    var left := set e | e in db.endpoints && db.endpoints[e].tenant == p.tenant && db.endpoints[e].status == Active
                        && p.etype in db.endpoints[e].subscriptions;
    while left != {}
      invariant Distinct(endpoints) && forall e | e in left :: e !in endpoints
      invariant forall e :: e in left || e in endpoints <==>
                  && e in db.endpoints && db.endpoints[e].status == Active && db.endpoints[e].tenant == p.tenant
                  && p.etype in db.endpoints[e].subscriptions
      decreases |left|
    {
      var e :| e in left;
      endpoints := endpoints + [e];
      left := left - {e};
    }
  }

  /** A handler that has just received its message, and a result of the endpoint query for it. */
  ghost predicate CanProcess(s: State, h: Id, endpoints: seq<Id>, answers: seq<Answer>) {
    CanResolve(s, h, endpoints) && |answers| == |endpoints|
  }

  /** The endpoints the handler goes through: none if the event is gone. */
  function Plan(s: State, h: Id, endpoints: seq<Id>): seq<Id>
    requires h in s.handlers && s.handlers[h].message in s.stream.entries
  {
    if HandlerPayload(s, h).event in s.db.events then endpoints else []
  }

  /** After the query: the plan is set, the event is being processed if there is anything to do, and nothing else changed. */
  ghost predicate Planned(s: State, t: State, h: Id, endpoints: seq<Id>)
    requires h in s.handlers && s.handlers[h].message in s.stream.entries
  {
    && h in t.handlers && t.handlers[h].message == s.handlers[h].message
    && t.handlers[h].phase == FanOut(Plan(s, h, endpoints))
    && t.handlers == s.handlers[h := t.handlers[h]]
    && t.stream == s.stream && t.nextId == s.nextId && t.now == s.now && t.db == s.db.(events := t.db.events)
    && t.db.events == (if Plan(s, h, endpoints) == [] then s.db.events
                       else Marked(s.db.events, {HandlerPayload(s, h).event}, Processing))
  }

  lemma QueryPlans(c: Config, s: State, h: Id, endpoints: seq<Id>)
    requires CanResolve(s, h, endpoints)
    ensures Planned(s, ResolveEffect(s, h, endpoints), h, endpoints)
    ensures Next(c, s, Resolve(h, endpoints), ResolveEffect(s, h, endpoints))
  {
  }

  /** Every endpoint found is there, and the event of a plan with endpoints is there. */
  lemma PlanStarts(s: State, t: State, h: Id, endpoints: seq<Id>)
    requires CanResolve(s, h, endpoints) && Planned(s, t, h, endpoints) && Plan(s, h, endpoints) != []
    ensures Plan(s, h, endpoints) == endpoints && h in t.handlers && t.handlers[h].message in t.stream.entries
    ensures t.stream.entries[t.handlers[h].message].payload.event == HandlerPayload(s, h).event
    ensures Fanned(t, t, h, HandlerPayload(s, h).event, endpoints, 0)
    ensures forall i | 0 <= i < |endpoints| :: endpoints[i] in t.db.endpoints
  {
    FannedStart(t, h, HandlerPayload(s, h).event, endpoints);
    forall i | 0 <= i < |endpoints| ensures endpoints[i] in t.db.endpoints {
      assert Resolves(s.db, HandlerPayload(s, h), endpoints[i]);
    }
  }

  /**
   * The first `n` endpoints of the plan each have a delivery row of their own, delivered, dead-lettered or waiting for
   * its retry; the rows that were there before are untouched, and there are no others.
   */
  ghost predicate GoneThrough(s: State, t: State, e: Id, plan: seq<Id>, n: nat)
    requires n <= |plan|
  {
    && (forall d | d in s.db.deliveries :: d in t.db.deliveries && t.db.deliveries[d] == s.db.deliveries[d])
    && (forall d | d in t.db.deliveries :: d in s.db.deliveries || s.nextId <= d < s.nextId + n)
    && (forall i | 0 <= i < n :: Dealt(t.db.deliveries, s.nextId + i, e, plan[i]))
  }

  /** How many endpoints are reached before an exception, if there is one, ends the handler. */
  function Reach(plan: seq<Id>, failsAt: Option<nat>): nat {
    if failsAt.Some? && failsAt.value < |plan| then failsAt.value else |plan|
  }

  predicate Survives(plan: seq<Id>, failsAt: Option<nat>) {
    failsAt.None? || failsAt.value >= |plan|
  }

  /** The endpoints up to `n` are done, the rest is still on the handler's list, and no message has changed hands. */
  ghost predicate Processed(s: State, t: State, h: Id, endpoints: seq<Id>, n: nat)
    requires h in s.handlers && s.handlers[h].message in s.stream.entries && n <= |Plan(s, h, endpoints)|
  {
    var plan := Plan(s, h, endpoints);
    && GoneThrough(s, t, HandlerPayload(s, h).event, plan, n)
    && t.stream == s.stream && h in t.handlers && t.handlers == s.handlers[h := t.handlers[h]]
    && t.handlers[h].message == s.handlers[h].message && t.handlers[h].phase == FanOut(plan[n..])
  }

  // ---- The fan-out, answer by answer. ----

  /** The `i`-th call left its row, its outcome and its circuit as its own answer and the circuit before call for. */
  ghost predicate TurnSays(c: Config, s: State, t: State, e: Id, p: Id, i: nat, answer: Answer, outcome: Classify.Outcome) {
    && s.nextId + i in t.db.deliveries && p in s.db.endpoints && p in t.db.endpoints
    && var row, before, after := t.db.deliveries[s.nextId + i], s.db.endpoints[p], t.db.endpoints[p];
    && row.event == e && row.endpoint == p
    && RowSays(c, before.circuit, s.now, answer, row, outcome) && CircuitSays(c, before.circuit, row, after.circuit)
    && after == before.(circuit := after.circuit)
  }

  /** So did all the calls made, and no other endpoint has changed. */
  ghost predicate AnswersTold(c: Config, s: State, t: State, e: Id, plan: seq<Id>, answers: seq<Answer>, outcomes: seq<Classify.Outcome>) {
    && |outcomes| <= |plan| && |outcomes| <= |answers| && t.now == s.now && t.db.endpoints.Keys == s.db.endpoints.Keys
    && (forall i | 0 <= i < |outcomes| :: TurnSays(c, s, t, e, plan[i], i, answers[i], outcomes[i]))
    && (forall p | p in s.db.endpoints && p !in plan[..|outcomes|] :: t.db.endpoints[p] == s.db.endpoints[p])
  }

  lemma NothingAnswered(c: Config, s: State, t: State, e: Id, plan: seq<Id>, answers: seq<Answer>)
    requires t.now == s.now && t.db.endpoints == s.db.endpoints
    ensures AnswersTold(c, s, t, e, plan, answers, [])
  {
  }

  lemma AnsweredNext(c: Config, s: State, t: State, u: State, e: Id, plan: seq<Id>, answers: seq<Answer>,
                     outcomes: seq<Classify.Outcome>, outcome: Classify.Outcome)
    requires |outcomes| < |plan| && |outcomes| < |answers| && Distinct(plan) && AnswersTold(c, s, t, e, plan, answers, outcomes)
    requires var p := plan[|outcomes|];
             && e in t.db.events && p in t.db.endpoints && t.nextId == s.nextId + |outcomes|
             && CallRecorded(c, t, u, e, p, answers[|outcomes|], outcome)
    requires u.now == t.now
    ensures AnswersTold(c, s, u, e, plan, answers, outcomes + [outcome])
  {
    hide RowSays, CircuitSays, OthersSettled;
    var n, told := |outcomes|, outcomes + [outcome];
    assert plan[..n + 1] == plan[..n] + [plan[n]] && plan[n] !in plan[..n];
    forall i | 0 <= i < n + 1 ensures TurnSays(c, s, u, e, plan[i], i, answers[i], told[i]) {
      if i < n {
        assert TurnSays(c, s, t, e, plan[i], i, answers[i], outcomes[i]);
      }
    }
  }

  /** The `i`-th row is delivered or dead-lettered. */
  predicate SettledAt(s: State, t: State, i: nat) {
    s.nextId + i in t.db.deliveries && t.db.deliveries[s.nextId + i].status in {Delivered, Dlq}
  }

  /** The `i`-th row is delivered, and all before it are delivered or dead-lettered. */
  ghost predicate CompletesAt(s: State, t: State, i: nat) {
    && s.nextId + i in t.db.deliveries && t.db.deliveries[s.nextId + i].status == Delivered
    && forall j | 0 <= j < i :: SettledAt(s, t, j)
  }

  /** All earlier rows of the event were settled, and so was some prefix of the new ones that ends with a delivery. */
  ghost predicate StampReached(s: State, t: State, e: Id, n: nat) {
    && (forall d | d in s.db.deliveries && s.db.deliveries[d].event == e :: s.db.deliveries[d].status in {Delivered, Dlq})
    && exists i :: 0 <= i < n && CompletesAt(s, t, i)
  }

  /** With nothing to do nothing changes; otherwise the event is completed if it was stamped, and is being processed if not. */
  ghost predicate EventMarked(s: State, t: State, e: Id, plan: seq<Id>, n: nat) {
    if plan == [] then t.db.events == s.db.events
    else
      && e in s.db.events
      && t.db.events == s.db.events[e := s.db.events[e].(status := if StampReached(s, t, e, n) then Completed else Processing)]
  }

  lemma PlanMarks(s: State, t: State, h: Id, endpoints: seq<Id>)
    requires CanResolve(s, h, endpoints) && Planned(s, t, h, endpoints)
    ensures EventMarked(s, t, HandlerPayload(s, h).event, Plan(s, h, endpoints), 0)
    ensures t.nextId == s.nextId && t.now == s.now && t.db == s.db.(events := t.db.events)
    ensures Plan(s, h, endpoints) != [] ==> Distinct(Plan(s, h, endpoints))
  {
  }

  /** The rows of the event before the next call: the earlier ones and those of the calls made. */
  lemma SettledSoFar(s: State, b: State, t: State, h: Id, e: Id, plan: seq<Id>, n: nat)
    requires n <= |plan| && h in b.handlers && Fanned(b, t, h, e, plan, n)
    requires b.db.deliveries == s.db.deliveries && b.nextId == s.nextId && forall d | d in s.db.deliveries :: d < s.nextId
    ensures OthersSettled(t.db.deliveries, e, t.nextId) <==>
              && (forall d | d in s.db.deliveries && s.db.deliveries[d].event == e :: s.db.deliveries[d].status in {Delivered, Dlq})
              && (forall j | 0 <= j < n :: SettledAt(s, t, j))
  {
    forall j | 0 <= j < n ensures Dealt(t.db.deliveries, s.nextId + j, e, plan[j]) {
    }
    if OthersSettled(t.db.deliveries, e, t.nextId) {
      forall j | 0 <= j < n ensures SettledAt(s, t, j) {
        assert Dealt(t.db.deliveries, s.nextId + j, e, plan[j]);
      }
    }
    if forall j | 0 <= j < n :: SettledAt(s, t, j) {
      forall d | d in t.db.deliveries && d !in s.db.deliveries ensures t.db.deliveries[d].status in {Delivered, Dlq} {
        assert SettledAt(s, t, d - s.nextId);
      }
    }
  }

  lemma CallStamps(c: Config, s: State, t: State, u: State, e: Id, p: Id, n: nat, answer: Answer, outcome: Classify.Outcome)
    requires e in t.db.events && p in t.db.endpoints && CallRecorded(c, t, u, e, p, answer, outcome)
    requires t.nextId == s.nextId + n
    requires OthersSettled(t.db.deliveries, e, t.nextId) <==>
               && (forall d | d in s.db.deliveries && s.db.deliveries[d].event == e :: s.db.deliveries[d].status in {Delivered, Dlq})
               && (forall j | 0 <= j < n :: SettledAt(s, t, j))
    ensures StampReached(s, u, e, n + 1) <==>
              || StampReached(s, t, e, n)
              || (u.db.deliveries[t.nextId].status == Delivered && OthersSettled(t.db.deliveries, e, t.nextId))
  {
    hide OthersSettled, RowSays, CircuitSays;
    forall j: nat | j < n ensures SettledAt(s, u, j) <==> SettledAt(s, t, j) {
    }
    forall i: nat | i < n ensures CompletesAt(s, u, i) <==> CompletesAt(s, t, i) {
      assert forall j: nat | j < i :: SettledAt(s, u, j) <==> SettledAt(s, t, j);
    }
    assert CompletesAt(s, u, n) <==> u.db.deliveries[t.nextId].status == Delivered && forall j | 0 <= j < n :: SettledAt(s, t, j);
  }

  lemma CallMarks(c: Config, s: State, t: State, u: State, e: Id, p: Id, n: nat, answer: Answer, outcome: Classify.Outcome, plan: seq<Id>)
    requires e in t.db.events && p in t.db.endpoints && CallRecorded(c, t, u, e, p, answer, outcome)
    requires plan != [] && EventMarked(s, t, e, plan, n) && t.nextId == s.nextId + n
    requires OthersSettled(t.db.deliveries, e, t.nextId) <==>
               && (forall d | d in s.db.deliveries && s.db.deliveries[d].event == e :: s.db.deliveries[d].status in {Delivered, Dlq})
               && (forall j | 0 <= j < n :: SettledAt(s, t, j))
    ensures EventMarked(s, u, e, plan, n + 1)
  {
    CallStamps(c, s, t, u, e, p, n, answer, outcome);
    hide RowSays, CircuitSays, OthersSettled, StampReached;
  }

  lemma NothingToDo(s: State, t: State, h: Id, endpoints: seq<Id>)
    requires h in s.handlers && s.handlers[h].message in s.stream.entries
    requires Planned(s, t, h, endpoints) && Plan(s, h, endpoints) == []
    ensures Processed(s, t, h, endpoints, 0)
  {
  }

  lemma Arrived(s: State, t: State, u: State, h: Id, endpoints: seq<Id>, n: nat)
    requires h in s.handlers && s.handlers[h].message in s.stream.entries
    requires Planned(s, t, h, endpoints) && n <= |Plan(s, h, endpoints)|
    requires Fanned(t, u, h, HandlerPayload(s, h).event, Plan(s, h, endpoints), n)
    ensures Processed(s, u, h, endpoints, n)
  {
  }

  lemma RowsNumbered(c: Config, r: Run)
    requires IsHistory(c, r)
    ensures forall d | d in Last(r).db.deliveries :: d < Last(r).nextId
  {
    hide Next;
    AlwaysSound(c, r, |r.states| - 1);
  }

  lemma SameClock(c: Config, s: State, t: State, h: Id, answer: Answer)
    requires CanDeliverNext(s, h) && Called(c, s, t, h, answer)
    ensures t.now == s.now
  {
  }

  lemma FannedThere(t: State, u: State, h: Id, e: Id, endpoints: seq<Id>, n: nat)
    requires n < |endpoints| && h in t.handlers && Fanned(t, u, h, e, endpoints, n) && endpoints[n] in t.db.endpoints
    ensures e in u.db.events && endpoints[n] in u.db.endpoints && u.nextId == t.nextId + n
  {
    assert endpoints[n] in u.db.endpoints.Keys;
  }

  lemma CallTold(c: Config, s: State, t: State, h: Id, answer: Answer)
    requires CanDeliverNext(s, h) && Called(c, s, t, h, answer) && s.nextId !in s.db.deliveries
    ensures var e, p := HandlerPayload(s, h).event, s.handlers[h].phase.todo[0];
            if e in s.db.events && p in s.db.endpoints then CallRecorded(c, s, t, e, p, answer, OutcomeOf(TurnOf(c, s, p, answer)))
            else t.db == s.db
  {
    hide CallRecorded, OutcomeOf, TurnOf, AfterCall;
    if HandlerPayload(s, h).event in s.db.events && s.handlers[h].phase.todo[0] in s.db.endpoints {
      CallIsRecorded(c, s, t, h, answer);
    }
  }

  class DeliveryEngine {
    const world: World

    constructor (world: World)
      ensures this.world == world
    {
      this.world := world;
    }

    /**
     * The next endpoint of a handler's list: skipped if the event or the endpoint is gone, deferred if the circuit is
     * open, and otherwise attempted, with the row committed before the request and its outcome after.
     */
    method DeliverToEndpoint(h: Id, answer: Answer) returns (outcome: Classify.Outcome)
      requires world.Valid() && CanDeliverNext(world.state, h)
      modifies world
      ensures world.Valid() && old(world.run.steps) <= world.run.steps
      ensures Called(world.config, old(world.state), world.state, h, answer)
      ensures var s := old(world.state);
              var e, p := HandlerPayload(s, h).event, s.handlers[h].phase.todo[0];
              outcome == if e in s.db.events && p in s.db.endpoints then OutcomeOf(TurnOf(world.config, s, p, answer))
                         else Classify.PermanentFailure
      ensures var s, t := old(world.state), world.state;
              var e, p := HandlerPayload(s, h).event, s.handlers[h].phase.todo[0];
              if e in s.db.events && p in s.db.endpoints then CallRecorded(world.config, s, t, e, p, answer, outcome)
              else t.db == s.db && outcome == Classify.PermanentFailure
    {
      hide ApiNext, PublisherNext, SchedulerNext, Called, CallRecorded, DeliverNextEffect, RespondEffect, SaveDeliveryEffect;
      var s, c := world.state, world.config;
      var e, p := HandlerPayload(s, h).event, s.handlers[h].phase.todo[0];
      var a := DeliverNextEffect(c, s, h);
      TurnTaken(c, s, h);
      RowsNumbered(c, world.run);
      world.Take(DeliverNext(h), a);
      if !a.handlers[h].phase.Sending? {
        SkippedOrDeferred(c, s, h, answer);
        CallTold(c, s, a, h, answer);
        outcome := if e in s.db.events && p in s.db.endpoints then Classify.Outcome.Retry else Classify.PermanentFailure;
        return;
      }
      AnswerTaken(c, s, a, h, answer);
      var b := RespondEffect(c, a, h, answer.reply, answer.draw);
      world.Take(Respond(h, answer.reply, answer.draw), b);
      OutcomeSaved(c, s, a, b, h, answer);
      world.Take(SaveDelivery(h), SaveDeliveryEffect(b, h));
      CallTold(c, s, SaveDeliveryEffect(b, h), h, answer);
      outcome := OutcomeOf(TurnOf(c, s, p, answer));
    }

    /**
     * Goes through the endpoints the query found, one after the other, until an exception, if there is one. Each
     * endpoint reached has a delivery row of its own.
     */
    method ProcessPayload(h: Id, endpoints: seq<Id>, answers: seq<Answer>, failsAt: Option<nat>)
      returns (ok: bool, outcomes: seq<Classify.Outcome>)
      requires world.Valid() && CanProcess(world.state, h, endpoints, answers)
      modifies world
      ensures world.Valid() && old(world.run.steps) <= world.run.steps
      ensures var plan := Plan(old(world.state), h, endpoints);
              && ok == Survives(plan, failsAt) && |outcomes| == Reach(plan, failsAt)
              && Processed(old(world.state), world.state, h, endpoints, Reach(plan, failsAt))
              && AnswersTold(world.config, old(world.state), world.state, HandlerPayload(old(world.state), h).event, plan, answers, outcomes)
              && EventMarked(old(world.state), world.state, HandlerPayload(old(world.state), h).event, plan, |outcomes|)
    {
      hide Next, IsResolution, IsHistory, ResolveEffect, Planned, Fanned, Processed, Called, CanDeliverNext, CallRecorded;
      hide EventMarked, AnswersTold, OthersSettled, SettledAt;
      ghost var s := world.state;
      ghost var e := HandlerPayload(s, h).event;
      var plan := Plan(world.state, h, endpoints);
      outcomes := [];
      QueryPlans(world.config, s, h, endpoints);
      world.Take(Resolve(h, endpoints), ResolveEffect(world.state, h, endpoints));
      ghost var t := world.state;
      PlanMarks(s, t, h, endpoints);
      NothingAnswered(world.config, s, t, e, plan, answers);
      if plan == [] {
        NothingToDo(s, t, h, endpoints);
        return true, [];
      }
      PlanStarts(s, t, h, endpoints);
      RowsNumbered(world.config, world.run);
      for i := 0 to |plan|
        invariant world.Valid() && old(world.run.steps) <= world.run.steps
        invariant Fanned(t, world.state, h, e, plan, i) && |outcomes| == i && (failsAt.Some? ==> i <= failsAt.value)
        invariant AnswersTold(world.config, s, world.state, e, plan, answers, outcomes)
        invariant EventMarked(s, world.state, e, plan, i)
      {
        ghost var before := world.state;
        if failsAt == Some(i) {
          Arrived(s, t, before, h, endpoints, i);
          return false, outcomes;
        }
        FannedReady(t, before, h, e, plan, i);
        var outcome := DeliverToEndpoint(h, answers[i]);
        FannedThere(t, before, h, e, plan, i);
        SettledSoFar(s, t, before, h, e, plan, i);
        SameClock(world.config, before, world.state, h, answers[i]);
        AnsweredNext(world.config, s, before, world.state, e, plan, answers, outcomes, outcome);
        CallMarks(world.config, s, before, world.state, e, plan[i], i, answers[i], outcome, plan);
        outcomes := outcomes + [outcome];
        FannedNext(world.config, t, before, world.state, h, e, plan, i, answers[i]);
      }
      Arrived(s, t, world.state, h, endpoints, |plan|);
      ok := true;
    }
  }

  /** A request goes out exactly when both rows are there and the circuit admits it. */
  lemma TurnTaken(c: Config, s: State, h: Id)
    requires CanDeliverNext(s, h)
    ensures h in DeliverNextEffect(c, s, h).handlers
    ensures var e, p := HandlerPayload(s, h).event, s.handlers[h].phase.todo[0];
            DeliverNextEffect(c, s, h).handlers[h].phase.Sending? <==>
              e in s.db.events && p in s.db.endpoints && Admitted(c, s.db.endpoints[p], s.now)
  {
  }
}
