/**
 * Endpoints that stay. If a message's own query would have found an endpoint in every state since the message was
 * published, every handler of it finds the endpoint, and so does every handler of a retry that follows. So the message is
 * unacknowledged, or a delivery row accounts for the pair; and from the commit of an event to the recorded outcome
 * nothing is lost.
 */
module Subscribers {
  import opened Common
  import opened Tables
  import opened Broker
  import opened Pipeline
  import opened Frames
  import opened Integrity
  import opened Tenancy
  import opened Publication
  import opened NoLoss
  import opened Traces
  import opened Turns

  /** Once the event is accepted, the endpoint is an active subscriber of its type and belongs to its tenant. */
  ghost predicate Wants(s: State, e: Id, p: Id) {
    e in s.log.born ==>
      && p in s.db.endpoints && s.db.endpoints[p].status == Active
      && s.db.endpoints[p].tenant == s.log.born[e].tenant
      && s.log.born[e].etype in s.db.endpoints[p].subscriptions
  }

  /** A message about the event that is not addressed to another endpoint. */
  ghost predicate Meant(stream: Stream, m: Id, e: Id, p: Id) {
    && m in stream.entries && stream.entries[m].payload.event == e
    && (stream.entries[m].payload.target.None? || stream.entries[m].payload.target == Some(p))
  }

  /** A message about the event that is addressed to the endpoint. */
  ghost predicate Addressed(stream: Stream, m: Id, e: Id, p: Id) {
    m in stream.entries && stream.entries[m].payload.event == e && stream.entries[m].payload.target == Some(p)
  }

  /** The message `k` itself, or a younger one addressed to the endpoint. */
  ghost predicate Successor(stream: Stream, k: Id, m: Id, e: Id, p: Id) {
    m in stream.entries && stream.entries[m].payload.event == e && (m == k || (k < m && Addressed(stream, m, e, p)))
  }

  ghost predicate HandlerLoyal(x: Handler, stream: Stream, k: Id, e: Id, p: Id) {
    !x.phase.Starting? && Successor(stream, k, x.message, e, p) ==> p in x.resolved
  }

  ghost predicate MessageLoyal(s: State, m: Id, e: Id, p: Id) {
    Unacked(s.stream, m) || Accounted(s, e, p, m)
  }

  /** Every handler that looked found the endpoint, and each of these messages is unacknowledged or accounted for. */
  ghost predicate Loyal(s: State, k: Id, e: Id, p: Id) {
    && (forall h | h in s.handlers :: HandlerLoyal(s.handlers[h], s.stream, k, e, p))
    && (forall m | Successor(s.stream, k, m, e, p) :: MessageLoyal(s, m, e, p))
  }

  /** New entries are unread. */
  ghost predicate NewAreUnacked(q: Stream, q': Stream) {
    forall x | x in q'.entries && x !in q.entries :: Unacked(q', x)
  }

  /** The general step: each handler is as before, ends, or found the endpoint if it looked. */
  lemma LoyalStep(s: State, t: State, k: Id, e: Id, p: Id)
    requires Loyal(s, k, e, p) && Traced(s, t) && HandlersOk(s.handlers, s.stream, s.db.deliveries, s.nextId)
    requires forall m | Unacked(s.stream, m) && Successor(s.stream, k, m, e, p) :: MessageLoyal(t, m, e, p)
    requires NewAreUnacked(s.stream, t.stream)
    requires forall h | h in t.handlers ::
               (h in s.handlers && SameFind(s.handlers[h], t.handlers[h])) || HandlerLoyal(t.handlers[h], t.stream, k, e, p)
    ensures Loyal(t, k, e, p)
  {
    forall h | h in t.handlers ensures HandlerLoyal(t.handlers[h], t.stream, k, e, p) {
      if h in s.handlers && SameFind(s.handlers[h], t.handlers[h]) {
        assert HandlerLoyal(s.handlers[h], s.stream, k, e, p) && HandlerOk(s.handlers[h], s.stream, s.db.deliveries, s.nextId);
      }
    }
    hide HandlerOk, Accounted;
    forall m | Successor(t.stream, k, m, e, p) ensures MessageLoyal(t, m, e, p) {
      if m in s.stream.entries {
        assert Successor(s.stream, k, m, e, p);
        if !Unacked(s.stream, m) {
          AccountedKept(s, t, e, p, m);
        }
      }
    }
  }

  /** The handler keeps its message, what it found, and whether it has looked. */
  ghost predicate SameFind(x: Handler, y: Handler) {
    y.message == x.message && y.resolved == x.resolved && (x.phase.Starting? <==> y.phase.Starting?)
  }

  // ---- Steps outside the worker. ----

  lemma OtherStream(c: Config, s: State, step: Step, t: State)
    requires Next(c, s, step, t) && !WorkerNext(c, s, step, t) && IdsBounded(s)
    ensures t.handlers == s.handlers && StreamKept(s.stream, t.stream) && NewAreUnacked(s.stream, t.stream)
  {
    hide ApiNext, PublisherNext, SchedulerNext, WorkerNext;
    if ApiNext(c, s, step, t) {
      ApiFrames(c, s, step, t);
    } else if PublisherNext(c, s, step, t) {
      PublisherFrames(c, s, step, t);
      PublisherStream(c, s, step, t);
    } else {
      SchedulerFrames(c, s, step, t);
      SchedulerStream(c, s, step, t);
    }
  }

  lemma OtherLoyal(c: Config, s: State, step: Step, t: State, k: Id, e: Id, p: Id)
    requires Next(c, s, step, t) && !WorkerNext(c, s, step, t) && Loyal(s, k, e, p) && Traced(s, t) && IdsBounded(s)
    requires HandlersOk(s.handlers, s.stream, s.db.deliveries, s.nextId)
    ensures Loyal(t, k, e, p)
  {
    hide Next, WorkerNext, Loyal, Traced, IdsBounded, HandlersOk, NewAreUnacked;
    OtherStream(c, s, step, t);
    LoyalStep(s, t, k, e, p);
  }

  // ---- The worker. ----

  /** The message's own query finds the endpoint, and so does that of every message addressed to it. */
  ghost predicate Finds(s: State, k: Id, p: Id) {
    k in s.stream.entries && Resolves(s.db, s.stream.entries[k].payload, p)
  }

  lemma ResolveLoyal(s: State, h: Id, endpoints: seq<Id>, k: Id, e: Id, p: Id)
    requires CanResolve(s, h, endpoints) && Finds(s, k, p) && e in s.db.events
    ensures var t := ResolveEffect(s, h, endpoints);
            && h in t.handlers && t.handlers == s.handlers[h := t.handlers[h]] && t.stream == s.stream
            && HandlerLoyal(t.handlers[h], t.stream, k, e, p)
  {
    hide LeftAlone, Targets;
    if Successor(s.stream, k, s.handlers[h].message, e, p) {
      assert Resolves(s.db, HandlerPayload(s, h), p);
    }
  }

  /** A handler that acknowledges has been through its list. */
  lemma AckAccounted(s: State, h: Id, k: Id, e: Id, p: Id, made: nat)
    requires CanAcknowledge(s, h) && Loyal(s, k, e, p) && Successor(s.stream, k, s.handlers[h].message, e, p)
    requires Turned(s, s.handlers[h], p, made) && !Gone(s, e, p)
    ensures Accounted(s, e, p, s.handlers[h].message)
  {
    hide Accounted;
    assert HandlerLoyal(s.handlers[h], s.stream, k, e, p);
  }

  lemma AckLoyal(s: State, h: Id, k: Id, e: Id, p: Id, made: nat)
    requires CanAcknowledge(s, h) && Loyal(s, k, e, p) && Turned(s, s.handlers[h], p, made) && !Gone(s, e, p)
    requires Traced(s, AcknowledgeEffect(s, h)) && HandlersOk(s.handlers, s.stream, s.db.deliveries, s.nextId)
    ensures Loyal(AcknowledgeEffect(s, h), k, e, p)
  {
    var t, m := AcknowledgeEffect(s, h), s.handlers[h].message;
    hide LeftAlone, Targets, HandlersOk, Loyal, Turned, Gone, Accounted;
    if Successor(s.stream, k, m, e, p) {
      AckAccounted(s, h, k, e, p, made);
      AccountedKept(s, t, e, p, m);
    }
    LoyalStep(s, t, k, e, p);
  }

  /** What the steps that neither resolve nor acknowledge do to the handlers and the stream. */
  lemma QuietWorker(c: Config, s: State, step: Step, t: State, k: Id, e: Id, p: Id)
    requires WorkerNext(c, s, step, t) && !step.Resolve? && !step.Acknowledge?
    ensures t.stream.entries == s.stream.entries && StreamKept(s.stream, t.stream)
    ensures forall h | h in t.handlers ::
              (h in s.handlers && SameFind(s.handlers[h], t.handlers[h])) || HandlerLoyal(t.handlers[h], t.stream, k, e, p)
  {
    if step.DeliverNext? {
      DeliverShape(c, s, step.handler);
      DeliverPlan(c, s, step.handler);
      hide DeliverNextEffect;
    }
  }

  lemma WorkerLoyal(c: Config, s: State, step: Step, t: State, k: Id, e: Id, p: Id, made: nat)
    requires WorkerNext(c, s, step, t) && Loyal(s, k, e, p) && Traced(s, t) && Finds(s, k, p) && e in s.db.events
    requires HandlersOk(s.handlers, s.stream, s.db.deliveries, s.nextId)
    requires step.Acknowledge? && step.handler in s.handlers ==> Turned(s, s.handlers[step.handler], p, made)
    ensures Loyal(t, k, e, p)
  {
    if step.Resolve? {
      hide ResolveEffect, HandlersOk, Loyal, Traced, HandlerLoyal, CanResolve;
      ResolveLoyal(s, step.handler, step.endpoints, k, e, p);
      LoyalStep(s, t, k, e, p);
    } else if step.Acknowledge? {
      hide AcknowledgeEffect, HandlersOk, Loyal, Traced, Turned;
      AckLoyal(s, step.handler, k, e, p, made);
    } else {
      hide WorkerNext, HandlersOk, Loyal, Traced, HandlerLoyal, SameFind;
      QuietWorker(c, s, step, t, k, e, p);
      LoyalStep(s, t, k, e, p);
    }
  }

  // ---- Whole runs. ----

  /** Before the message is published there is nothing as young. */
  lemma NothingAsYoung(s: State, k: Id, e: Id, p: Id)
    requires IdsBounded(s) && HandlersOk(s.handlers, s.stream, s.db.deliveries, s.nextId) && s.nextId <= k
    ensures Loyal(s, k, e, p)
  {
    forall h | h in s.handlers ensures HandlerLoyal(s.handlers[h], s.stream, k, e, p) {
      assert HandlerOk(s.handlers[h], s.stream, s.db.deliveries, s.nextId);
    }
  }

  /** The message's own query would have found the endpoint in every state since the message was published. */
  ghost predicate FoundSince(r: Run, i: nat, m: Id, p: Id) {
    i < |r.states| && forall j | 0 <= j <= i && m in r.states[j].stream.entries :: Finds(r.states[j], m, p)
  }

  lemma EventWasThere(s: State, t: State, m: Id)
    requires Traced(s, t) && EventsKnown(s) && m in s.stream.entries && EventOf(s, m) in t.db.events
    ensures EventOf(s, m) in s.db.events
  {
  }

  lemma {:induction false} AlwaysLoyal(c: Config, r: Run, i: nat, m: Id, p: Id)
    requires IsHistory(c, r) && FoundSince(r, i, m, p) && m in r.states[i].stream.entries
    requires EventOf(r.states[i], m) in r.states[i].db.events
    ensures Loyal(r.states[i], m, EventOf(r.states[i], m), p)
  {
    hide Next, Sound, Scoped, Safe, Loyal, Finds, IdsBounded, HandlersOk, AllTurned, Turned;
    var s, step, t := r.states[i - 1], r.steps[i - 1], r.states[i];
    AlwaysSound(c, r, i - 1);
    BoundsOf(s);
    AlwaysScoped(c, r, i - 1);
    AlwaysSafe(c, r, i - 1);
    SafeParts(s);
    KnownEventsOf(s);
    StepTraced(c, s, step, t);
    if m in s.stream.entries {
      EventWasThere(s, t, m);
      AlwaysLoyal(c, r, i - 1, m, p);
      if WorkerNext(c, s, step, t) {
        var made := LastTurns(c, r, i - 1, p);
        WorkerLoyal(c, s, step, t, m, EventOf(s, m), p, made);
      } else {
        OtherLoyal(c, s, step, t, m, EventOf(s, m), p);
      }
    } else {
      PublishedAnew(c, s, step, t, m);
      NothingAsYoung(s, m, EventOf(t, m), p);
      OtherLoyal(c, s, step, t, m, EventOf(t, m), p);
    }
  }

  lemma LastTurns(c: Config, r: Run, n: nat, p: Id) returns (made: nat)
    requires IsHistory(c, r) && n < |r.steps|
    ensures var s, step := r.states[n], r.steps[n];
            step.Acknowledge? && step.handler in s.handlers ==> Turned(s, s.handlers[step.handler], p, made)
  {
    hide Next, Turned;
    made := 0;
    if r.steps[n].Acknowledge? && r.steps[n].handler in r.states[n].handlers {
      var m := r.states[n].handlers[r.steps[n].handler].message;
      AlwaysTurned(c, r, n, m, p);
      made := RowsMade(r, m, p, n);
    }
  }

  // ---- What it means for the work. ----

  /** An unacknowledged message younger than `k` that is addressed to the endpoint. */
  ghost predicate RetryUnderway(stream: Stream, m: Id, e: Id, p: Id, k: Id) {
    k < m && Unacked(stream, m) && Addressed(stream, m, e, p)
  }

  /**
   * Since `k` there is a delivery of the pair that is delivered, dead-lettered or waiting for its retry, an unacknowledged
   * message addressed to the endpoint, or a delivery that retention removed.
   */
  ghost predicate Served(s: State, e: Id, p: Id, k: Id) {
    || (exists d :: RowCovers(s.db.deliveries, d, e, p, k))
    || (exists m :: RetryUnderway(s.stream, m, e, p, k))
    || (exists d :: PurgeCovers(s.log, d, e, p, k))
  }

  lemma ServedEarlier(s: State, e: Id, p: Id, m: Id, k: Id)
    requires Served(s, e, p, m) && k < m
    ensures Served(s, e, p, k)
  {
    if d :| RowCovers(s.db.deliveries, d, e, p, m) {
      assert RowCovers(s.db.deliveries, d, e, p, k);
    } else if x :| RetryUnderway(s.stream, x, e, p, m) {
      assert RetryUnderway(s.stream, x, e, p, k);
    } else {
      var d :| PurgeCovers(s.log, d, e, p, m);
      assert PurgeCovers(s.log, d, e, p, k);
    }
  }

  /** A row that was queued again has its message, which is unacknowledged or accounted for in turn. */
  lemma {:induction false} RetriesLead(s: State, k: Id, e: Id, p: Id, m: Id)
    requires Loyal(s, k, e, p) && QueuedHaveMessages(s.db.deliveries, s.stream) && IdsBounded(s) && Successor(s.stream, k, m, e, p)
    ensures Unacked(s.stream, m) || Served(s, e, p, m)
    decreases s.nextId - m
  {
    if !Unacked(s.stream, m) {
      assert MessageLoyal(s, m, e, p);
      if d :| AccountedBy(s.db.deliveries, d, e, p, m) {
        if s.db.deliveries[d].status == Queued {
          assert QueuedRetried(s.stream, d, s.db.deliveries[d]);
          var x :| RetriedBy(s.stream, d, s.db.deliveries[d], x);
          hide Served, Loyal, QueuedHaveMessages;
          RetriesLead(s, k, e, p, x);
          if Unacked(s.stream, x) {
            UnderwayServes(s, e, p, m, x);
          } else {
            ServedEarlier(s, e, p, x, m);
          }
        } else {
          assert RowCovers(s.db.deliveries, d, e, p, m);
        }
      }
    }
  }

  lemma UnderwayServes(s: State, e: Id, p: Id, k: Id, m: Id)
    requires RetryUnderway(s.stream, m, e, p, k)
    ensures Served(s, e, p, k)
  {
  }

  /**
   * A message, and an endpoint that its query would have found in every state since it was published: for a targeted
   * message the target while it is active, subscribed or not, and otherwise an active subscriber of the tenant. As long as
   * the event is there, the message is still unacknowledged, or the pair has a younger delivery that is delivered,
   * dead-lettered or waiting for its retry, or a younger unacknowledged message addressed to the endpoint; unless
   * retention removed such a delivery. Nothing that other messages miss is an excuse.
   */
  lemma StayingEndpointServed(c: Config, r: Run, i: nat, m: Id, p: Id)
    requires IsHistory(c, r) && FoundSince(r, i, m, p) && m in r.states[i].stream.entries
    requires EventOf(r.states[i], m) in r.states[i].db.events
    ensures Unacked(r.states[i].stream, m) || Served(r.states[i], EventOf(r.states[i], m), p, m)
  {
    hide Next, Sound, Safe, Loyal, Finds, IdsBounded, HandlersOk, Served;
    AlwaysLoyal(c, r, i, m, p);
    AlwaysSound(c, r, i);
    BoundsOf(r.states[i]);
    AlwaysSafe(c, r, i);
    QueuedOf(r.states[i]);
    RetriesLead(r.states[i], m, EventOf(r.states[i], m), p, m);
  }

  lemma QueuedOf(s: State)
    requires Safe(s)
    ensures QueuedHaveMessages(s.db.deliveries, s.stream)
  {
  }

  /** The query of an untargeted message finds whoever wants its event. */
  lemma WantedIsFound(c: Config, r: Run, j: nat, m: Id, e: Id, p: Id)
    requires IsHistory(c, r) && j < |r.states| && Wants(r.states[j], e, p) && Meant(r.states[j].stream, m, e, p)
    ensures Finds(r.states[j], m, p)
  {
    hide Next;
    AlwaysScoped(c, r, j);
    assert PayloadOk(r.states[j].log, r.states[j].stream.entries[m].payload);
  }

  lemma WantedSinceIsFound(c: Config, r: Run, i: nat, m: Id, e: Id, p: Id)
    requires IsHistory(c, r) && i < |r.states| && Meant(r.states[i].stream, m, e, p)
    requires forall j | 0 <= j <= i :: Wants(r.states[j], e, p)
    ensures FoundSince(r, i, m, p)
  {
    hide Next, Wants, Finds;
    forall j | 0 <= j <= i && m in r.states[j].stream.entries ensures Finds(r.states[j], m, p) {
      MessageStays(c, r, j, i, m);
      WantedIsFound(c, r, j, m, e, p);
    }
  }

  /** The outbox row is waiting with attempts to spare, was given up after ten attempts, or its message does its work. */
  ghost predicate Underway(s: State, o: Id, e: Id, p: Id) {
    && o in s.db.outbox && s.db.outbox[o].event == e && s.db.outbox[o].payload.target.None? && AttemptsOk(s.db.outbox[o])
    && (s.db.outbox[o].status == Published ==>
          exists m :: && m in s.stream.entries && s.stream.entries[m] == Message(FromOutbox(o), s.db.outbox[o].payload)
                      && (Unacked(s.stream, m) || Served(s, e, p, m)))
  }

  /**
   * From commit to outcome: in every state of every run, an accepted event that is still there and an endpoint that
   * has stayed an active subscriber since are connected by an outbox row still to be published or given up after ten
   * attempts, by an unacknowledged message, by a scheduled retry, or by a recorded outcome.
   */
  lemma AcceptedWorkIsUnderway(c: Config, r: Run, i: nat, e: Id, p: Id)
    requires IsHistory(c, r) && i < |r.states| && e in r.states[i].db.events
    requires forall j | 0 <= j <= i :: Wants(r.states[j], e, p)
    ensures exists o :: Underway(r.states[i], o, e, p)
  {
    hide Next, Wants, Served;
    var s := r.states[i];
    AcceptedEventsKeepTheirRow(c, r, i, e);
    var o :| && o in s.db.outbox && s.db.outbox[o].event == e && s.db.outbox[o].payload.target.None?
             && AttemptsOk(s.db.outbox[o])
             && (s.db.outbox[o].status == Published ==>
                   exists m :: && m in s.stream.entries && s.stream.entries[m].source == FromOutbox(o)
                               && s.stream.entries[m].payload == s.db.outbox[o].payload);
    if s.db.outbox[o].status == Published {
      var m :| && m in s.stream.entries && s.stream.entries[m].source == FromOutbox(o)
               && s.stream.entries[m].payload == s.db.outbox[o].payload;
      AlwaysScoped(c, r, i);
      assert s.db.outbox[o].payload.event == e;
      WantedSinceIsFound(c, r, i, m, e, p);
      StayingEndpointServed(c, r, i, m, p);
    }
    assert Underway(s, o, e, p);
  }
}
