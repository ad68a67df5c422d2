/** What delivery rows mean, that they only move forward, and what a completed event guarantees. */
module Deliveries {
  import opened Common
  import opened Tables
  import opened Broker
  import opened Pipeline
  import opened Frames
  import opened Integrity
  import Classify
  import Retry

  // ---- What a row says. ----

  /** A recorded answer that no retry will change: a redirect, or a client error that is not one of the four retryable. */
  predicate PermanentlyRefused(row: Delivery) {
    row.httpStatus.Some? && 300 <= row.httpStatus.value <= 499 && row.httpStatus.value !in {408, 409, 425, 429}
  }

  ghost predicate RowOk(c: Config, row: Delivery, now: Time) {
    && row.attempt == 1
    && (row.status == Delivering ==> row.httpStatus.None? && row.error == NoError)
    && (row.status == Delivered ==> row.httpStatus.Some? && 200 <= row.httpStatus.value <= 299 && row.error == NoError)
    && (row.status == Retrying ==> row.nextRetryAt.Some?)
    && (row.status == Queued ==> row.nextRetryAt.Some? && row.nextRetryAt.value <= now)
    && (row.status == Dlq ==>
          || row.error == UrlRejected
          || (row.error.Unsuccessful? && (PermanentlyRefused(row) || row.attempt >= c.policy.maxAttempts)))
  }

  ghost predicate RowsMeanIt(c: Config, deliveries: map<Id, Delivery>, now: Time) {
    forall d | d in deliveries :: RowOk(c, deliveries[d], now)
  }

  ghost predicate SavingRowsMeanIt(c: Config, handlers: map<Id, Handler>, now: Time) {
    forall h | h in handlers && handlers[h].phase.Saving? :: RowOk(c, handlers[h].phase.row, now)
  }

  /** The rows an open requeue pass holds were due when it selected them. */
  ghost predicate HeldRowsDue(requeues: map<Id, RequeueTxn>, deliveries: map<Id, Delivery>, now: Time) {
    forall t, d | t in requeues && (d in requeues[t].todo || d in requeues[t].published) ::
      d in deliveries && Due(deliveries[d], now)
  }

  ghost predicate Truthful(c: Config, s: State) {
    && RowsMeanIt(c, s.db.deliveries, s.now)
    && SavingRowsMeanIt(c, s.handlers, s.now)
    && HeldRowsDue(s.requeues, s.db.deliveries, s.now)
  }

  lemma TruthfulInit(c: Config)
    ensures Truthful(c, Init)
  {
  }

  lemma TickTruthful(c: Config, s: State, delay: Time)
    requires Truthful(c, s) && delay >= 0.0
    ensures Truthful(c, s.(now := s.now + delay))
  {
  }

  lemma RequeueOpenTruthful(c: Config, s: State, rows: set<Id>)
    requires Truthful(c, s) && CanRequeueOpen(s, rows)
    ensures Truthful(c, RequeueOpenEffect(s, rows))
  {
  }

  lemma RequeueRowTruthful(c: Config, s: State, t: Id, d: Id)
    requires Truthful(c, s) && CanRequeueRow(s, t, d)
    ensures Truthful(c, RequeueRowEffect(s, t, d))
  {
    hide RowsMeanIt, SavingRowsMeanIt;
  }

  lemma RequeueAbortTruthful(c: Config, s: State, t: Id, lost: Option<Id>)
    requires Truthful(c, s) && CanRequeueAbort(s, t, lost)
    ensures Truthful(c, RequeueAbortEffect(s, t, lost))
  {
    hide RowsMeanIt, SavingRowsMeanIt;
  }

  lemma RequeueCommitTruthful(c: Config, s: State, t: Id)
    requires Truthful(c, s) && RequeueLocks(s.requeues, s.db.deliveries) && CanRequeueCommit(s, t)
    ensures Truthful(c, RequeueCommitEffect(s, t))
  {
    hide SavingRowsMeanIt;
    var s' := RequeueCommitEffect(s, t);
    forall u, d | u in s'.requeues && (d in s'.requeues[u].todo || d in s'.requeues[u].published)
      ensures d in s'.db.deliveries && Due(s'.db.deliveries[d], s'.now)
    {
      assert ApartRetries(s.requeues[u], s.requeues[t]);
      assert d in s.requeues[u].todo + s.requeues[u].published.Keys;
    }
  }

  lemma AttemptedMeansIt(c: Config, row: Delivery, reply: Reply, draw: real, now: Time)
    requires RowOk(c, row, now) && row.status == Delivering
    ensures RowOk(c, Attempted(c, row, reply, draw, now), now)
  {
    Classify.OutcomeByStatus(StatusOf(reply), reply.TimedOut?, reply.Unreachable?);
  }

  lemma RespondTruthful(c: Config, s: State, h: Id, reply: Reply, draw: real)
    requires Truthful(c, s) && HandlersOk(s.handlers, s.stream, s.db.deliveries, s.nextId) && CanRespond(s, h)
    ensures Truthful(c, RespondEffect(c, s, h, reply, draw))
  {
    assert HandlerOk(s.handlers[h], s.stream, s.db.deliveries, s.nextId);
    hide HandlersOk;
    AttemptedMeansIt(c, s.db.deliveries[s.handlers[h].phase.delivery], reply, draw, s.now);
    hide RowsMeanIt, HeldRowsDue, RowOk, Attempted;
  }

  lemma DeliverNextTruthful(c: Config, s: State, h: Id)
    requires Truthful(c, s) && IdsBounded(s) && CanDeliverNext(s, h)
    ensures Truthful(c, DeliverNextEffect(c, s, h))
  {
  }

  lemma SaveDeliveryTruthful(c: Config, s: State, h: Id)
    requires Truthful(c, s) && HandlersOk(s.handlers, s.stream, s.db.deliveries, s.nextId) && CanSaveDelivery(s, h)
    ensures Truthful(c, SaveDeliveryEffect(s, h))
  {
    assert HandlerOk(s.handlers[h], s.stream, s.db.deliveries, s.nextId);
    hide HandlersOk;
  }

  lemma RetentionTruthful(c: Config, s: State)
    requires Truthful(c, s) && CanSweep(c, s)
    ensures Truthful(c, RetentionEffect(c, s))
  {
    hide SavingRowsMeanIt;
    var s' := RetentionEffect(c, s);
    forall t, d | t in s.requeues && (d in s.requeues[t].todo || d in s.requeues[t].published)
      ensures d in s'.db.deliveries && Due(s'.db.deliveries[d], s.now)
    {
      assert RetryLocked(s.requeues, d);
    }
  }

  /** Steps that change no row, add no saved row and hold no further row for a requeue. */
  lemma QuietTruthful(c: Config, s: State, t: State)
    requires Truthful(c, s) && t.now == s.now && t.db.deliveries == s.db.deliveries && t.requeues == s.requeues
    requires forall h | h in t.handlers && t.handlers[h].phase.Saving? :: h in s.handlers && t.handlers[h] == s.handlers[h]
    ensures Truthful(c, t)
  {
  }

  predicate TouchesRows(step: Step) {
    || step.Tick? || step.RequeueOpen? || step.RequeueRow? || step.RequeueCommit? || step.RequeueAbort?
    || step.DeliverNext? || step.Respond? || step.SaveDelivery? || step.Retention?
  }

  lemma IdleWorkers(c: Config, s: State, step: Step, t: State)
    requires WorkerNext(c, s, step, t) && !TouchesRows(step)
    ensures t.db.deliveries == s.db.deliveries
  {
  }

  lemma RowsUntouched(c: Config, s: State, step: Step, t: State)
    requires Next(c, s, step, t) && !TouchesRows(step)
    ensures t.now == s.now && t.db.deliveries == s.db.deliveries && t.requeues == s.requeues
  {
    if SchedulerNext(c, s, step, t) {
      return;
    }
    hide ApiNext, PublisherNext, SchedulerNext, WorkerNext;
    if ApiNext(c, s, step, t) {
      ApiFrames(c, s, step, t);
    } else if PublisherNext(c, s, step, t) {
      PublisherFrames(c, s, step, t);
    } else if SchedulerNext(c, s, step, t) {
    } else {
      WorkerFrames(c, s, step, t);
      IdleWorkers(c, s, step, t);
    }
  }

  lemma TouchingTruthful(c: Config, s: State, step: Step, t: State)
    requires Sound(s) && Truthful(c, s) && Next(c, s, step, t) && TouchesRows(step)
    ensures Truthful(c, t)
  {
    hide Truthful, HandlersOk, RequeueLocks, PublishLocks, Refs, IdsBounded, WellFormed;
    hide RequeueOpenEffect, RequeueRowEffect, RequeueCommitEffect, RequeueAbortEffect, DeliverNextEffect;
    hide RespondEffect, SaveDeliveryEffect, RetentionEffect;
    match step
    case Tick(delay) => TickTruthful(c, s, delay);
    case RequeueOpen(rows) => RequeueOpenTruthful(c, s, rows);
    case RequeueRow(x, d) => RequeueRowTruthful(c, s, x, d);
    case RequeueCommit(x) => RequeueCommitTruthful(c, s, x);
    case RequeueAbort(x, lost) => RequeueAbortTruthful(c, s, x, lost);
    case DeliverNext(h) => DeliverNextTruthful(c, s, h);
    case Respond(h, reply, draw) => RespondTruthful(c, s, h, reply, draw);
    case SaveDelivery(h) => SaveDeliveryTruthful(c, s, h);
    case Retention => RetentionTruthful(c, s);
    case _ =>
  }

  lemma TruthfulStep(c: Config, s: State, step: Step, t: State)
    requires Sound(s) && Truthful(c, s) && Next(c, s, step, t)
    ensures Truthful(c, t)
  {
    hide Next, Truthful, Sound;
    if TouchesRows(step) {
      TouchingTruthful(c, s, step, t);
    } else {
      RowsUntouched(c, s, step, t);
      NoNewSaving(c, s, step, t);
      QuietTruthful(c, s, t);
    }
  }

  lemma WorkerSaving(c: Config, s: State, step: Step, t: State)
    requires WorkerNext(c, s, step, t) && !step.Respond?
    ensures forall h | h in t.handlers && t.handlers[h].phase.Saving? :: h in s.handlers && t.handlers[h] == s.handlers[h]
  {
  }

  lemma NoNewSaving(c: Config, s: State, step: Step, t: State)
    requires Next(c, s, step, t) && !step.Respond?
    ensures forall h | h in t.handlers && t.handlers[h].phase.Saving? :: h in s.handlers && t.handlers[h] == s.handlers[h]
  {
    hide ApiNext, PublisherNext, SchedulerNext, WorkerNext;
    if ApiNext(c, s, step, t) {
      ApiFrames(c, s, step, t);
    } else if PublisherNext(c, s, step, t) {
      PublisherFrames(c, s, step, t);
    } else if SchedulerNext(c, s, step, t) {
      SchedulerFrames(c, s, step, t);
    } else {
      WorkerSaving(c, s, step, t);
    }
  }

  /**
   * What a delivery row says is true, in every state of every run: a delivered row has a recorded 2xx, a retrying row
   * a retry time, a queued row one that has passed, and a dead-lettered row a refused URL, a permanent refusal or an
   * exhausted policy.
   */
  lemma {:induction false} RowsAlwaysTruthful(c: Config, r: Run, i: nat)
    requires IsHistory(c, r) && i < |r.states|
    ensures Truthful(c, r.states[i])
  {
    hide Truthful, Sound, Next;
    if i == 0 {
      TruthfulInit(c);
    } else {
      RowsAlwaysTruthful(c, r, i - 1);
      AlwaysSound(c, r, i - 1);
      TruthfulStep(c, r.states[i - 1], r.steps[i - 1], r.states[i]);
    }
  }

  /**
   * The composed pipeline starts every attempt at number one. So with two or more attempts allowed no retryable failure
   * is ever dead-lettered, and with one or none every retryable failure is.
   */
  lemma RetryableFailuresDeadLettered(c: Config, r: Run, i: nat, h: Id, reply: Reply, draw: real)
    requires IsHistory(c, r) && i < |r.states| && CanRespond(r.states[i], h)
    requires !reply.Rejected?
             && Classify.ClassifyResponse(StatusOf(reply), reply.TimedOut?, reply.Unreachable?).outcome == Classify.Retry
    ensures RespondEffect(c, r.states[i], h, reply, draw).handlers[h].phase.row.status == Dlq
       <==> c.policy.maxAttempts <= 1
  {
    hide Next, SavingRowsMeanIt, HeldRowsDue;
    RowsAlwaysTruthful(c, r, i);
    var s := r.states[i];
    assert RowOk(c, s.db.deliveries[s.handlers[h].phase.delivery], s.now);
    Retry.DelayIsExact(c.policy, 1, draw);
  }

  // ---- Rows only move forward. ----

  /** The later value of a row: the outcome of its attempt may be filled in, then a due retry may be queued. */
  ghost predicate Follows(a: Delivery, b: Delivery) {
    && SameAttempt(a, b)
    && match a.status
       case Delivering => true
       case Retrying => b == a || b == a.(status := Queued)
       case _ => b == a
  }

  ghost predicate NewRowOk(row: Delivery) { row.status == Delivering || row.status == Retrying }

  ghost predicate ForwardOnly(before: map<Id, Delivery>, after: map<Id, Delivery>) {
    && (forall d | d in before && d in after :: Follows(before[d], after[d]))
    && (forall d | d in after && d !in before :: NewRowOk(after[d]))
  }

  lemma RequeueForward(s: State, t: Id)
    requires RequeueLocks(s.requeues, s.db.deliveries) && t in s.requeues
    ensures ForwardOnly(s.db.deliveries, RequeueCommitEffect(s, t).db.deliveries)
  {
    assert RequeueTxnOk(s.requeues[t], s.db.deliveries);
  }

  lemma SaveForward(s: State, h: Id)
    requires HandlersOk(s.handlers, s.stream, s.db.deliveries, s.nextId) && CanSaveDelivery(s, h)
    ensures ForwardOnly(s.db.deliveries, SaveDeliveryEffect(s, h).db.deliveries)
  {
    assert HandlerOk(s.handlers[h], s.stream, s.db.deliveries, s.nextId);
  }

  lemma DeliverForward(c: Config, s: State, h: Id)
    requires IdsBounded(s) && CanDeliverNext(s, h)
    ensures ForwardOnly(s.db.deliveries, DeliverNextEffect(c, s, h).db.deliveries)
  {
  }

  lemma SweepForward(c: Config, s: State)
    ensures ForwardOnly(s.db.deliveries, RetentionEffect(c, s).db.deliveries)
  {
  }

  lemma SameForward(deliveries: map<Id, Delivery>)
    ensures ForwardOnly(deliveries, deliveries)
  {
  }

  lemma SchedulerForward(c: Config, s: State, step: Step, t: State)
    requires Sound(s) && SchedulerNext(c, s, step, t)
    ensures ForwardOnly(s.db.deliveries, t.db.deliveries)
  {
    hide ForwardOnly, HandlersOk, RequeueLocks, PublishLocks, Refs, IdsBounded, WellFormed;
    hide RequeueCommitEffect, RetentionEffect;
    match step
    case RequeueCommit(x) => RequeueForward(s, x);
    case Retention => SweepForward(c, s);
    case _ => SameForward(s.db.deliveries);
  }

  lemma WorkerForward(c: Config, s: State, step: Step, t: State)
    requires Sound(s) && WorkerNext(c, s, step, t)
    ensures ForwardOnly(s.db.deliveries, t.db.deliveries)
  {
    hide ForwardOnly, HandlersOk, RequeueLocks, PublishLocks, Refs, IdsBounded, WellFormed;
    hide DeliverNextEffect, SaveDeliveryEffect;
    match step
    case DeliverNext(h) => DeliverForward(c, s, h);
    case SaveDelivery(h) => SaveForward(s, h);
    case _ => SameForward(s.db.deliveries);
  }

  lemma ForwardStep(c: Config, s: State, step: Step, t: State)
    requires Sound(s) && Next(c, s, step, t)
    ensures ForwardOnly(s.db.deliveries, t.db.deliveries)
  {
    hide ApiNext, PublisherNext, SchedulerNext, WorkerNext, Sound, ForwardOnly;
    if SchedulerNext(c, s, step, t) {
      SchedulerForward(c, s, step, t);
    } else if WorkerNext(c, s, step, t) {
      WorkerForward(c, s, step, t);
    } else {
      if ApiNext(c, s, step, t) { ApiFrames(c, s, step, t); } else { PublisherFrames(c, s, step, t); }
      SameForward(s.db.deliveries);
    }
  }

  lemma {:induction false} CounterMonotone(c: Config, r: Run, i: nat, j: nat)
    requires IsRun(c, r) && i <= j < |r.states|
    ensures r.states[i].nextId <= r.states[j].nextId
  {
    hide Next;
    if i < j {
      CounterMonotone(c, r, i, j - 1);
      CounterGrows(c, r.states[j - 1], r.steps[j - 1], r.states[j]);
    }
  }

  /**
   * Delivery rows only move forward: over any stretch of any run a row keeps its event, endpoint, attempt number and
   * creation time; one that is delivered, dead-lettered or queued never changes again, one that is retrying can only
   * become queued with everything else as it was.
   */
  lemma {:induction false} RowsMoveForward(c: Config, r: Run, i: nat, j: nat, d: Id)
    requires IsHistory(c, r) && i <= j < |r.states|
    requires d in r.states[i].db.deliveries && d in r.states[j].db.deliveries
    ensures Follows(r.states[i].db.deliveries[d], r.states[j].db.deliveries[d])
  {
    hide Next, Sound;
    if i < j {
      AlwaysSound(c, r, i);
      AlwaysSound(c, r, j - 1);
      CounterMonotone(c, r, i, j - 1);
      BelowCounter(r.states[i], d);
      NewDeliveryRows(c, r.states[j - 1], r.steps[j - 1], r.states[j], d);
      RowsMoveForward(c, r, i, j - 1, d);
      ForwardStep(c, r.states[j - 1], r.steps[j - 1], r.states[j]);
    }
  }

  lemma BelowCounter(s: State, d: Id)
    requires Sound(s) && d in s.db.deliveries
    ensures d < s.nextId
  {
  }

  // ---- Completed events. ----

  /** The row was removed, or it has reached its final status. */
  ghost predicate Settled(deliveries: map<Id, Delivery>, d: Id) {
    d in deliveries ==> Terminal(deliveries[d].status)
  }

  ghost predicate CompletionOk(k: Completion, deliveries: map<Id, Delivery>, nextId: Id) {
    k.rows != {} && forall d | d in k.rows :: d < nextId && Settled(deliveries, d)
  }

  ghost predicate CompletionsOk(completions: seq<Completion>, deliveries: map<Id, Delivery>, nextId: Id) {
    forall i | 0 <= i < |completions| :: CompletionOk(completions[i], deliveries, nextId)
  }

  /** A handler about to complete its event has seen only settled rows besides its own, which is a success. */
  ghost predicate SeenOk(x: Handler, deliveries: map<Id, Delivery>, nextId: Id) {
    x.phase.Saving? && x.phase.seen.Some? ==>
      && x.phase.row.status == Delivered
      && x.phase.delivery in x.phase.seen.value
      && forall d | d in x.phase.seen.value :: d < nextId && (d == x.phase.delivery || Settled(deliveries, d))
  }

  ghost predicate HandlersSeenOk(handlers: map<Id, Handler>, deliveries: map<Id, Delivery>, nextId: Id) {
    forall h | h in handlers :: SeenOk(handlers[h], deliveries, nextId)
  }

  ghost predicate HasCompletion(completions: seq<Completion>, e: Id) {
    exists i :: 0 <= i < |completions| && completions[i].event == e
  }

  ghost predicate CompletedRecorded(events: map<Id, Event>, completions: seq<Completion>) {
    forall e | e in events && events[e].status == Completed :: HasCompletion(completions, e)
  }

  ghost predicate Conclusive(s: State) {
    && CompletionsOk(s.log.completions, s.db.deliveries, s.nextId)
    && HandlersSeenOk(s.handlers, s.db.deliveries, s.nextId)
    && CompletedRecorded(s.db.events, s.log.completions)
  }

  lemma ConclusiveInit()
    ensures Conclusive(Init)
  {
  }

  /** Rows that existed only settle further. */
  ghost predicate StaySettled(before: map<Id, Delivery>, after: map<Id, Delivery>, nextId: Id) {
    forall d: Id | d < nextId && Settled(before, d) :: Settled(after, d)
  }

  lemma SettledForward(before: map<Id, Delivery>, after: map<Id, Delivery>, nextId: Id)
    requires ForwardOnly(before, after)
    requires forall d | d in after && d !in before :: d >= nextId
    ensures StaySettled(before, after, nextId)
  {
    forall d: Id | d < nextId && Settled(before, d) ensures Settled(after, d) {
      if d in after {
        assert Follows(before[d], after[d]);
      }
    }
  }

  lemma ConclusiveFrame(s: State, after: map<Id, Delivery>, nextId: Id)
    requires CompletionsOk(s.log.completions, s.db.deliveries, s.nextId)
    requires HandlersSeenOk(s.handlers, s.db.deliveries, s.nextId)
    requires s.nextId <= nextId && StaySettled(s.db.deliveries, after, s.nextId)
    ensures CompletionsOk(s.log.completions, after, nextId) && HandlersSeenOk(s.handlers, after, nextId)
  {
    forall i | 0 <= i < |s.log.completions| ensures CompletionOk(s.log.completions[i], after, nextId) {
      assert CompletionOk(s.log.completions[i], s.db.deliveries, s.nextId);
    }
    forall h | h in s.handlers ensures SeenOk(s.handlers[h], after, nextId) {
      assert SeenOk(s.handlers[h], s.db.deliveries, s.nextId);
    }
  }

  lemma RespondSeen(c: Config, s: State, h: Id, reply: Reply, draw: real)
    requires IdsBounded(s) && CanRespond(s, h)
    ensures SeenOk(RespondEffect(c, s, h, reply, draw).handlers[h], s.db.deliveries, s.nextId)
  {
    var x := RespondEffect(c, s, h, reply, draw).handlers[h];
    if x.phase.seen.Some? {
      forall d | d in x.phase.seen.value && d != x.phase.delivery ensures Settled(s.db.deliveries, d) {
        assert d in s.db.deliveries[x.phase.delivery := x.phase.row];
      }
    }
  }

  lemma RespondConclusive(c: Config, s: State, h: Id, reply: Reply, draw: real)
    requires Conclusive(s) && IdsBounded(s) && CanRespond(s, h)
    ensures Conclusive(RespondEffect(c, s, h, reply, draw))
  {
    RespondSeen(c, s, h, reply, draw);
    hide SeenOk, CompletionsOk, CompletedRecorded, IdsBounded;
  }

  lemma SaveConclusive(s: State, h: Id)
    requires Conclusive(s) && CanSaveDelivery(s, h)
    requires HandlersOk(s.handlers, s.stream, s.db.deliveries, s.nextId)
    ensures Conclusive(SaveDeliveryEffect(s, h))
  {
    var t := SaveDeliveryEffect(s, h);
    var phase := s.handlers[h].phase;
    assert SeenOk(s.handlers[h], s.db.deliveries, s.nextId);
    SaveForward(s, h);
    SettledForward(s.db.deliveries, t.db.deliveries, s.nextId);
    ConclusiveFrame(s, t.db.deliveries, s.nextId);
    assert HandlersSeenOk(t.handlers, t.db.deliveries, t.nextId);
    hide HandlersOk, HandlersSeenOk, ForwardOnly;
    if phase.seen.Some? {
      var k := Completion(phase.row.event, phase.seen.value);
      assert CompletionOk(k, t.db.deliveries, s.nextId);
      AppendCompletion(s, t, k);
    }
  }

  lemma AppendCompletion(s: State, t: State, k: Completion)
    requires CompletionsOk(s.log.completions, t.db.deliveries, t.nextId) && CompletionOk(k, t.db.deliveries, t.nextId)
    requires CompletedRecorded(s.db.events, s.log.completions)
    requires t.log.completions == s.log.completions + [k] && t.db.events == Marked(s.db.events, {k.event}, Completed)
    ensures CompletionsOk(t.log.completions, t.db.deliveries, t.nextId)
    ensures CompletedRecorded(t.db.events, t.log.completions)
  {
    var n := |s.log.completions|;
    forall e | e in t.db.events && t.db.events[e].status == Completed ensures HasCompletion(t.log.completions, e) {
      if e == k.event {
        assert t.log.completions[n].event == e;
      } else {
        assert HasCompletion(s.log.completions, e);
        var i :| 0 <= i < n && s.log.completions[i].event == e;
        assert t.log.completions[i].event == e;
      }
    }
  }

  /** Every other step: rows stay settled, no completion is recorded and no event becomes completed. */
  lemma OtherConclusive(s: State, t: State)
    requires Conclusive(s) && s.nextId <= t.nextId && t.log.completions == s.log.completions
    requires StaySettled(s.db.deliveries, t.db.deliveries, s.nextId)
    requires forall h | h in t.handlers && t.handlers[h].phase.Saving? :: h in s.handlers && t.handlers[h] == s.handlers[h]
    requires forall e | e in t.db.events && t.db.events[e].status == Completed ::
               e in s.db.events && s.db.events[e].status == Completed
    ensures Conclusive(t)
  {
    ConclusiveFrame(s, t.db.deliveries, t.nextId);
  }

  lemma NoNewCompletions(c: Config, s: State, step: Step, t: State)
    requires Next(c, s, step, t) && !step.SaveDelivery?
    ensures t.log.completions == s.log.completions
  {
    hide ApiNext, PublisherNext, SchedulerNext, WorkerNext;
    if ApiNext(c, s, step, t) {
      ApiFrames(c, s, step, t);
    } else if PublisherNext(c, s, step, t) {
      PublisherFrames(c, s, step, t);
    } else if SchedulerNext(c, s, step, t) {
      SchedulerFrames(c, s, step, t);
    } else {
      WorkerFrames(c, s, step, t);
    }
  }

  lemma ApiCompletes(c: Config, s: State, step: Step, t: State)
    requires ApiNext(c, s, step, t)
    ensures forall e | e in t.db.events && t.db.events[e].status == Completed ::
              e in s.db.events && s.db.events[e].status == Completed
  {
  }

  lemma PublisherCompletes(c: Config, s: State, step: Step, t: State)
    requires PublisherNext(c, s, step, t)
    ensures forall e | e in t.db.events && t.db.events[e].status == Completed ::
              e in s.db.events && s.db.events[e].status == Completed
  {
  }

  lemma SchedulerCompletes(c: Config, s: State, step: Step, t: State)
    requires SchedulerNext(c, s, step, t)
    ensures forall e | e in t.db.events && t.db.events[e].status == Completed ::
              e in s.db.events && s.db.events[e].status == Completed
  {
  }

  lemma WorkerCompletes(c: Config, s: State, step: Step, t: State)
    requires WorkerNext(c, s, step, t) && !step.SaveDelivery?
    ensures forall e | e in t.db.events && t.db.events[e].status == Completed ::
              e in s.db.events && s.db.events[e].status == Completed
  {
  }

  lemma NoNewlyCompleted(c: Config, s: State, step: Step, t: State)
    requires Next(c, s, step, t) && !step.SaveDelivery?
    ensures forall e | e in t.db.events && t.db.events[e].status == Completed ::
              e in s.db.events && s.db.events[e].status == Completed
  {
    hide ApiNext, PublisherNext, SchedulerNext, WorkerNext;
    if ApiNext(c, s, step, t) {
      ApiCompletes(c, s, step, t);
    } else if PublisherNext(c, s, step, t) {
      PublisherCompletes(c, s, step, t);
    } else if SchedulerNext(c, s, step, t) {
      SchedulerCompletes(c, s, step, t);
    } else {
      WorkerCompletes(c, s, step, t);
    }
  }

  lemma ConclusiveStep(c: Config, s: State, step: Step, t: State)
    requires Sound(s) && Conclusive(s) && Next(c, s, step, t)
    ensures Conclusive(t)
  {
    hide Next, Conclusive, HandlersOk, RequeueLocks, PublishLocks, Refs, WellFormed, StaySettled, ForwardOnly;
    if step.SaveDelivery? {
      SaveStepConclusive(c, s, step, t);
    } else if step.Respond? {
      RespondStepConclusive(c, s, step, t);
    } else {
      ForwardStep(c, s, step, t);
      forall d | d in t.db.deliveries && d !in s.db.deliveries ensures d >= s.nextId {
        NewDeliveryRows(c, s, step, t, d);
      }
      SettledForward(s.db.deliveries, t.db.deliveries, s.nextId);
      CounterGrows(c, s, step, t);
      NoNewSaving(c, s, step, t);
      NoNewCompletions(c, s, step, t);
      NoNewlyCompleted(c, s, step, t);
      OtherConclusive(s, t);
    }
  }

  lemma SaveStepConclusive(c: Config, s: State, step: Step, t: State)
    requires Sound(s) && Conclusive(s) && Next(c, s, step, t) && step.SaveDelivery?
    ensures Conclusive(t)
  {
    hide Conclusive, HandlersOk;
    SaveConclusive(s, step.handler);
  }

  lemma RespondStepConclusive(c: Config, s: State, step: Step, t: State)
    requires Sound(s) && Conclusive(s) && Next(c, s, step, t) && step.Respond?
    ensures Conclusive(t)
  {
    hide Conclusive, IdsBounded;
    RespondConclusive(c, s, step.handler, step.reply, step.draw);
  }

  lemma {:induction false} AlwaysConclusive(c: Config, r: Run, i: nat)
    requires IsHistory(c, r) && i < |r.states|
    ensures Conclusive(r.states[i])
  {
    hide Conclusive, Sound, Next;
    if i == 0 {
      ConclusiveInit();
    } else {
      AlwaysConclusive(c, r, i - 1);
      AlwaysSound(c, r, i - 1);
      ConclusiveStep(c, r.states[i - 1], r.steps[i - 1], r.states[i]);
    }
  }

  /**
   * An event is stamped completed only by a transaction that saw some delivery rows of it, all of them delivered or
   * dead-lettered; in every later state those rows still are, or retention has removed them.
   */
  lemma CompletedMeansSettled(c: Config, r: Run, i: nat, e: Id)
    requires IsHistory(c, r) && i < |r.states| && e in r.states[i].db.events
    requires r.states[i].db.events[e].status == Completed
    ensures var s := r.states[i];
            exists k :: && 0 <= k < |s.log.completions| && s.log.completions[k].event == e
                        && s.log.completions[k].rows != {}
                        && forall d | d in s.log.completions[k].rows ::
                             d in s.db.deliveries ==> Terminal(s.db.deliveries[d].status)
  {
    hide Next;
    AlwaysConclusive(c, r, i);
    var s := r.states[i];
    assert HasCompletion(s.log.completions, e);
    var k :| 0 <= k < |s.log.completions| && s.log.completions[k].event == e;
    assert CompletionOk(s.log.completions[k], s.db.deliveries, s.nextId);
  }

  // ---- What the completion query saw. ----

  /**
   * At step `i` a handler got a successful answer for one of the rows and queried the others: they were all the rows of
   * the event, and every other one was delivered or dead-lettered.
   */
  ghost predicate SawAll(c: Config, r: Run, i: nat, e: Id, rows: set<Id>) {
    && i < |r.steps| < |r.states| && r.steps[i].Respond? && CanRespond(r.states[i], r.steps[i].handler)
    && var s, d := r.states[i], r.states[i].handlers[r.steps[i].handler].phase.delivery;
    && rows == RowsOf(s.db.deliveries, e) && d in rows
    && Attempted(c, s.db.deliveries[d], r.steps[i].reply, r.steps[i].draw, s.now).status == DeliveryStatus.Delivered
    && forall x | x in rows && x != d :: Terminal(s.db.deliveries[x].status)
  }

  lemma QuerySees(c: Config, r: Run, i: nat)
    requires IsRun(c, r) && i < |r.steps| && r.steps[i].Respond?
    ensures var h := r.steps[i].handler;
            && h in r.states[i + 1].handlers && r.states[i + 1].handlers[h].phase.Saving?
            && var phase := r.states[i + 1].handlers[h].phase;
               phase.seen.Some? ==> SawAll(c, r, i, phase.row.event, phase.seen.value)
  {
    assert Next(c, r.states[i], r.steps[i], r.states[i + 1]);
    var s, h := r.states[i], r.steps[i].handler;
    assert WorkerNext(c, s, r.steps[i], r.states[i + 1]);
    hide Next, WorkerNext;
    var phase := r.states[i + 1].handlers[h].phase;
    if phase.seen.Some? {
      var after := s.db.deliveries[phase.delivery := phase.row];
      forall x | x in phase.seen.value && x != phase.delivery ensures Terminal(s.db.deliveries[x].status) {
        assert x in after && after[x] == s.db.deliveries[x];
      }
    }
  }

  /** Whether every row of the event but one is delivered or dead-lettered. */
  ghost predicate OthersSettled(deliveries: map<Id, Delivery>, e: Id, d: Id) {
    forall x | x in deliveries && x != d && deliveries[x].event == e :: deliveries[x].status in {Delivered, Dlq}
  }

  /**
   * The completion check is exact: at the answering step of any run the handler finds the event complete if and only if
   * its own attempt is delivered and every other delivery row of the event is delivered or dead-lettered.
   */
  lemma AnswerCompletes(c: Config, r: Run, i: nat, h: Id, reply: Reply, draw: real)
    requires IsHistory(c, r) && i < |r.steps| && r.steps[i] == Respond(h, reply, draw)
    ensures h in r.states[i].handlers && h in r.states[i + 1].handlers && r.states[i + 1].handlers[h].phase.Saving?
    ensures var s, phase := r.states[i], r.states[i + 1].handlers[h].phase;
            phase.seen.Some? <==>
              phase.row.status == Delivered && OthersSettled(s.db.deliveries, phase.row.event, phase.delivery)
  {
    var s := r.states[i];
    assert Next(c, s, r.steps[i], r.states[i + 1]);
    assert WorkerNext(c, s, r.steps[i], r.states[i + 1]);
    hide Next, WorkerNext;
    var phase := r.states[i + 1].handlers[h].phase;
    var after := s.db.deliveries[phase.delivery := phase.row];
    assert forall x | x in s.db.deliveries && x != phase.delivery :: x in after && after[x] == s.db.deliveries[x];
  }

  /** And the saving step stamps the event exactly if the check found it complete; no other event changes. */
  lemma SavingStamps(c: Config, r: Run, i: nat, h: Id)
    requires IsHistory(c, r) && i < |r.steps| && r.steps[i] == SaveDelivery(h)
    ensures h in r.states[i].handlers && r.states[i].handlers[h].phase.Saving?
    ensures var s, t, phase := r.states[i], r.states[i + 1], r.states[i].handlers[h].phase;
            && t.db.events.Keys == s.db.events.Keys
            && forall e | e in s.db.events ::
                 t.db.events[e] == if phase.seen.Some? && e == phase.row.event then s.db.events[e].(status := Completed)
                                   else s.db.events[e]
  {
    assert Next(c, r.states[i], r.steps[i], r.states[i + 1]);
    assert WorkerNext(c, r.states[i], r.steps[i], r.states[i + 1]);
    hide Next, WorkerNext;
  }

  /** What a handler is about to commit as seen, it saw. */
  lemma {:induction false} SeenWasSeen(c: Config, r: Run, n: nat, h: Id) returns (i: nat)
    requires IsHistory(c, r) && n < |r.states| && h in r.states[n].handlers
    requires r.states[n].handlers[h].phase.Saving? && r.states[n].handlers[h].phase.seen.Some?
    ensures i < n && SawAll(c, r, i, r.states[n].handlers[h].phase.row.event, r.states[n].handlers[h].phase.seen.value)
  {
    hide Next, SawAll;
    var step := r.steps[n - 1];
    if step.Respond? && step.handler == h {
      QuerySees(c, r, n - 1);
      i := n - 1;
    } else {
      OthersKeepSaving(c, r.states[n - 1], step, r.states[n], h);
      i := SeenWasSeen(c, r, n - 1, h);
    }
  }

  lemma OthersKeepSaving(c: Config, s: State, step: Step, t: State, h: Id)
    requires Next(c, s, step, t) && !(step.Respond? && step.handler == h)
    requires h in t.handlers && t.handlers[h].phase.Saving?
    ensures h in s.handlers && t.handlers[h] == s.handlers[h]
  {
    if step.Respond? {
      assert WorkerNext(c, s, step, t);
    } else {
      hide Next;
      NoNewSaving(c, s, step, t);
    }
  }

  /**
   * Every completion on record goes back to a query of that kind: when the event was stamped, all delivery rows of it
   * that the query could see, and there was at least one, were delivered or dead-lettered.
   */
  lemma {:induction false} CompletionSawAll(c: Config, r: Run, n: nat, k: nat) returns (i: nat)
    requires IsHistory(c, r) && n < |r.states| && k < |r.states[n].log.completions|
    ensures i < n && SawAll(c, r, i, r.states[n].log.completions[k].event, r.states[n].log.completions[k].rows)
  {
    hide Next, SawAll;
    var s, step, t := r.states[n - 1], r.steps[n - 1], r.states[n];
    if k < |s.log.completions| {
      CompletionsStay(c, s, step, t, k);
      i := CompletionSawAll(c, r, n - 1, k);
    } else {
      NewCompletion(c, s, step, t, k);
      i := SeenWasSeen(c, r, n - 1, step.handler);
    }
  }

  lemma CompletionsStay(c: Config, s: State, step: Step, t: State, k: nat)
    requires Next(c, s, step, t) && k < |s.log.completions|
    ensures k < |t.log.completions| && t.log.completions[k] == s.log.completions[k]
  {
    if step.SaveDelivery? {
      assert WorkerNext(c, s, step, t);
    } else {
      hide Next;
      NoNewCompletions(c, s, step, t);
    }
  }

  lemma NewCompletion(c: Config, s: State, step: Step, t: State, k: nat)
    requires Next(c, s, step, t) && |s.log.completions| <= k < |t.log.completions|
    ensures step.SaveDelivery? && step.handler in s.handlers && s.handlers[step.handler].phase.Saving?
    ensures s.handlers[step.handler].phase.seen.Some?
    ensures t.log.completions[k] == Completion(s.handlers[step.handler].phase.row.event, s.handlers[step.handler].phase.seen.value)
  {
    if step.SaveDelivery? {
      assert WorkerNext(c, s, step, t);
    } else {
      hide Next;
      NoNewCompletions(c, s, step, t);
      assert false;
    }
  }
}
