/**
 * No turn is skipped. Whatever a running handler found is on its list, in its hands, or accounted for by a delivery row
 * that was made on behalf of its message and is no longer being delivered.
 */
module Turns {
  import opened Common
  import opened Pipeline
  import opened Frames
  import opened Integrity
  import opened Tenancy
  import opened NoLoss
  import opened Traces

  /** The step makes a delivery row for the endpoint on behalf of the message. */
  predicate MakesRow(s: State, step: Step, m: Id, p: Id) {
    && step.DeliverNext? && CanDeliverNext(s, step.handler) && s.handlers[step.handler].message == m
    && s.handlers[step.handler].phase.todo[0] == p
    && HandlerPayload(s, step.handler).event in s.db.events && p in s.db.endpoints
  }

  /** How many rows the first `n` steps made. */
  function RowsMade(r: Run, m: Id, p: Id, n: nat): nat
    requires n <= |r.steps| < |r.states|
  {
    if n == 0 then 0 else RowsMade(r, m, p, n - 1) + Bit(MakesRow(r.states[n - 1], r.steps[n - 1], m, p))
  }

  /** The endpoints a handler has on its list: those that remain, without the one in hand. */
  function Listed(x: Handler): seq<Id> {
    if x.phase.Sending? || x.phase.Saving? then Remaining(x)[1..] else Remaining(x)
  }

  // ---- Each handler. ----

  /**
   * What a handler found is still on its list, or has had a row made for it that is in hand or accounted for; unless the
   * event or the endpoint is gone.
   */
  ghost predicate Turned(s: State, x: Handler, p: Id, made: nat) {
    && x.message in s.stream.entries
    && (p in x.resolved ==>
          && p < s.nextId
          && (|| p in Listed(x) || Gone(s, EventOf(s, x.message), p)
              || (made >= 1 && (p in Remaining(x) || Accounted(s, EventOf(s, x.message), p, x.message)))))
  }

  ghost predicate AllTurned(s: State, m: Id, p: Id, made: nat) {
    forall h | h in s.handlers && s.handlers[h].message == m :: Turned(s, s.handlers[h], p, made)
  }

  /** The handler has the same message, the same endpoints and the same list as before. */
  ghost predicate SameTurn(s: State, t: State, h: Id) {
    && h in s.handlers && h in t.handlers
    && t.handlers[h].message == s.handlers[h].message && t.handlers[h].resolved == s.handlers[h].resolved
    && Listed(t.handlers[h]) == Listed(s.handlers[h]) && Remaining(t.handlers[h]) == Remaining(s.handlers[h])
  }

  lemma TurnedKept(s: State, t: State, x: Handler, y: Handler, p: Id, made: nat, made': nat)
    requires Turned(s, x, p, made) && Traced(s, t) && EventsKnown(s) && made <= made'
    requires y.message == x.message && y.resolved == x.resolved && Listed(y) == Listed(x) && Remaining(y) == Remaining(x)
    ensures Turned(t, y, p, made')
  {
    if Accounted(s, EventOf(s, x.message), p, x.message) {
      AccountedKept(s, t, EventOf(s, x.message), p, x.message);
    }
    hide Accounted;
  }

  /** The general step: each handler is as before or has been dealt with. */
  lemma TurnedStep(s: State, t: State, m: Id, p: Id, made: nat, made': nat)
    requires AllTurned(s, m, p, made) && Traced(s, t) && EventsKnown(s) && made <= made'
    requires forall h | h in t.handlers && t.handlers[h].message == m :: SameTurn(s, t, h) || Turned(t, t.handlers[h], p, made')
    ensures AllTurned(t, m, p, made')
  {
    hide Turned, Traced, EventsKnown;
    forall h | h in t.handlers && t.handlers[h].message == m ensures Turned(t, t.handlers[h], p, made') {
      if SameTurn(s, t, h) {
        TurnedKept(s, t, s.handlers[h], t.handlers[h], p, made, made');
      }
    }
  }

  /** What a handler finds, is on its list. */
  lemma ResolveTurned(s: State, h: Id, endpoints: seq<Id>, p: Id, made: nat)
    requires CanResolve(s, h, endpoints) && EndpointsOk(s.db.endpoints, s.log) && IdsBounded(s) && HandlerRecorded(s.handlers[h], s.log)
    ensures var t := ResolveEffect(s, h, endpoints); h in t.handlers && Turned(t, t.handlers[h], p, made)
  {
    hide LeftAlone, Targets, Accounted;
    if p in ResolveEffect(s, h, endpoints).handlers[h].resolved {
      assert Resolves(s.db, HandlerPayload(s, h), p);
      assert EndpointOk(p, s.db.endpoints[p], s.log);
    }
  }

  lemma NextList(c: Config, s: State, h: Id)
    requires CanDeliverNext(s, h)
    ensures var t := DeliverNextEffect(c, s, h);
            && h in t.handlers && t.handlers == s.handlers[h := t.handlers[h]] && t.handlers[h].message == s.handlers[h].message
            && t.handlers[h].resolved == s.handlers[h].resolved && !t.handlers[h].phase.Starting?
            && Listed(t.handlers[h]) == s.handlers[h].phase.todo[1..]
  {
    hide LeftAlone;
  }

  lemma SkipIsGone(c: Config, s: State, h: Id)
    requires CanDeliverNext(s, h)
    ensures var t, m, p := DeliverNextEffect(c, s, h), s.handlers[h].message, s.handlers[h].phase.todo[0];
            MakesRow(s, DeliverNext(h), m, p) || Gone(t, EventOf(s, m), p)
  {
    hide LeftAlone;
  }

  /** After its turn the first on the list is gone, in hand, or accounted for by a deferral. */
  lemma FirstTurnTaken(c: Config, s: State, h: Id)
    requires CanDeliverNext(s, h) && s.handlers[h].message < s.nextId
    ensures var t, x, p := DeliverNextEffect(c, s, h), s.handlers[h], s.handlers[h].phase.todo[0];
            || Gone(t, EventOf(s, x.message), p)
            || (MakesRow(s, DeliverNext(h), x.message, p)
                && (p in Remaining(t.handlers[h]) || Accounted(t, EventOf(s, x.message), p, x.message)))
  {
    hide LeftAlone;
    var t, x, p := DeliverNextEffect(c, s, h), s.handlers[h], s.handlers[h].phase.todo[0];
    if !Gone(s, EventOf(s, x.message), p) && t.handlers[h].phase.FanOut? {
      assert AccountedBy(t.db.deliveries, s.nextId, EventOf(s, x.message), p, x.message);
    }
  }

  lemma DeliverTurned(c: Config, s: State, h: Id, p: Id, made: nat)
    requires CanDeliverNext(s, h) && Turned(s, s.handlers[h], p, made) && EventsKnown(s) && Traced(s, DeliverNextEffect(c, s, h))
    requires s.handlers[h].message < s.nextId
    ensures var t := DeliverNextEffect(c, s, h);
            h in t.handlers && Turned(t, t.handlers[h], p, made + Bit(MakesRow(s, DeliverNext(h), s.handlers[h].message, p)))
  {
    var t, m, todo := DeliverNextEffect(c, s, h), s.handlers[h].message, s.handlers[h].phase.todo;
    NextList(c, s, h);
    FirstTurnTaken(c, s, h);
    if Accounted(s, EventOf(s, m), p, m) {
      AccountedKept(s, t, EventOf(s, m), p, m);
    }
    hide DeliverNextEffect, Accounted, MakesRow;
    assert todo == [todo[0]] + todo[1..];
  }

  /** A saved row is accounted for. */
  lemma SaveTurned(s: State, h: Id, p: Id, made: nat)
    requires CanSaveDelivery(s, h) && Turned(s, s.handlers[h], p, made) && EventsKnown(s) && Traced(s, SaveDeliveryEffect(s, h))
    requires HandlerOk(s.handlers[h], s.stream, s.db.deliveries, s.nextId)
    ensures var t := SaveDeliveryEffect(s, h); h in t.handlers && Turned(t, t.handlers[h], p, made)
  {
    var t, x := SaveDeliveryEffect(s, h), s.handlers[h];
    assert AccountedBy(t.db.deliveries, x.phase.delivery, EventOf(s, x.message), x.phase.endpoint, x.message);
    if Accounted(s, EventOf(s, x.message), p, x.message) {
      AccountedKept(s, t, EventOf(s, x.message), p, x.message);
    }
    hide RowsTraced, HandlerOk;
  }

  /** The steps that change what a handler has still to do. */
  predicate Advances(step: Step) {
    step.Resolve? || step.DeliverNext? || step.SaveDelivery?
  }

  lemma OneMoved(c: Config, s: State, step: Step, t: State)
    requires WorkerNext(c, s, step, t) && Advances(step)
    ensures step.handler in s.handlers && step.handler in t.handlers
    ensures t.handlers == s.handlers[step.handler := t.handlers[step.handler]]
    ensures t.handlers[step.handler].message == s.handlers[step.handler].message
  {
    hide LeftAlone, Targets;
  }

  lemma AdvanceTurned(c: Config, s: State, step: Step, t: State, p: Id, made: nat)
    requires WorkerNext(c, s, step, t) && Advances(step) && step.handler in s.handlers && Turned(s, s.handlers[step.handler], p, made)
    requires Traced(s, t) && EventsKnown(s) && EndpointsOk(s.db.endpoints, s.log) && IdsBounded(s)
    requires HandlerRecorded(s.handlers[step.handler], s.log)
    requires HandlerOk(s.handlers[step.handler], s.stream, s.db.deliveries, s.nextId) && s.handlers[step.handler].message < s.nextId
    ensures step.handler in t.handlers
    ensures Turned(t, t.handlers[step.handler], p, made + Bit(MakesRow(s, step, s.handlers[step.handler].message, p)))
  {
    hide Traced, EventsKnown, EndpointsOk, IdsBounded, HandlerRecorded, HandlerOk, Turned, LeftAlone, Targets;
    hide ResolveEffect, DeliverNextEffect, SaveDeliveryEffect;
    match step
    case Resolve(h, endpoints) => ResolveTurned(s, h, endpoints, p, made);
    case DeliverNext(h) => DeliverTurned(c, s, h, p, made);
    case SaveDelivery(h) => SaveTurned(s, h, p, made);
  }

  /** Other steps leave the lists alone, and a handler that has just begun has found nothing yet. */
  lemma OthersTurned(c: Config, s: State, step: Step, t: State, p: Id, made: nat)
    requires WorkerNext(c, s, step, t) && !Advances(step)
    ensures forall h | h in t.handlers :: SameTurn(s, t, h) || Turned(t, t.handlers[h], p, made)
  {
    hide LeftAlone, Targets, Accounted;
  }

  lemma WorkerTurned(c: Config, s: State, step: Step, t: State, m: Id, p: Id, made: nat)
    requires WorkerNext(c, s, step, t) && AllTurned(s, m, p, made) && Traced(s, t) && EventsKnown(s) && IdsBounded(s)
    requires EndpointsOk(s.db.endpoints, s.log) && Recorded(s.handlers, s.stream, s.log)
    requires HandlersOk(s.handlers, s.stream, s.db.deliveries, s.nextId)
    ensures AllTurned(t, m, p, made + Bit(MakesRow(s, step, m, p)))
  {
    hide WorkerNext, Traced, Turned, EventsKnown, IdsBounded, HandlerOk, HandlerRecorded, EndpointsOk, MakesRow;
    if Advances(step) {
      OneMoved(c, s, step, t);
      MessageOld(s, step.handler);
      assert HandlerOk(s.handlers[step.handler], s.stream, s.db.deliveries, s.nextId);
      if s.handlers[step.handler].message == m {
        AdvanceTurned(c, s, step, t, p, made);
      }
    } else {
      OthersTurned(c, s, step, t, p, made + Bit(MakesRow(s, step, m, p)));
    }
    TurnedStep(s, t, m, p, made, made + Bit(MakesRow(s, step, m, p)));
  }

  lemma OthersMakeNothing(c: Config, s: State, step: Step, t: State, m: Id, p: Id)
    requires Next(c, s, step, t) && !WorkerNext(c, s, step, t)
    ensures !MakesRow(s, step, m, p) && step != Consume(m) && step != Claim(m)
    ensures t.handlers == s.handlers && t.log.resolved == s.log.resolved
  {
    assert !step.DeliverNext? && !step.Consume? && !step.Claim?;
    hide ApiNext, PublisherNext, SchedulerNext, WorkerNext;
    if ApiNext(c, s, step, t) { ApiFrames(c, s, step, t); }
    else if PublisherNext(c, s, step, t) { PublisherFrames(c, s, step, t); }
    else { SchedulerFrames(c, s, step, t); }
  }

  /** What the steps of the worker rely on. */
  lemma PartsOf(s: State)
    requires Sound(s) && Scoped(s) && Safe(s)
    ensures EventsKnown(s) && PurgedApart(s) && Recorded(s.handlers, s.stream, s.log) && EndpointsOk(s.db.endpoints, s.log)
    ensures IdsBounded(s) && HandlersOk(s.handlers, s.stream, s.db.deliveries, s.nextId)
  {
    hide EventsKnown, PurgedApart, Recorded, EndpointsOk, IdsBounded, HandlersOk;
    KnownEventsOf(s);
    SafeParts(s);
  }

  lemma QuietTurned(s: State, t: State, m: Id, p: Id, made: nat)
    requires AllTurned(s, m, p, made) && Traced(s, t) && EventsKnown(s) && t.handlers == s.handlers
    ensures AllTurned(t, m, p, made)
  {
    hide Turned, Traced, EventsKnown;
    TurnedStep(s, t, m, p, made, made);
  }

  lemma TurnedNext(c: Config, s: State, step: Step, t: State, m: Id, p: Id, made: nat)
    requires Next(c, s, step, t) && AllTurned(s, m, p, made) && Sound(s) && Scoped(s) && Safe(s)
    ensures AllTurned(t, m, p, made + Bit(MakesRow(s, step, m, p)))
  {
    hide Next, WorkerNext, Sound, Scoped, Safe, AllTurned, Traced, EventsKnown, Recorded, EndpointsOk, IdsBounded, HandlersOk, MakesRow;
    PartsOf(s);
    StepTraced(c, s, step, t);
    if WorkerNext(c, s, step, t) {
      WorkerTurned(c, s, step, t, m, p, made);
    } else {
      OthersMakeNothing(c, s, step, t, m, p);
      QuietTurned(s, t, m, p, made);
    }
  }

  /**
   * In every state of every run, whatever a running handler found is still on its list, or has had a row made for it on
   * behalf of the message that is in hand or accounted for, unless the event or the endpoint is gone.
   */
  lemma {:induction false} AlwaysTurned(c: Config, r: Run, n: nat, m: Id, p: Id)
    requires IsHistory(c, r) && n < |r.states|
    ensures AllTurned(r.states[n], m, p, RowsMade(r, m, p, n))
  {
    hide Next, AllTurned, Sound, Scoped, Safe, MakesRow;
    if n == 0 {
      assert AllTurned(Init, m, p, 0) by { NobodyTurned(m, p); }
    } else {
      AlwaysTurned(c, r, n - 1, m, p);
      AlwaysSound(c, r, n - 1);
      AlwaysScoped(c, r, n - 1);
      AlwaysSafe(c, r, n - 1);
      TurnedNext(c, r.states[n - 1], r.steps[n - 1], r.states[n], m, p, RowsMade(r, m, p, n - 1));
    }
  }

  lemma NobodyTurned(m: Id, p: Id)
    ensures AllTurned(Init, m, p, 0)
  {
  }

  // ---- The rows that were made. ----

  /** The delivery row was made for the endpoint on behalf of the message, in the first `n` steps. */
  ghost predicate MadeFor(r: Run, n: nat, d: Id, m: Id, p: Id)
    requires n <= |r.steps| < |r.states|
  {
    exists j :: 0 <= j < n && MakesRow(r.states[j], r.steps[j], m, p) && r.states[j].nextId == d
  }

  lemma {:induction false} CountedIsMade(r: Run, n: nat, m: Id, p: Id) returns (d: Id)
    requires n <= |r.steps| < |r.states| && RowsMade(r, m, p, n) >= 1
    ensures MadeFor(r, n, d, m, p)
  {
    hide MakesRow;
    if MakesRow(r.states[n - 1], r.steps[n - 1], m, p) {
      d := r.states[n - 1].nextId;
    } else {
      d := CountedIsMade(r, n - 1, m, p);
      var j :| 0 <= j < n - 1 && MakesRow(r.states[j], r.steps[j], m, p) && r.states[j].nextId == d;
    }
  }

  lemma {:induction false} MadeIsCounted(r: Run, n: nat, d: Id, m: Id, p: Id)
    requires n <= |r.steps| < |r.states| && MadeFor(r, n, d, m, p)
    ensures RowsMade(r, m, p, n) >= 1
  {
    hide MakesRow;
    var j :| 0 <= j < n && MakesRow(r.states[j], r.steps[j], m, p) && r.states[j].nextId == d;
    if j < n - 1 {
      MadeIsCounted(r, n - 1, d, m, p);
    }
  }

  lemma MakingMakes(c: Config, s: State, step: Step, t: State, m: Id, p: Id)
    requires Next(c, s, step, t) && MakesRow(s, step, m, p) && IdsBounded(s)
    ensures m < s.nextId && m in t.stream.entries && RowTraced(t, s.nextId, EventOf(t, m), p)
  {
    assert WorkerNext(c, s, step, t);
    hide ApiNext, PublisherNext, SchedulerNext, LeftAlone;
  }

  /** A row that was made is there, with its event and endpoint and younger than its message, or retention removed it. */
  lemma MadeIsTraced(c: Config, r: Run, n: nat, d: Id, m: Id, p: Id)
    requires IsHistory(c, r) && n < |r.states| && MadeFor(r, n, d, m, p) && m in r.states[n].stream.entries
    ensures m < d && RowTraced(r.states[n], d, EventOf(r.states[n], m), p)
  {
    hide Next, MakesRow, Sound, IdsBounded, RowTraced;
    var j :| 0 <= j < n && MakesRow(r.states[j], r.steps[j], m, p) && r.states[j].nextId == d;
    AlwaysSound(c, r, j);
    BoundsOf(r.states[j]);
    MakingMakes(c, r.states[j], r.steps[j], r.states[j + 1], m, p);
    MessageStays(c, r, j + 1, n, m);
    RowStaysTraced(c, r, j + 1, n, d, EventOf(r.states[j + 1], m), p);
  }
}
