/**
 * Duplicates, from the stream to the deliveries. The delivery rows made for an endpoint on behalf of one message number
 * at most the handlers that took the message: one for reading it, and one for each reclaim. Without reclaims and dying
 * handlers there is exactly one for each endpoint that was found.
 */
module Attempts {
  import opened Common
  import opened Broker
  import opened Pipeline
  import opened Frames
  import opened Integrity
  import opened Tenancy
  import opened NoLoss
  import opened Traces
  import opened Turns

  /** How many handlers took the message in the first `n` steps: by reading it, or by reclaiming it. */
  function Taken(r: Run, m: Id, n: nat): nat
    requires n <= |r.steps|
  {
    if n == 0 then 0 else Taken(r, m, n - 1) + Bit(r.steps[n - 1] == Consume(m) || r.steps[n - 1] == Claim(m))
  }

  predicate MayMake(x: Handler, m: Id, p: Id) {
    x.message == m && (x.phase.Starting? || p in Listed(x))
  }

  /** The handlers of the message that may yet make a row for the endpoint. */
  function Ahead(s: State, m: Id, p: Id): set<Id> {
    set h | h in s.handlers && MayMake(s.handlers[h], m, p)
  }

  // ---- No more rows than handlers. ----

  lemma Fewer(a: set<Id>, b: set<Id>)
    requires a <= b
    ensures |a| <= |b|
  {
    assert b == a + (b - a);
    assert |a + (b - a)| == |a| + |b - a|;
  }

  /** A handler that moves through its list, ends, or stays: nothing new is ahead. */
  lemma NotMoreAhead(s: State, t: State, m: Id, p: Id)
    requires forall h | h in t.handlers ::
               h in s.handlers && (MayMake(t.handlers[h], m, p) ==> MayMake(s.handlers[h], m, p))
    ensures |Ahead(t, m, p)| <= |Ahead(s, m, p)|
  {
    Fewer(Ahead(t, m, p), Ahead(s, m, p));
  }

  lemma OneMoreAhead(s: State, t: State, h: Id, x: Id, m: Id, p: Id)
    requires t.handlers == s.handlers[h := Handler(x, {}, Starting)] && h !in s.handlers
    ensures |Ahead(t, m, p)| == |Ahead(s, m, p)| + Bit(x == m)
  {
    if x == m {
      assert Ahead(t, m, p) == Ahead(s, m, p) + {h};
    } else {
      assert Ahead(t, m, p) == Ahead(s, m, p);
    }
  }

  /** The row that is made was ahead, and the list does not name its endpoint again. */
  lemma MadeAhead(c: Config, s: State, h: Id, m: Id, p: Id)
    requires CanDeliverNext(s, h) && HandlerRecorded(s.handlers[h], s.log)
    ensures Bit(MakesRow(s, DeliverNext(h), m, p)) + |Ahead(DeliverNextEffect(c, s, h), m, p)| <= |Ahead(s, m, p)|
  {
    var t := DeliverNextEffect(c, s, h);
    var todo := s.handlers[h].phase.todo;
    NextList(c, s, h);
    hide DeliverNextEffect;
    assert todo == [todo[0]] + todo[1..];
    if MakesRow(s, DeliverNext(h), m, p) {
      assert p !in todo[1..];
      assert Ahead(t, m, p) <= Ahead(s, m, p) - {h} && h in Ahead(s, m, p);
      Fewer(Ahead(t, m, p), Ahead(s, m, p) - {h});
    } else {
      NotMoreAhead(s, t, m, p);
    }
  }

  predicate MovesAlong(step: Step) {
    step.Resolve? || step.Respond? || step.SaveDelivery? || step.Acknowledge? || step.HandlerDies?
  }

  lemma MovingAhead(c: Config, s: State, step: Step, t: State, m: Id, p: Id)
    requires WorkerNext(c, s, step, t) && MovesAlong(step)
    ensures |Ahead(t, m, p)| <= |Ahead(s, m, p)|
  {
    hide Ahead, LeftAlone, Targets, IsResolution;
    NotMoreAhead(s, t, m, p);
  }

  lemma WorkerAhead(c: Config, s: State, step: Step, t: State, m: Id, p: Id)
    requires WorkerNext(c, s, step, t) && IdsBounded(s) && Recorded(s.handlers, s.stream, s.log)
    ensures Bit(MakesRow(s, step, m, p)) + |Ahead(t, m, p)| <= |Ahead(s, m, p)| + Bit(step == Consume(m) || step == Claim(m))
  {
    if MovesAlong(step) {
      MovingAhead(c, s, step, t, m, p);
    } else {
      hide Ahead, DeliverNextEffect, LeftAlone, Targets;
      match step
      case Consume(x) => OneMoreAhead(s, t, s.nextId, x, m, p);
      case Claim(x) => OneMoreAhead(s, t, s.nextId, x, m, p);
      case DeliverNext(h) => assert HandlerRecorded(s.handlers[h], s.log); MadeAhead(c, s, h, m, p);
      case _ =>
    }
  }

  lemma AheadStep(c: Config, s: State, step: Step, t: State, m: Id, p: Id)
    requires Next(c, s, step, t) && Sound(s) && Recorded(s.handlers, s.stream, s.log)
    ensures Bit(MakesRow(s, step, m, p)) + |Ahead(t, m, p)| <= |Ahead(s, m, p)| + Bit(step == Consume(m) || step == Claim(m))
  {
    hide Ahead, HandlersOk, PublishLocks, RequeueLocks, Refs, IdsBounded, Recorded;
    if WorkerNext(c, s, step, t) {
      WorkerAhead(c, s, step, t, m, p);
    } else {
      OthersMakeNothing(c, s, step, t, m, p);
      SameAhead(s, t, m, p);
    }
  }

  lemma SameAhead(s: State, t: State, m: Id, p: Id)
    requires t.handlers == s.handlers
    ensures Ahead(t, m, p) == Ahead(s, m, p)
  {
  }

  /**
   * In every run the rows made for an endpoint on behalf of one message, and the handlers that may yet make one, are
   * together at most as many as the handlers that took the message.
   */
  lemma {:induction false} RowsWithinHandlers(c: Config, r: Run, n: nat, m: Id, p: Id)
    requires IsHistory(c, r) && n < |r.states|
    ensures RowsMade(r, m, p, n) + |Ahead(r.states[n], m, p)| <= Taken(r, m, n)
  {
    hide Next, Ahead, MakesRow, Sound, Safe, Recorded;
    if n == 0 {
      assert Ahead(Init, m, p) == {} by { NobodyAhead(m, p); }
    } else {
      RowsWithinHandlers(c, r, n - 1, m, p);
      AlwaysSound(c, r, n - 1);
      AlwaysSafe(c, r, n - 1);
      SafeParts(r.states[n - 1]);
      AheadStep(c, r.states[n - 1], r.steps[n - 1], r.states[n], m, p);
    }
  }

  lemma NobodyAhead(m: Id, p: Id)
    ensures Ahead(Init, m, p) == {}
  {
  }

  // ---- A message is read once. ----

  function Reads(r: Run, m: Id, n: nat): nat
    requires n <= |r.steps|
  {
    if n == 0 then 0 else Reads(r, m, n - 1) + Bit(r.steps[n - 1] == Consume(m))
  }

  function Claims(r: Run, m: Id, n: nat): nat
    requires n <= |r.steps|
  {
    if n == 0 then 0 else Claims(r, m, n - 1) + Bit(r.steps[n - 1] == Claim(m))
  }

  lemma {:induction false} TakenIsReadOrClaimed(r: Run, m: Id, n: nat)
    requires n <= |r.steps|
    ensures Taken(r, m, n) == Reads(r, m, n) + Claims(r, m, n)
  {
    if n != 0 {
      TakenIsReadOrClaimed(r, m, n - 1);
    }
  }

  lemma CursorStep(c: Config, s: State, step: Step, t: State)
    requires Next(c, s, step, t)
    ensures s.stream.cursor <= t.stream.cursor
    ensures step.Consume? ==> s.stream.cursor <= step.message < t.stream.cursor
  {
    if WorkerNext(c, s, step, t) {
      hide LeftAlone, Targets;
    } else {
      assert !step.Consume?;
      hide ApiNext, PublisherNext, SchedulerNext, WorkerNext;
      if ApiNext(c, s, step, t) { ApiFrames(c, s, step, t); }
      else if PublisherNext(c, s, step, t) { PublisherStream(c, s, step, t); }
      else { SchedulerStream(c, s, step, t); }
    }
  }

  lemma {:induction false} ReadOnce(c: Config, r: Run, m: Id, n: nat)
    requires IsHistory(c, r) && n < |r.states|
    ensures Reads(r, m, n) <= 1 && (Reads(r, m, n) == 1 ==> m < r.states[n].stream.cursor)
  {
    hide Next;
    if n != 0 {
      ReadOnce(c, r, m, n - 1);
      CursorStep(c, r.states[n - 1], r.steps[n - 1], r.states[n]);
    }
  }

  /** The delivery rows made for an endpoint on behalf of one message are at most one more than its reclaims. */
  lemma RowsWithinReclaims(c: Config, r: Run, n: nat, m: Id, p: Id)
    requires IsHistory(c, r) && n < |r.states|
    ensures RowsMade(r, m, p, n) <= 1 + Claims(r, m, n)
  {
    hide Next, Ahead;
    RowsWithinHandlers(c, r, n, m, p);
    TakenIsReadOrClaimed(r, m, n);
    ReadOnce(c, r, m, n);
  }

  // ---- Exactly one, without reclaims and dying handlers. ----

  /** No reclaim and no dying handler in the first `n` steps. */
  ghost predicate Calm(r: Run, n: nat)
    requires n <= |r.steps|
  {
    forall j | 0 <= j < n :: !r.steps[j].Claim? && !r.steps[j].HandlerDies?
  }

  /** Each message has at most one handler, as long as it is pending. */
  ghost predicate OneEach(s: State) {
    && (forall h | h in s.handlers :: s.handlers[h].message in s.stream.pending)
    && (forall h, k | h in s.handlers && k in s.handlers && h != k :: s.handlers[h].message != s.handlers[k].message)
  }

  lemma ReadOneEach(s: State, m: Id)
    requires OneEach(s) && WellFormed(s.stream) && IsNext(s.stream, m)
    ensures OneEach(ConsumeEffect(s, m))
  {
  }

  lemma AckOneEach(s: State, h: Id)
    requires OneEach(s) && CanAcknowledge(s, h)
    ensures OneEach(AcknowledgeEffect(s, h))
  {
    hide LeftAlone, Targets;
  }

  ghost predicate SameMessages(s: State, t: State) {
    t.stream == s.stream && forall h | h in t.handlers :: h in s.handlers && t.handlers[h].message == s.handlers[h].message
  }

  lemma AnsweringSameMessages(c: Config, s: State, step: Step, t: State)
    requires WorkerNext(c, s, step, t) && (step.Respond? || step.SaveDelivery?)
    ensures SameMessages(s, t)
  {
  }

  lemma LookingSameMessages(c: Config, s: State, step: Step, t: State)
    requires WorkerNext(c, s, step, t) && (step.Resolve? || step.DeliverNext?)
    ensures SameMessages(s, t)
  {
    hide LeftAlone, Targets, IsResolution;
    match step
    case Resolve(_, _) => assert SameMessages(s, t);
    case DeliverNext(h) => hide DeliverNextEffect; NextList(c, s, h); DeliverShape(c, s, h);
  }

  lemma WorkerOneEach(c: Config, s: State, step: Step, t: State)
    requires WorkerNext(c, s, step, t) && OneEach(s) && WellFormed(s.stream) && !step.Claim? && !step.HandlerDies?
    ensures OneEach(t)
  {
    if step.Consume? || step.Acknowledge? {
      hide OneEach, WellFormed, ConsumeEffect, AcknowledgeEffect, IsNext;
      match step
      case Consume(m) => ReadOneEach(s, m);
      case Acknowledge(h) => AckOneEach(s, h);
    } else {
      if step.Respond? || step.SaveDelivery? {
        AnsweringSameMessages(c, s, step, t);
      } else {
        LookingSameMessages(c, s, step, t);
      }
      hide WorkerNext;
    }
  }

  lemma OneEachStep(c: Config, s: State, step: Step, t: State)
    requires Next(c, s, step, t) && OneEach(s) && WellFormed(s.stream) && !step.Claim? && !step.HandlerDies?
    ensures OneEach(t)
  {
    hide ApiNext, PublisherNext, SchedulerNext, WorkerNext, WellFormed;
    if WorkerNext(c, s, step, t) { WorkerOneEach(c, s, step, t); }
    else if ApiNext(c, s, step, t) { ApiFrames(c, s, step, t); }
    else if PublisherNext(c, s, step, t) { PublisherFrames(c, s, step, t); PublisherStream(c, s, step, t); }
    else { SchedulerFrames(c, s, step, t); SchedulerStream(c, s, step, t); }
  }

  lemma {:induction false} AlwaysOneEach(c: Config, r: Run, n: nat)
    requires IsHistory(c, r) && n < |r.states| && Calm(r, n)
    ensures OneEach(r.states[n])
  {
    hide Next, OneEach, Sound;
    if n == 0 {
      assert OneEach(Init) by { NoneYet(); }
    } else {
      AlwaysOneEach(c, r, n - 1);
      AlwaysSound(c, r, n - 1);
      BoundsOf(r.states[n - 1]);
      OneEachStep(c, r.states[n - 1], r.steps[n - 1], r.states[n]);
    }
  }

  lemma NoneYet()
    ensures OneEach(Init)
  {
  }

  ghost predicate OnList(s: State, h: Id, m: Id, p: Id) {
    h in s.handlers && s.handlers[h].message == m && p in Listed(s.handlers[h])
  }

  ghost predicate Found(log: History, m: Id, p: Id) {
    m in log.resolved && p in log.resolved[m]
  }

  /** An endpoint that was found for the message has its row, or is on a handler's list, or is gone. */
  ghost predicate Owed(s: State, m: Id, p: Id, made: nat) {
    m in s.stream.entries && Found(s.log, m, p) ==>
      p < s.nextId && (made >= 1 || Gone(s, EventOf(s, m), p) || exists h :: OnList(s, h, m, p))
  }

  /** Steps that leave the handlers and what they found alone. */
  lemma QuietOwed(s: State, t: State, m: Id, p: Id, made: nat)
    requires Owed(s, m, p, made) && Traced(s, t) && EventsKnown(s) && t.handlers == s.handlers && t.log.resolved == s.log.resolved
    requires Recorded(s.handlers, s.stream, s.log)
    ensures Owed(t, m, p, made)
  {
    if Found(t.log, m, p) {
      assert Focused(s.stream, s.log, m);
      if h :| OnList(s, h, m, p) {
        assert OnList(t, h, m, p);
      }
    }
  }

  /** A step of one handler that keeps the lists of the others. */
  lemma MovedOwed(s: State, t: State, h: Id, m: Id, p: Id, made: nat, made': nat)
    requires Owed(s, m, p, made) && Traced(s, t) && EventsKnown(s) && made <= made'
    requires t.stream.entries == s.stream.entries
    requires forall k | k in s.handlers && k != h :: k in t.handlers && t.handlers[k] == s.handlers[k]
    requires Found(t.log, m, p) && !Found(s.log, m, p) ==> p < t.nextId && OnList(t, h, m, p)
    requires OnList(s, h, m, p) ==> OnList(t, h, m, p) || made' >= 1 || (m in t.stream.entries && Gone(t, EventOf(t, m), p))
    ensures Owed(t, m, p, made')
  {
    if m in t.stream.entries && Found(t.log, m, p) && Found(s.log, m, p) {
      if k :| OnList(s, k, m, p) {
        assert k != h ==> OnList(t, k, m, p);
      }
    }
  }

  lemma ResolveOwed(s: State, h: Id, endpoints: seq<Id>, m: Id, p: Id, made: nat)
    requires Owed(s, m, p, made) && CanResolve(s, h, endpoints) && EventsKnown(s) && IdsBounded(s)
    requires EndpointsOk(s.db.endpoints, s.log) && Traced(s, ResolveEffect(s, h, endpoints))
    ensures Owed(ResolveEffect(s, h, endpoints), m, p, made)
  {
    hide LeftAlone, Targets, Traced, Owed;
    var t := ResolveEffect(s, h, endpoints);
    if Found(t.log, m, p) && !Found(s.log, m, p) {
      assert Resolves(s.db, HandlerPayload(s, h), p);
      assert EndpointOk(p, s.db.endpoints[p], s.log);
    }
    MovedOwed(s, t, h, m, p, made, made);
  }

  lemma DeliverOwed(c: Config, s: State, h: Id, m: Id, p: Id, made: nat)
    requires Owed(s, m, p, made) && CanDeliverNext(s, h) && EventsKnown(s) && Traced(s, DeliverNextEffect(c, s, h))
    ensures Owed(DeliverNextEffect(c, s, h), m, p, made + Bit(MakesRow(s, DeliverNext(h), m, p)))
  {
    var t, todo := DeliverNextEffect(c, s, h), s.handlers[h].phase.todo;
    NextList(c, s, h);
    DeliverShape(c, s, h);
    SkipIsGone(c, s, h);
    hide DeliverNextEffect, Owed, Traced;
    assert todo == [todo[0]] + todo[1..];
    MovedOwed(s, t, h, m, p, made, made + Bit(MakesRow(s, DeliverNext(h), m, p)));
  }

  lemma LookingOwed(c: Config, s: State, step: Step, t: State, m: Id, p: Id, made: nat)
    requires WorkerNext(c, s, step, t) && (step.Resolve? || step.DeliverNext?)
    requires Owed(s, m, p, made) && Traced(s, t) && EventsKnown(s) && IdsBounded(s) && EndpointsOk(s.db.endpoints, s.log)
    ensures Owed(t, m, p, made + Bit(MakesRow(s, step, m, p)))
  {
    hide Owed, Traced, EventsKnown, ResolveEffect, DeliverNextEffect, LeftAlone, Targets, EndpointsOk, Gone, IdsBounded;
    match step
    case Resolve(h, endpoints) => ResolveOwed(s, h, endpoints, m, p, made);
    case DeliverNext(h) => DeliverOwed(c, s, h, m, p, made);
  }

  lemma AnsweringOwed(c: Config, s: State, step: Step, t: State, m: Id, p: Id, made: nat)
    requires WorkerNext(c, s, step, t) && (step.Respond? || step.SaveDelivery?)
    requires Owed(s, m, p, made) && Traced(s, t) && EventsKnown(s)
    ensures Owed(t, m, p, made)
  {
    hide Owed, Traced, EventsKnown, Gone;
    MovedOwed(s, t, step.handler, m, p, made, made);
  }

  lemma WorkerOwed(c: Config, s: State, step: Step, t: State, m: Id, p: Id, made: nat)
    requires WorkerNext(c, s, step, t) && Owed(s, m, p, made) && Traced(s, t) && EventsKnown(s) && IdsBounded(s)
    requires EndpointsOk(s.db.endpoints, s.log) && !step.HandlerDies?
    ensures Owed(t, m, p, made + Bit(MakesRow(s, step, m, p)))
  {
    hide Owed, Traced, EventsKnown, ResolveEffect, DeliverNextEffect, LeftAlone, Targets, EndpointsOk, Gone;
    if step.Resolve? || step.DeliverNext? {
      hide WorkerNext;
      LookingOwed(c, s, step, t, m, p, made);
    } else if step.Respond? || step.SaveDelivery? {
      hide WorkerNext;
      AnsweringOwed(c, s, step, t, m, p, made);
    } else {
      match step
      case Consume(_) => MovedOwed(s, t, s.nextId, m, p, made, made);
      case Claim(_) => MovedOwed(s, t, s.nextId, m, p, made, made);
      case Acknowledge(h) => MovedOwed(s, t, h, m, p, made, made);
    }
  }

  lemma OwedStep(c: Config, s: State, step: Step, t: State, m: Id, p: Id, made: nat)
    requires Next(c, s, step, t) && Owed(s, m, p, made) && Sound(s) && Scoped(s) && Safe(s) && !step.HandlerDies?
    ensures Owed(t, m, p, made + Bit(MakesRow(s, step, m, p)))
  {
    hide Next, WorkerNext, Sound, Scoped, Safe, Owed, Traced, EventsKnown, Recorded, EndpointsOk, IdsBounded, HandlersOk, MakesRow;
    PartsOf(s);
    StepTraced(c, s, step, t);
    if WorkerNext(c, s, step, t) {
      WorkerOwed(c, s, step, t, m, p, made);
    } else {
      OthersMakeNothing(c, s, step, t, m, p);
      QuietOwed(s, t, m, p, made);
    }
  }

  lemma {:induction false} AlwaysOwed(c: Config, r: Run, n: nat, m: Id, p: Id)
    requires IsHistory(c, r) && n < |r.states| && Calm(r, n)
    ensures Owed(r.states[n], m, p, RowsMade(r, m, p, n))
  {
    hide Next, Owed, Sound, Scoped, Safe, MakesRow;
    if n == 0 {
      assert Owed(Init, m, p, 0) by { NothingOwed(m, p); }
    } else {
      AlwaysOwed(c, r, n - 1, m, p);
      AlwaysSound(c, r, n - 1);
      AlwaysScoped(c, r, n - 1);
      AlwaysSafe(c, r, n - 1);
      OwedStep(c, r.states[n - 1], r.steps[n - 1], r.states[n], m, p, RowsMade(r, m, p, n - 1));
    }
  }

  lemma NothingOwed(m: Id, p: Id)
    ensures Owed(Init, m, p, 0)
  {
  }

  lemma {:induction false} NoClaims(r: Run, m: Id, n: nat)
    requires n <= |r.steps| && Calm(r, n)
    ensures Claims(r, m, n) == 0
  {
    if n != 0 {
      NoClaims(r, m, n - 1);
    }
  }

  /**
   * Exactly one delivery row per message and endpoint: in a run without reclaims and dying handlers, every endpoint that
   * was found for an acknowledged message has had exactly one row made for it, unless the event or the endpoint is gone.
   */
  lemma OneRowPerEndpoint(c: Config, r: Run, n: nat, m: Id, p: Id)
    requires IsHistory(c, r) && n < |r.states| && Calm(r, n)
    requires m in r.states[n].stream.entries && !Unacked(r.states[n].stream, m) && Found(r.states[n].log, m, p)
    requires EventOf(r.states[n], m) in r.states[n].db.events && p in r.states[n].db.endpoints
    ensures RowsMade(r, m, p, n) == 1
  {
    hide Next;
    AlwaysOwed(c, r, n, m, p);
    AlwaysOneEach(c, r, n);
    RowsWithinReclaims(c, r, n, m, p);
    NoClaims(r, m, n);
  }
}
