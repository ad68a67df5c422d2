/**
 * Exactly when the processes can still deliver an event to an endpoint by themselves. Something in the stores or in a
 * running handler has to lead there; if nothing does, no continuation without a request to the API ever delivers.
 */
module Reach {
  import opened Common
  import opened Tables
  import opened Broker
  import opened Breaker
  import opened Pipeline
  import opened Frames
  import opened Integrity
  import opened Tenancy
  import opened NoLoss
  import opened Traces
  import opened Subscribers
  import opened Deliveries
  import opened PersistedBreaker
  import opened Recovery

  ghost predicate About(s: State, x: Handler, e: Id) {
    x.message in s.stream.entries && s.stream.entries[x.message].payload.event == e
  }

  /** The handler has sent its request to the endpoint, and nothing bad has come of it yet. */
  ghost predicate AboutToDeliver(s: State, x: Handler, e: Id, p: Id) {
    && About(s, x, e)
    && match x.phase
       case Sending(d, q, _, _, _) => q == p && d in s.db.deliveries
       case Saving(_, q, _, row, _, _) => q == p && row.status == Delivered
       case _ => false
  }

  /** The handler will come to the endpoint, or is about to schedule its retry. */
  ghost predicate WillComeTo(s: State, x: Handler, e: Id, p: Id) {
    && About(s, x, e)
    && match x.phase
       case Starting => Meant(s.stream, x.message, e, p)
       case FanOut(todo) => p in todo
       case Sending(d, _, rest, _, _) => d in s.db.deliveries && p in rest
       case Saving(_, q, rest, row, circuit, _) => p in rest || (q == p && row.status == Retrying && circuit.None?)
  }

  ghost predicate Direct(s: State, e: Id, p: Id) {
    DeliveredTo(s, e, p) || exists h :: h in s.handlers && AboutToDeliver(s, s.handlers[h], e, p)
  }

  /** A scheduled retry, a pending outbox row, an unacknowledged message or a handler that leads to the pair. */
  ghost predicate Indirect(s: State, e: Id, p: Id) {
    || (exists d :: Waits(s.db.deliveries, d, e, p))
    || (exists o :: o in s.db.outbox && s.db.outbox[o].status == Pending && For(s.db.outbox[o].payload, e, p))
    || (exists m :: Unacked(s.stream, m) && Meant(s.stream, m, e, p))
    || (exists h :: h in s.handlers && WillComeTo(s, s.handlers[h], e, p))
  }

  ghost predicate CircuitClosed(s: State, p: Id) {
    p in s.db.endpoints && s.db.endpoints[p].circuit == Closed
  }

  /** What a look at the two stores and at the handlers can tell: something still leads to a delivery of the pair. */
  ghost predicate WithinReach(s: State, e: Id, p: Id) {
    Direct(s, e, p) || (CircuitClosed(s, p) && Indirect(s, e, p))
  }

  // ---- What leads there does lead there. ----

  /** A request that is out can be answered well, and its outcome saved. */
  lemma AnswerAndSave(c: Config, s: State, h: Id) returns (b: State, t: State)
    requires CanRespond(s, h) && s.handlers[h].phase.endpoint == s.db.deliveries[s.handlers[h].phase.delivery].endpoint
    ensures b == RespondEffect(c, s, h, OK.reply, OK.draw) && CanSaveDelivery(b, h) && t == SaveDeliveryEffect(b, h)
    ensures var phase := s.handlers[h].phase;
            IsDelivered(t.db.deliveries, phase.delivery, s.db.deliveries[phase.delivery].event, phase.endpoint)
    ensures b.db == s.db && b.handlers[h].phase.endpoint == s.handlers[h].phase.endpoint
    ensures b.handlers[h].phase.rest == s.handlers[h].phase.rest && b.handlers[h].message == s.handlers[h].message
    ensures h in b.handlers && b.stream == s.stream
  {
    b := RespondEffect(c, s, h, OK.reply, OK.draw);
    t := SaveDeliveryEffect(b, h);
  }

  /** After saving, the handler goes on with its list, and no circuit but that of the endpoint just called has changed. */
  lemma Saved(s: State, h: Id, p: Id)
    requires CanSaveDelivery(s, h) && p in s.db.endpoints && p != s.handlers[h].phase.endpoint
    ensures var t := SaveDeliveryEffect(s, h);
            && h in t.handlers && t.handlers[h].phase == FanOut(s.handlers[h].phase.rest)
            && t.handlers[h].message == s.handlers[h].message && t.stream == s.stream
            && p in t.db.endpoints && t.db.endpoints[p] == s.db.endpoints[p] && t.db.events.Keys == s.db.events.Keys
  {
  }

  lemma HandlerFacts(c: Config, r: Run, h: Id)
    requires IsHistory(c, r) && h in Last(r).handlers
    ensures HandlerOk(Last(r).handlers[h], Last(r).stream, Last(r).db.deliveries, Last(r).nextId)
    ensures HandlerRecorded(Last(r).handlers[h], Last(r).log)
    ensures forall d | d in Last(r).db.deliveries :: Last(r).db.deliveries[d].attempt == 1
  {
    hide Next;
    var n := |r.states| - 1;
    AlwaysSound(c, r, n);
    AlwaysSafe(c, r, n);
    SafeParts(Last(r));
    RowsAlwaysTruthful(c, r, n);
    forall d | d in Last(r).db.deliveries ensures Last(r).db.deliveries[d].attempt == 1 {
      assert RowOk(c, Last(r).db.deliveries[d], Last(r).now);
    }
  }

  lemma DirectDelivers(c: Config, r: Run, e: Id, p: Id)
    requires IsHistory(c, r) && Direct(Last(r), e, p)
    ensures CanStillBeDelivered(c, r, e, p)
  {
    hide At, Next;
    Here(c, r);
    var s := Last(r);
    if !DeliveredTo(s, e, p) {
      var h :| h in s.handlers && AboutToDeliver(s, s.handlers[h], e, p);
      HandlerFacts(c, r, h);
      var b, t, now := s, s, r;
      if s.handlers[h].phase.Sending? {
        b, t := AnswerAndSave(c, s, h);
        TurnAllowed(c, s, h, OK);
        now := WorkerGo(c, r, r, s, Respond(h, OK.reply, OK.draw), b);
      } else {
        t := SaveDeliveryEffect(s, h);
        assert IsDelivered(t.db.deliveries, s.handlers[h].phase.delivery, e, p);
      }
      TurnAllowed(c, b, h, OK);
      now := WorkerGo(c, r, now, b, SaveDelivery(h), t);
    }
  }

  /** A handler with the endpoint on its list delivers to it. */
  lemma ListDelivers(c: Config, r: Run, now: Run, s: State, h: Id, m: Id, e: Id, p: Id)
    requires At(c, r, now, s) && FansOut(s, h, m) && s.stream.entries[m].payload.event == e && Reaches(s, h, e, p)
    ensures CanStillBeDelivered(c, r, e, p)
  {
    hide At, Reaches, DeliveredTo;
    var longer, t := FinishFanOut(c, r, now, s, h, m, p);
  }

  lemma StartingDelivers(c: Config, r: Run, h: Id, e: Id, p: Id)
    requires IsHistory(c, r) && h in Last(r).handlers && WillComeTo(Last(r), Last(r).handlers[h], e, p)
    requires Ready(Last(r), e, p) && Last(r).handlers[h].phase.Starting?
    ensures CanStillBeDelivered(c, r, e, p)
  {
    hide At, Next, Ready, Resolves, Reaches;
    var s := Last(r);
    Here(c, r);
    HandlerFacts(c, r, h);
    ScopedAt(c, r, r, s);
    MeantResolves(s, s.handlers[h].message, e, p);
    EventThere(s, e, p);
    var now, t := Look(c, r, r, s, h, s.handlers[h].message);
    StillReady(s, t, e, p);
    OnTheList(t, h, e, p);
    ListDelivers(c, r, now, t, h, s.handlers[h].message, e, p);
  }

  lemma HeadIsApart(q: Id, rest: seq<Id>, p: Id)
    requires Distinct([q] + rest) && p in rest
    ensures p != q
  {
    var i :| 0 <= i < |rest| && rest[i] == p;
    assert ([q] + rest)[0] == q && ([q] + rest)[i + 1] == p;
  }

  lemma SavingDelivers(c: Config, r: Run, now: Run, s: State, h: Id, e: Id, p: Id)
    requires At(c, r, now, s) && CanSaveDelivery(s, h) && About(s, s.handlers[h], e) && Ready(s, e, p)
    requires p in s.handlers[h].phase.rest && p != s.handlers[h].phase.endpoint
    ensures CanStillBeDelivered(c, r, e, p)
  {
    hide At, WorkerNext;
    var t := SaveDeliveryEffect(s, h);
    Saved(s, h, p);
    TurnAllowed(c, s, h, OK);
    var longer := WorkerGo(c, r, now, s, SaveDelivery(h), t);
    ListDelivers(c, r, longer, t, h, s.handlers[h].message, e, p);
  }

  lemma SendingDelivers(c: Config, r: Run, h: Id, e: Id, p: Id)
    requires IsHistory(c, r) && h in Last(r).handlers && WillComeTo(Last(r), Last(r).handlers[h], e, p)
    requires Ready(Last(r), e, p) && Last(r).handlers[h].phase.Sending?
    ensures CanStillBeDelivered(c, r, e, p)
  {
    hide Next;
    var s := Last(r);
    Here(c, r);
    HandlerFacts(c, r, h);
    hide At, Ready, WorkerNext;
    HeadIsApart(s.handlers[h].phase.endpoint, s.handlers[h].phase.rest, p);
    var b, _ := AnswerAndSave(c, s, h);
    TurnAllowed(c, s, h, OK);
    var now := WorkerGo(c, r, r, s, Respond(h, OK.reply, OK.draw), b);
    SameReady(s, b, e, p);
    SavingDelivers(c, r, now, b, h, e, p);
  }

  lemma SameReady(s: State, t: State, e: Id, p: Id)
    requires Ready(s, e, p) && t.db == s.db && t.log.born == s.log.born
    ensures Ready(t, e, p)
  {
  }

  /** A retry that is about to be scheduled is scheduled, and then sent. */
  lemma SchedulingDelivers(c: Config, r: Run, h: Id, e: Id, p: Id)
    requires IsHistory(c, r) && h in Last(r).handlers && About(Last(r), Last(r).handlers[h], e) && Ready(Last(r), e, p)
    requires Last(r).handlers[h].phase.Saving? && Last(r).handlers[h].phase.endpoint == p
    requires Last(r).handlers[h].phase.row.status == Retrying && Last(r).handlers[h].phase.circuit.None?
    ensures CanStillBeDelivered(c, r, e, p)
  {
    hide Next;
    var s := Last(r);
    Here(c, r);
    HandlerFacts(c, r, h);
    TurnAllowed(c, s, h, OK);
    var t := SaveDeliveryEffect(s, h);
    var now := WorkerGo(c, r, r, s, SaveDelivery(h), t);
    assert Waits(t.db.deliveries, s.handlers[h].phase.delivery, e, p);
    assert Ready(t, e, p);
    ViaRetry(c, now, s.handlers[h].phase.delivery, e, p);
    Onwards(c, r, now, t, e, p);
  }

  lemma Onwards(c: Config, r: Run, now: Run, s: State, e: Id, p: Id)
    requires At(c, r, now, s) && CanStillBeDelivered(c, now, e, p)
    ensures CanStillBeDelivered(c, r, e, p)
  {
    var longer, t :| At(c, now, longer, t) && DeliveredTo(t, e, p);
    Chain(c, r, now, s, longer, t);
  }

  lemma HandlerDelivers(c: Config, r: Run, h: Id, e: Id, p: Id)
    requires IsHistory(c, r) && h in Last(r).handlers && WillComeTo(Last(r), Last(r).handlers[h], e, p) && Ready(Last(r), e, p)
    ensures CanStillBeDelivered(c, r, e, p)
  {
    hide Next, CanStillBeDelivered;
    var s, x := Last(r), Last(r).handlers[h];
    HandlerFacts(c, r, h);
    Here(c, r);
    match x.phase
    case Starting => StartingDelivers(c, r, h, e, p);
    case FanOut(todo) => ListDelivers(c, r, r, s, h, x.message, e, p);
    case Sending(_, _, _, _, _) => SendingDelivers(c, r, h, e, p);
    case Saving(_, q, rest, _, _, _) =>
      if p in rest {
        HeadIsApart(q, rest, p);
        SavingDelivers(c, r, r, s, h, e, p);
      } else {
        SchedulingDelivers(c, r, h, e, p);
      }
  }

  lemma WithinReachDelivers(c: Config, r: Run, e: Id, p: Id)
    requires IsHistory(c, r) && c.batchSize >= 1 && Ready(Last(r), e, p) && WithinReach(Last(r), e, p)
    ensures CanStillBeDelivered(c, r, e, p)
  {
    hide Next, CanStillBeDelivered, Direct, Ready, WillComeTo, Waits;
    var s := Last(r);
    if Direct(s, e, p) {
      DirectDelivers(c, r, e, p);
    } else if d :| Waits(s.db.deliveries, d, e, p) {
      ViaRetry(c, r, d, e, p);
    } else if o :| o in s.db.outbox && s.db.outbox[o].status == Pending && For(s.db.outbox[o].payload, e, p) {
      ViaOutbox(c, r, o, e, p);
    } else if m :| Unacked(s.stream, m) && Meant(s.stream, m, e, p) {
      ViaMessage(c, r, m, e, p);
    } else {
      var h :| h in s.handlers && WillComeTo(s, s.handlers[h], e, p);
      HandlerDelivers(c, r, h, e, p);
    }
  }

  // ---- What does not lead there never will. ----

  lemma SameReach(s: State, t: State, e: Id, p: Id)
    requires WithinReach(t, e, p) && t.db == s.db && t.stream == s.stream && t.handlers == s.handlers
    ensures WithinReach(s, e, p)
  {
    if h :| h in t.handlers && AboutToDeliver(t, t.handlers[h], e, p) {
      assert AboutToDeliver(s, s.handlers[h], e, p);
    } else if !Direct(t, e, p) {
      if h :| h in t.handlers && WillComeTo(t, t.handlers[h], e, p) {
        assert WillComeTo(s, s.handlers[h], e, p);
      }
    }
  }

  /** A step that leaves deliveries, endpoints and handlers alone, and adds only what leads there anyway. */
  lemma SupplyReach(s: State, t: State, e: Id, p: Id)
    requires WithinReach(t, e, p) && HandlersOk(s.handlers, s.stream, s.db.deliveries, s.nextId)
    requires t.handlers == s.handlers && t.db.endpoints == s.db.endpoints && t.db.deliveries.Keys == s.db.deliveries.Keys
    requires forall m | m in s.stream.entries :: m in t.stream.entries && t.stream.entries[m] == s.stream.entries[m]
    requires forall d | IsDelivered(t.db.deliveries, d, e, p) :: IsDelivered(s.db.deliveries, d, e, p)
    requires forall d | Waits(t.db.deliveries, d, e, p) :: Waits(s.db.deliveries, d, e, p)
    requires forall o | o in t.db.outbox && t.db.outbox[o].status == Pending && For(t.db.outbox[o].payload, e, p) ::
               Indirect(s, e, p)
    requires forall m | Unacked(t.stream, m) && Meant(t.stream, m, e, p) :: Indirect(s, e, p)
    ensures WithinReach(s, e, p)
  {
    hide Indirect;
    if h :| h in t.handlers && AboutToDeliver(t, t.handlers[h], e, p) {
      assert HandlerOk(s.handlers[h], s.stream, s.db.deliveries, s.nextId);
      assert AboutToDeliver(s, s.handlers[h], e, p);
    } else if DeliveredTo(t, e, p) {
    } else {
      SupplyIndirect(s, t, e, p);
    }
  }

  lemma SupplyIndirect(s: State, t: State, e: Id, p: Id)
    requires Indirect(t, e, p) && HandlersOk(s.handlers, s.stream, s.db.deliveries, s.nextId)
    requires t.handlers == s.handlers && t.db.deliveries.Keys == s.db.deliveries.Keys
    requires forall m | m in s.stream.entries :: m in t.stream.entries && t.stream.entries[m] == s.stream.entries[m]
    requires forall d | Waits(t.db.deliveries, d, e, p) :: Waits(s.db.deliveries, d, e, p)
    requires forall o | o in t.db.outbox && t.db.outbox[o].status == Pending && For(t.db.outbox[o].payload, e, p) ::
               Indirect(s, e, p)
    requires forall m | Unacked(t.stream, m) && Meant(t.stream, m, e, p) :: Indirect(s, e, p)
    ensures Indirect(s, e, p)
  {
    if h :| h in t.handlers && WillComeTo(t, t.handlers[h], e, p) {
      assert HandlerOk(s.handlers[h], s.stream, s.db.deliveries, s.nextId);
      assert WillComeTo(s, s.handlers[h], e, p);
    }
  }

  lemma PendingBefore(c: Config, s: State, step: Step, t: State, o: Id)
    requires PublisherNext(c, s, step, t) && PublishLocks(s.publishers, s.db.outbox)
    requires o in t.db.outbox && t.db.outbox[o].status == Pending
    ensures o in s.db.outbox && s.db.outbox[o].status == Pending && s.db.outbox[o].payload == t.db.outbox[o].payload
  {
    hide PublishLocks;
    if step.PublishCommit? && o in s.publishers[step.txn].done {
      LockedPending(s.publishers, s.db.outbox, step.txn, o);
    }
  }

  lemma PublishedFromPending(c: Config, s: State, step: Step, t: State, m: Id) returns (o: Id)
    requires PublisherNext(c, s, step, t) && PublishLocks(s.publishers, s.db.outbox)
    requires m in t.stream.entries && m !in s.stream.entries
    ensures o in s.db.outbox && s.db.outbox[o].status == Pending && s.db.outbox[o].payload == t.stream.entries[m].payload
  {
    hide PublishLocks;
    o := step.row;
    LockedPending(s.publishers, s.db.outbox, step.txn, o);
  }

  lemma PublisherReach(c: Config, s: State, step: Step, t: State, e: Id, p: Id)
    requires PublisherNext(c, s, step, t) && Sound(s) && WithinReach(t, e, p)
    ensures WithinReach(s, e, p)
  {
    PublisherFrames(c, s, step, t);
    PublisherStream(c, s, step, t);
    hide PublisherNext, PublishLocks, RequeueLocks, HandlersOk, WithinReach;
    forall o | o in t.db.outbox && t.db.outbox[o].status == Pending && For(t.db.outbox[o].payload, e, p)
      ensures Indirect(s, e, p)
    {
      PendingBefore(c, s, step, t, o);
    }
    forall m | Unacked(t.stream, m) && Meant(t.stream, m, e, p) ensures Indirect(s, e, p) {
      if m in s.stream.entries {
        assert Unacked(s.stream, m) && Meant(s.stream, m, e, p);
      } else {
        var o := PublishedFromPending(c, s, step, t, m);
        assert For(s.db.outbox[o].payload, e, p);
      }
    }
    SupplyReach(s, t, e, p);
  }

  lemma WaitedBefore(c: Config, s: State, step: Step, t: State, d: Id, e: Id, p: Id)
    requires SchedulerNext(c, s, step, t) && !step.Retention?
    ensures Waits(t.db.deliveries, d, e, p) ==> Waits(s.db.deliveries, d, e, p)
    ensures IsDelivered(t.db.deliveries, d, e, p) ==> IsDelivered(s.db.deliveries, d, e, p)
    ensures t.db.deliveries.Keys == s.db.deliveries.Keys
  {
  }

  lemma SentFromWaiting(c: Config, s: State, step: Step, t: State, m: Id, e: Id, p: Id) returns (d: Id)
    requires SchedulerNext(c, s, step, t) && RequeueLocks(s.requeues, s.db.deliveries)
    requires m !in s.stream.entries && Meant(t.stream, m, e, p)
    ensures Waits(s.db.deliveries, d, e, p)
  {
    d := if step.RequeueRow? then step.row else step.lost.value;
    assert RequeueTxnOk(s.requeues[step.txn], s.db.deliveries);
  }

  lemma RequeueReach(c: Config, s: State, step: Step, t: State, e: Id, p: Id)
    requires SchedulerNext(c, s, step, t) && !step.Retention? && Sound(s) && WithinReach(t, e, p)
    ensures WithinReach(s, e, p)
  {
    SchedulerFrames(c, s, step, t);
    SchedulerStream(c, s, step, t);
    hide SchedulerNext, PublishLocks, RequeueLocks, HandlersOk, WithinReach;
    forall d: Id
      ensures Waits(t.db.deliveries, d, e, p) ==> Waits(s.db.deliveries, d, e, p)
      ensures IsDelivered(t.db.deliveries, d, e, p) ==> IsDelivered(s.db.deliveries, d, e, p)
      ensures t.db.deliveries.Keys == s.db.deliveries.Keys
    {
      WaitedBefore(c, s, step, t, d, e, p);
    }
    assert t.db.deliveries.Keys == s.db.deliveries.Keys by { WaitedBefore(c, s, step, t, 0, e, p); }
    forall m | Unacked(t.stream, m) && Meant(t.stream, m, e, p) ensures Indirect(s, e, p) {
      if m in s.stream.entries {
        assert Unacked(s.stream, m) && Meant(s.stream, m, e, p);
      } else {
        var d := SentFromWaiting(c, s, step, t, m, e, p);
      }
    }
    SupplyReach(s, t, e, p);
  }

  // ---- The worker's steps. ----

  /** A change of one handler, with the deliveries as they were. */
  lemma HandlerReach(s: State, t: State, h: Id, e: Id, p: Id)
    requires WithinReach(t, e, p) && t.stream.entries == s.stream.entries && t.db.outbox == s.db.outbox
    requires t.db.deliveries == s.db.deliveries && t.db.endpoints == s.db.endpoints
    requires forall m | Unacked(t.stream, m) :: Unacked(s.stream, m)
    requires forall k | k in t.handlers && k != h :: k in s.handlers && t.handlers[k] == s.handlers[k]
    requires h in t.handlers && AboutToDeliver(t, t.handlers[h], e, p) ==> WithinReach(s, e, p)
    requires h in t.handlers && WillComeTo(t, t.handlers[h], e, p) && CircuitClosed(s, p) ==> WithinReach(s, e, p)
    ensures WithinReach(s, e, p)
  {
    if DeliveredTo(t, e, p) {
      assert DeliveredTo(s, e, p);
    } else if k :| k in t.handlers && AboutToDeliver(t, t.handlers[k], e, p) {
      assert k != h ==> AboutToDeliver(s, s.handlers[k], e, p);
    } else if k :| k in t.handlers && WillComeTo(t, t.handlers[k], e, p) {
      assert k != h ==> WillComeTo(s, s.handlers[k], e, p);
    } else if m :| Unacked(t.stream, m) && Meant(t.stream, m, e, p) {
      assert Meant(s.stream, m, e, p);
    }
  }

  lemma Indirectly(s: State, e: Id, p: Id)
    requires CircuitClosed(s, p) && Indirect(s, e, p)
    ensures WithinReach(s, e, p)
  {
  }

  lemma ByHandler(s: State, h: Id, e: Id, p: Id)
    requires h in s.handlers
    requires AboutToDeliver(s, s.handlers[h], e, p) || (CircuitClosed(s, p) && WillComeTo(s, s.handlers[h], e, p))
    ensures WithinReach(s, e, p)
  {
  }

  lemma TakeReach(s: State, t: State, h: Id, m: Id, e: Id, p: Id)
    requires WithinReach(t, e, p) && t.db == s.db && t.stream.entries == s.stream.entries && Unacked(s.stream, m)
    requires (forall x | Unacked(t.stream, x) :: Unacked(s.stream, x)) && t.handlers == s.handlers[h := Handler(m, {}, Starting)]
    ensures WithinReach(s, e, p)
  {
    hide WithinReach;
    if WillComeTo(t, t.handlers[h], e, p) && CircuitClosed(s, p) {
      assert Meant(s.stream, m, e, p);
      Indirectly(s, e, p);
    }
    HandlerReach(s, t, h, e, p);
  }

  lemma ResolveReach(s: State, h: Id, endpoints: seq<Id>, e: Id, p: Id)
    requires CanResolve(s, h, endpoints) && WithinReach(ResolveEffect(s, h, endpoints), e, p)
    ensures WithinReach(s, e, p)
  {
    hide WithinReach, LeftAlone;
    var t := ResolveEffect(s, h, endpoints);
    if WillComeTo(t, t.handlers[h], e, p) && CircuitClosed(s, p) {
      assert Resolves(s.db, HandlerPayload(s, h), p);
      ByHandler(s, h, e, p);
    }
    HandlerReach(s, t, h, e, p);
  }

  lemma RespondReach(c: Config, s: State, h: Id, reply: Reply, draw: real, e: Id, p: Id)
    requires CanRespond(s, h) && WithinReach(RespondEffect(c, s, h, reply, draw), e, p)
    ensures WithinReach(s, e, p)
  {
    hide WithinReach;
    var t := RespondEffect(c, s, h, reply, draw);
    if AboutToDeliver(t, t.handlers[h], e, p) || (WillComeTo(t, t.handlers[h], e, p) && CircuitClosed(s, p)) {
      ByHandler(s, h, e, p);
    }
    HandlerReach(s, t, h, e, p);
  }

  lemma EndReach(s: State, t: State, h: Id, e: Id, p: Id)
    requires WithinReach(t, e, p) && t.db == s.db && t.stream.entries == s.stream.entries
    requires (forall m | Unacked(t.stream, m) :: Unacked(s.stream, m)) && t.handlers == s.handlers - {h}
    ensures WithinReach(s, e, p)
  {
    hide WithinReach;
    HandlerReach(s, t, h, e, p);
  }

  /** A new row for an endpoint: a request only with a closed circuit, and otherwise a deferral. */
  lemma NextTurn(c: Config, s: State, h: Id, e: Id, p: Id)
    requires CanDeliverNext(s, h) && EndpointsStored(c, s.db.endpoints)
    requires var t := DeliverNextEffect(c, s, h);
             || AboutToDeliver(t, t.handlers[h], e, p)
             || (CircuitClosed(s, p) && (WillComeTo(t, t.handlers[h], e, p) || Waits(t.db.deliveries, s.nextId, e, p)) && s.nextId !in s.db.deliveries)
    ensures WithinReach(s, e, p)
  {
    hide LeftAlone, WithinReach;
    var q := s.handlers[h].phase.todo[0];
    assert q in s.db.endpoints ==> CircuitOk(c, s.db.endpoints[q].circuit);
    ByHandler(s, h, e, p);
  }

  lemma DeliverReach(c: Config, s: State, h: Id, e: Id, p: Id)
    requires CanDeliverNext(s, h) && EndpointsStored(c, s.db.endpoints) && IdsBounded(s)
    requires HandlersOk(s.handlers, s.stream, s.db.deliveries, s.nextId)
    requires WithinReach(DeliverNextEffect(c, s, h), e, p)
    ensures WithinReach(s, e, p)
  {
    var t, d := DeliverNextEffect(c, s, h), s.nextId;
    DeliverShape(c, s, h);
    NewRowIsOpen(c, s, h);
    hide DeliverNextEffect, IdsBounded, HandlersOk;
    if AboutToDeliver(t, t.handlers[h], e, p)
       || (CircuitClosed(s, p) && (WillComeTo(t, t.handlers[h], e, p) || Waits(t.db.deliveries, d, e, p))) {
      NextTurn(c, s, h, e, p);
    } else {
      OthersReach(s, t, h, d, e, p);
    }
  }

  lemma NewRowIsOpen(c: Config, s: State, h: Id)
    requires CanDeliverNext(s, h) && IdsBounded(s)
    ensures var t := DeliverNextEffect(c, s, h);
            && t.db.endpoints == s.db.endpoints && t.db.outbox == s.db.outbox && s.nextId !in s.db.deliveries
            && (s.nextId in t.db.deliveries ==> t.db.deliveries[s.nextId].status != Delivered)
  {
    hide LeftAlone;
  }

  /** What does not come from the handler in question, nor from the row in question, was there before. */
  lemma OthersReach(s: State, t: State, h: Id, d: Id, e: Id, p: Id)
    requires WithinReach(t, e, p) && HandlersOk(s.handlers, s.stream, s.db.deliveries, s.nextId) && s.nextId <= d
    requires t.stream == s.stream && t.db.outbox == s.db.outbox && t.db.endpoints == s.db.endpoints
    requires h in s.handlers && h in t.handlers && t.handlers == s.handlers[h := t.handlers[h]]
    requires forall x | x in t.db.deliveries && x != d :: x in s.db.deliveries && t.db.deliveries[x] == s.db.deliveries[x]
    requires !IsDelivered(t.db.deliveries, d, e, p) && !AboutToDeliver(t, t.handlers[h], e, p)
    requires CircuitClosed(s, p) ==> !WillComeTo(t, t.handlers[h], e, p) && !Waits(t.db.deliveries, d, e, p)
    ensures WithinReach(s, e, p)
  {
    if x :| IsDelivered(t.db.deliveries, x, e, p) {
      assert IsDelivered(s.db.deliveries, x, e, p);
    } else if k :| k in t.handlers && AboutToDeliver(t, t.handlers[k], e, p) {
      assert HandlerOk(s.handlers[k], s.stream, s.db.deliveries, s.nextId);
      assert AboutToDeliver(s, s.handlers[k], e, p);
    } else if x :| Waits(t.db.deliveries, x, e, p) {
      assert Waits(s.db.deliveries, x, e, p);
    } else if k :| k in t.handlers && WillComeTo(t, t.handlers[k], e, p) {
      assert HandlerOk(s.handlers[k], s.stream, s.db.deliveries, s.nextId);
      assert WillComeTo(s, s.handlers[k], e, p);
    }
  }

  /** A saved circuit is never closed by the saving. */
  lemma ClosedBefore(c: Config, s: State, h: Id, p: Id)
    requires CanSaveDelivery(s, h) && HandlerStored(c, s.handlers[h]) && CircuitClosed(SaveDeliveryEffect(s, h), p)
    ensures CircuitClosed(s, p) && (s.handlers[h].phase.endpoint == p ==> s.handlers[h].phase.circuit.None?)
  {
  }

  lemma SaveReach(c: Config, s: State, h: Id, e: Id, p: Id)
    requires CanSaveDelivery(s, h) && HandlerStored(c, s.handlers[h]) && WithinReach(SaveDeliveryEffect(s, h), e, p)
    requires HandlersOk(s.handlers, s.stream, s.db.deliveries, s.nextId)
    ensures WithinReach(s, e, p)
  {
    var t, d := SaveDeliveryEffect(s, h), s.handlers[h].phase.delivery;
    assert HandlerOk(s.handlers[h], s.stream, s.db.deliveries, s.nextId);
    if CircuitClosed(t, p) {
      ClosedBefore(c, s, h, p);
    }
    if x :| IsDelivered(t.db.deliveries, x, e, p) {
      assert x != d ==> IsDelivered(s.db.deliveries, x, e, p);
      assert x == d ==> AboutToDeliver(s, s.handlers[h], e, p);
    } else if k :| k in t.handlers && AboutToDeliver(t, t.handlers[k], e, p) {
      assert AboutToDeliver(s, s.handlers[k], e, p);
    } else if x :| Waits(t.db.deliveries, x, e, p) {
      assert x != d ==> Waits(s.db.deliveries, x, e, p);
      assert x == d ==> WillComeTo(s, s.handlers[h], e, p);
    } else if k :| k in t.handlers && WillComeTo(t, t.handlers[k], e, p) {
      assert WillComeTo(s, s.handlers[k], e, p);
    }
  }

  lemma WorkerReach(c: Config, s: State, step: Step, t: State, e: Id, p: Id)
    requires WorkerNext(c, s, step, t) && Sound(s) && Stored(c, s) && WithinReach(t, e, p)
    ensures WithinReach(s, e, p)
  {
    hide WithinReach, PublishLocks, RequeueLocks, HandlersOk, Refs, IdsBounded, EndpointsStored;
    hide ResolveEffect, DeliverNextEffect, RespondEffect, SaveDeliveryEffect, LeftAlone, Targets;
    match step
    case Consume(m) => TakeReach(s, t, s.nextId, m, e, p);
    case Claim(m) => TakeReach(s, t, s.nextId, m, e, p);
    case Resolve(h, endpoints) => ResolveReach(s, h, endpoints, e, p);
    case DeliverNext(h) => DeliverReach(c, s, h, e, p);
    case Respond(h, reply, draw) => RespondReach(c, s, h, reply, draw, e, p);
    case SaveDelivery(h) => assert HandlerStored(c, s.handlers[h]); SaveReach(c, s, h, e, p);
    case Acknowledge(h) => EndReach(s, t, h, e, p);
    case HandlerDies(h) => EndReach(s, t, h, e, p);
    case _ =>
  }

  /** Removing rows brings nothing within reach. */
  lemma FewerRowsReach(s: State, t: State, e: Id, p: Id)
    requires WithinReach(t, e, p)
    requires t.stream == s.stream && t.handlers == s.handlers && t.db.endpoints == s.db.endpoints
    requires forall o | o in t.db.outbox :: o in s.db.outbox && t.db.outbox[o] == s.db.outbox[o]
    requires forall d | d in t.db.deliveries :: d in s.db.deliveries && t.db.deliveries[d] == s.db.deliveries[d]
    ensures WithinReach(s, e, p)
  {
    if x :| IsDelivered(t.db.deliveries, x, e, p) {
      assert IsDelivered(s.db.deliveries, x, e, p);
    } else if k :| k in t.handlers && AboutToDeliver(t, t.handlers[k], e, p) {
      assert AboutToDeliver(s, s.handlers[k], e, p);
    } else if x :| Waits(t.db.deliveries, x, e, p) {
      assert Waits(s.db.deliveries, x, e, p);
    } else if k :| k in t.handlers && WillComeTo(t, t.handlers[k], e, p) {
      assert WillComeTo(s, s.handlers[k], e, p);
    }
  }

  lemma RetentionReach(c: Config, s: State, e: Id, p: Id)
    requires WithinReach(RetentionEffect(c, s), e, p)
    ensures WithinReach(s, e, p)
  {
    hide WithinReach;
    FewerRowsReach(s, RetentionEffect(c, s), e, p);
  }

  lemma UnattendedReach(c: Config, s: State, step: Step, t: State, e: Id, p: Id)
    requires Next(c, s, step, t) && (step.Tick? || step.Retention?) && WithinReach(t, e, p)
    ensures WithinReach(s, e, p)
  {
    hide WithinReach, RetentionEffect;
    if step.Tick? {
      SameReach(s, t, e, p);
    } else {
      RetentionReach(c, s, e, p);
    }
  }

  lemma ReachStep(c: Config, s: State, step: Step, t: State, e: Id, p: Id)
    requires Next(c, s, step, t) && Automatic(step) && Sound(s) && Stored(c, s) && WithinReach(t, e, p)
    ensures WithinReach(s, e, p)
  {
    if step.Tick? || step.Retention? {
      hide Next, WithinReach, Sound, Stored;
      UnattendedReach(c, s, step, t, e, p);
    } else {
      assert !ApiNext(c, s, step, t);
      hide ApiNext, PublisherNext, SchedulerNext, WorkerNext, Sound, Stored, WithinReach;
      if PublisherNext(c, s, step, t) { PublisherReach(c, s, step, t, e, p); }
      else if SchedulerNext(c, s, step, t) { RequeueReach(c, s, step, t, e, p); }
      else { WorkerReach(c, s, step, t, e, p); }
    }
  }

  /** Reach is never gained along automatic steps. */
  lemma {:induction false} ReachBefore(c: Config, r: Run, from: nat, to: nat, e: Id, p: Id)
    requires IsHistory(c, r) && from <= to < |r.states| && forall j | from <= j < to :: Automatic(r.steps[j])
    requires WithinReach(r.states[to], e, p)
    ensures WithinReach(r.states[from], e, p)
  {
    hide Next, Automatic, Sound, Stored, WithinReach;
    if from < to {
      AlwaysSound(c, r, to - 1);
      AlwaysStored(c, r, to - 1);
      ReachStep(c, r.states[to - 1], r.steps[to - 1], r.states[to], e, p);
      ReachBefore(c, r, from, to - 1, e, p);
    }
  }

  /**
   * Exactly when the processes can still deliver by themselves: for an event that is there and an active subscriber with
   * a closed circuit, some continuation without a request to the API has a DELIVERED row of the pair if and only if there
   * is one already, a handler has its request out, or a scheduled retry, a pending outbox row, an unacknowledged message
   * or a handler's list leads there.
   */
  lemma DeliverableExactly(c: Config, r: Run, e: Id, p: Id)
    requires IsHistory(c, r) && c.batchSize >= 1 && Ready(Last(r), e, p)
    ensures CanStillBeDelivered(c, r, e, p) <==> WithinReach(Last(r), e, p)
  {
    hide Next, WithinReach, Automatic;
    if WithinReach(Last(r), e, p) {
      WithinReachDelivers(c, r, e, p);
    }
    if CanStillBeDelivered(c, r, e, p) {
      var longer, t :| At(c, r, longer, t) && DeliveredTo(t, e, p);
      assert WithinReach(t, e, p) by { Already(t, e, p); }
      ReachBefore(c, longer, |r.states| - 1, |longer.states| - 1, e, p);
    }
  }

  lemma Already(s: State, e: Id, p: Id)
    requires DeliveredTo(s, e, p)
    ensures WithinReach(s, e, p)
  {
  }

  // ---- Endpoints that stayed. ----

  /** The outbox row was given up after ten attempts, the delivery is dead-lettered, or retention removed it. */
  ghost predicate Concluded(s: State, e: Id, p: Id) {
    || (exists o :: o in s.db.outbox && s.db.outbox[o].event == e && s.db.outbox[o].status == OutboxStatus.Failed)
    || (exists d :: && d in s.db.deliveries && s.db.deliveries[d].event == e && s.db.deliveries[d].endpoint == p
                    && s.db.deliveries[d].status == Dlq)
    || (exists d :: d in s.log.purged && s.log.purged[d].event == e && s.log.purged[d].endpoint == p)
  }

  /** What serves the pair is within reach, or concludes it. */
  lemma ServedIsWithinReach(s: State, e: Id, p: Id, k: Id)
    requires Served(s, e, p, k) && CircuitClosed(s, p)
    ensures WithinReach(s, e, p) || Concluded(s, e, p)
  {
    if d :| RowCovers(s.db.deliveries, d, e, p, k) {
      assert s.db.deliveries[d].status == Delivered ==> IsDelivered(s.db.deliveries, d, e, p);
      assert s.db.deliveries[d].status == Retrying ==> Waits(s.db.deliveries, d, e, p);
    } else if m :| RetryUnderway(s.stream, m, e, p, k) {
      assert Meant(s.stream, m, e, p);
    } else {
      var d :| PurgeCovers(s.log, d, e, p, k);
    }
  }

  lemma UnderwayIsWithinReach(s: State, o: Id, e: Id, p: Id)
    requires Underway(s, o, e, p) && CircuitClosed(s, p)
    requires s.db.outbox[o].payload.event == e
    ensures WithinReach(s, e, p) || Concluded(s, e, p)
  {
    hide Served;
    if s.db.outbox[o].status == Pending {
      assert For(s.db.outbox[o].payload, e, p);
    } else if s.db.outbox[o].status == Published {
      var m :| && m in s.stream.entries && s.stream.entries[m] == Message(FromOutbox(o), s.db.outbox[o].payload)
               && (Unacked(s.stream, m) || Served(s, e, p, m));
      if Unacked(s.stream, m) {
        assert Meant(s.stream, m, e, p);
      } else {
        ServedIsWithinReach(s, e, p, m);
      }
    }
  }

  /**
   * Delivery stays possible: in every run, an accepted event that is still there can be delivered, by the publisher, the
   * scheduler and the worker alone, to an endpoint that has stayed an active subscriber since and whose circuit is
   * closed, unless an outbox row of the event was given up after ten attempts, a delivery of the pair is dead-lettered, or
   * retention removed one.
   */
  lemma DeliveryStaysPossible(c: Config, r: Run, e: Id, p: Id)
    requires IsHistory(c, r) && c.batchSize >= 1 && e in Last(r).db.events
    requires forall j | 0 <= j < |r.states| :: Wants(r.states[j], e, p)
    requires CircuitClosed(Last(r), p)
    ensures CanStillBeDelivered(c, r, e, p) || Concluded(Last(r), e, p)
  {
    hide Next, CanStillBeDelivered, Concluded, WithinReach;
    var s, n := Last(r), |r.states| - 1;
    AcceptedWorkIsUnderway(c, r, n, e, p);
    var o :| Underway(s, o, e, p);
    RowNamesEvent(c, r, o);
    UnderwayIsWithinReach(s, o, e, p);
    DeliverableExactly(c, r, e, p);
  }

  lemma RowNamesEvent(c: Config, r: Run, o: Id)
    requires IsHistory(c, r) && o in Last(r).db.outbox
    ensures Last(r).db.outbox[o].payload.event == Last(r).db.outbox[o].event
  {
    hide Next;
    AlwaysScoped(c, r, |r.states| - 1);
  }
}
