/**
 * What the COMPLETED stamp does not say. With two subscribers, the first one answers well before the second has its turn;
 * the completion query finds only the first one's row, and the event is stamped while the second has none.
 */
module EarlyCompletion {
  import opened Common
  import opened Tables
  import opened Broker
  import opened Breaker
  import opened Pipeline
  import Retry

  const C := Config(10, Limits(1, 30.0), Retry.Fixed(5.0, 6), 60.0, 1000.0, 1000.0, 1000.0, 1000.0)
  const SHOP := Endpoint(0, Active, {"order"}, Closed)
  const ORDER: Request := Request(0, None, "order")
  const ROW := OutboxRow(3, Payload(3, 0, "order", None), Pending, 0, 0.0)
  const MESSAGE := Message(FromOutbox(4), Payload(3, 0, "order", None))
  const FIRST := Delivery(3, 0, 1, Delivering, None, NoError, None, 0.0)
  const ANSWERED := FIRST.(status := Delivered, httpStatus := Some(200))

  // The states of the run, one step apart.

  const S1 := Init.(
    nextId := 1, db := Init.db.(endpoints := map[0 := SHOP]),
    log := Init.log.(owner := map[0 := 0], subscribed := {(0, "order")}))
  const S2 := S1.(
    nextId := 2, db := S1.db.(endpoints := map[0 := SHOP, 1 := SHOP]),
    log := S1.log.(owner := map[0 := 0, 1 := 0], subscribed := {(0, "order"), (1, "order")}))
  const S3 := S2.(nextId := 3, requests := map[2 := ORDER])
  const S4 := S2.(
    nextId := 5,
    db := S2.db.(events := map[3 := Event(0, "order", Received, 0.0)], outbox := map[4 := ROW]),
    log := S2.log.(born := map[3 := Birth(0, "order")]))
  const S5 := S4.(nextId := 6, publishers := map[5 := PublishTxn({4}, map[], {})])
  const S6 := S4.(
    nextId := 7, stream := Stream(map[6 := MESSAGE], 0, map[]),
    publishers := map[5 := PublishTxn({}, map[4 := ROW.(status := Published)], {3})])
  const S7 := S6.(
    publishers := map[],
    db := S6.db.(events := map[3 := Event(0, "order", InStream, 0.0)], outbox := map[4 := ROW.(status := Published)]))
  const S8 := S7.(
    nextId := 8, stream := Stream(map[6 := MESSAGE], 7, map[6 := 0.0]), handlers := map[7 := Handler(6, {}, Starting)])
  const S9 := S8.(
    handlers := map[7 := Handler(6, {0, 1}, FanOut([0, 1]))],
    db := S8.db.(events := map[3 := Event(0, "order", Processing, 0.0)]),
    log := S8.log.(resolved := map[6 := {0, 1}]))
  const S10 := S9.(
    nextId := 9, db := S9.db.(deliveries := map[8 := FIRST]),
    handlers := map[7 := Handler(6, {0, 1}, Sending(8, 0, [1], Fresh, Closed))])
  const S11 := S10.(handlers := map[7 := Handler(6, {0, 1}, Saving(8, 0, [1], ANSWERED, None, Some({8})))])
  const S12 := S11.(
    handlers := map[7 := Handler(6, {0, 1}, FanOut([1]))],
    db := S11.db.(deliveries := map[8 := ANSWERED], events := map[3 := Event(0, "order", Completed, 0.0)]),
    log := S11.log.(completions := [Completion(3, {8})]))

  lemma Subscribed()
    ensures ApiNext(C, Init, CreateEndpoint(0, {"order"}), S1) && ApiNext(C, S1, CreateEndpoint(0, {"order"}), S2)
  {
    assert (set t | t in {"order"} :: (0, t)) == {(0, "order")};
    assert (set t | t in {"order"} :: (1, t)) == {(1, "order")};
    assert Init.log.subscribed + {(0, "order")} == S1.log.subscribed;
    assert S1.log.subscribed + {(1, "order")} == S2.log.subscribed;
    assert S1.db.endpoints[1 := SHOP] == S2.db.endpoints;
    assert S1.log.owner[1 := 0] == S2.log.owner;
  }

  lemma Ingested()
    ensures ApiNext(C, S2, IngestLookup(ORDER), S3) && ApiNext(C, S3, IngestCommit(2), S4)
  {
    assert S3.requests - {2} == map[];
  }

  lemma Locked()
    ensures PublisherNext(C, S4, PublishOpen({4}), S5) && PublisherNext(C, S5, PublishRow(5, 4, XaddOk), S6)
  {
    assert {4} - {4} == {};
    assert S5.publishers[5 := S6.publishers[5]] == S6.publishers;
  }

  lemma Committed()
    ensures PublisherNext(C, S6, PublishCommit(5), S7)
  {
    assert S6.publishers - {5} == map[];
    assert Marked(S6.db.events, {3}, InStream) == S7.db.events;
    assert S6.db.outbox + S6.publishers[5].done == S7.db.outbox;
  }

  lemma Read()
    ensures WorkerNext(C, S7, Consume(6), S8)
  {
  }

  lemma FoundBoth()
    ensures CanResolve(S8, 7, [0, 1])
  {
    assert forall e :: e in [0, 1] <==> Resolves(S8.db, MESSAGE.payload, e);
  }

  lemma TookBoth()
    ensures 7 in S8.handlers && S8.handlers[7].message in S8.stream.entries && ResolveEffect(S8, 7, [0, 1]) == S9
  {
    hide LeftAlone;
    var none: set<Id> := {};
    assert (set p: Id | p in [0, 1]) == {0, 1} == none + {0, 1};
    assert S8.log.resolved[6 := none + {0, 1}] == S9.log.resolved;
    assert S8.handlers[7 := Handler(6, {0, 1}, FanOut([0, 1]))] == S9.handlers;
    assert S8.db.events[3 := S8.db.events[3].(status := Processing)] == S9.db.events;
  }

  lemma Resolved()
    ensures WorkerNext(C, S8, Resolve(7, [0, 1]), S9)
  {
    hide CanResolve, ResolveEffect;
    FoundBoth();
    TookBoth();
  }

  lemma Called()
    ensures WorkerNext(C, S9, DeliverNext(7), S10)
  {
    hide LeftAlone;
    assert [0, 1][1..] == [1];
    assert S9.handlers[7 := S9.handlers[7].(phase := S10.handlers[7].phase)] == S10.handlers;
    assert S9.db.deliveries[8 := FIRST] == S10.db.deliveries;
  }

  lemma AnsweredRow()
    ensures Attempted(C, FIRST, Status(200), 0.0, 0.0) == ANSWERED
  {
  }

  lemma AllDone()
    ensures AllTerminal(S10.db.deliveries[8 := ANSWERED], 3) && RowsOf(S10.db.deliveries, 3) == {8}
  {
  }

  lemma Answered()
    ensures WorkerNext(C, S10, Respond(7, Status(200), 0.0), S11)
  {
    AnsweredRow();
    AllDone();
    hide Attempted, AllTerminal, RowsOf;
    assert S10.handlers[7 := S10.handlers[7].(phase := S11.handlers[7].phase)] == S11.handlers;
  }

  lemma StampedEvent()
    ensures CanSaveDelivery(S11, 7) && SaveDeliveryEffect(S11, 7).db == S12.db
  {
    assert S11.db.deliveries[8 := ANSWERED] == S12.db.deliveries;
    assert Marked(S11.db.events, {3}, Completed) == S12.db.events;
  }

  lemma Stamped()
    ensures WorkerNext(C, S11, SaveDelivery(7), S12)
  {
    StampedEvent();
    hide Marked;
    assert S11.handlers[7 := S11.handlers[7].(phase := FanOut([1]))] == S12.handlers;
    assert S11.log.completions + [Completion(3, {8})] == S12.log.completions;
    assert SaveDeliveryEffect(S11, 7) == S12;
  }

  lemma FirstHalf() returns (r: Run)
    ensures IsHistory(C, r) && Last(r) == S7
  {
    Subscribed();
    Ingested();
    Locked();
    Committed();
    hide ApiNext, PublisherNext, SchedulerNext, WorkerNext, IsRun, Last;
    r := Begin(C);
    r := Grow(C, r, Init, CreateEndpoint(0, {"order"}), S1);
    r := Grow(C, r, S1, CreateEndpoint(0, {"order"}), S2);
    r := Grow(C, r, S2, IngestLookup(ORDER), S3);
    r := Grow(C, r, S3, IngestCommit(2), S4);
    r := Grow(C, r, S4, PublishOpen({4}), S5);
    r := Grow(C, r, S5, PublishRow(5, 4, XaddOk), S6);
    r := Grow(C, r, S6, PublishCommit(5), S7);
  }

  /** A run that ends with the request to the first subscriber out. */
  lemma RequestOut() returns (r: Run)
    ensures IsHistory(C, r) && Last(r) == S10
  {
    Read();
    Resolved();
    Called();
    hide ApiNext, PublisherNext, SchedulerNext, WorkerNext, IsRun, Last;
    r := FirstHalf();
    r := Grow(C, r, S7, Consume(6), S8);
    r := Grow(C, r, S8, Resolve(7, [0, 1]), S9);
    r := Grow(C, r, S9, DeliverNext(7), S10);
  }

  /**
   * A run that ends with a completed event and a second active subscriber, found by the handler that stamped it, which is
   * still on that handler's list and has no delivery row at all.
   */
  lemma CompletedBeforeFanOut() returns (r: Run)
    ensures IsHistory(C, r)
    ensures var s := Last(r);
            && 3 in s.db.events && s.db.events[3].status == Completed && s.log.completions == [Completion(3, {8})]
            && 1 in s.db.endpoints && Resolves(s.db, MESSAGE.payload, 1)
            && 7 in s.handlers && 1 in s.handlers[7].resolved && s.handlers[7].phase == FanOut([1])
            && forall d | d in s.db.deliveries :: s.db.deliveries[d].endpoint != 1
  {
    Answered();
    Stamped();
    hide ApiNext, PublisherNext, SchedulerNext, WorkerNext, IsRun, Last;
    r := RequestOut();
    r := Grow(C, r, S10, Respond(7, Status(200), 0.0), S11);
    r := Grow(C, r, S11, SaveDelivery(7), S12);
  }
}
