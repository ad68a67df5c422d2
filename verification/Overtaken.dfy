/**
 * Why an endpoint has to stay for its deliveries to be safe. A message is reclaimed while its first handler still runs;
 * the second handler finds an endpoint that is new since, the first one acknowledges the message, the second one dies.
 * The pair was resolved, the message is gone, and nothing else is left of it.
 */
module Overtaken {
  import opened Common
  import opened Tables
  import opened Broker
  import opened Breaker
  import opened Pipeline
  import opened NoLoss
  import opened Subscribers
  import Retry

  const C := Config(10, Limits(5, 30.0), Retry.Fixed(5.0, 6), 60.0, 1000.0, 1000.0, 1000.0, 1000.0)
  const ORDER: Request := Request(0, None, "order")
  const ROW := OutboxRow(1, Payload(1, 0, "order", None), Pending, 0, 0.0)
  const MESSAGE := Message(FromOutbox(2), Payload(1, 0, "order", None))
  const SHOP := Endpoint(0, Active, {"order"}, Closed)

  // The states of the run, one step apart.

  const S1 := Init.(nextId := 1, requests := map[0 := ORDER])
  const S2 := Init.(
    nextId := 3,
    db := Init.db.(events := map[1 := Event(0, "order", Received, 0.0)], outbox := map[2 := ROW]),
    log := Init.log.(born := map[1 := Birth(0, "order")]))
  const S3 := S2.(nextId := 4, publishers := map[3 := PublishTxn({2}, map[], {})])
  const S4 := S2.(
    nextId := 5,
    stream := Stream(map[4 := MESSAGE], 0, map[]),
    publishers := map[3 := PublishTxn({}, map[2 := ROW.(status := OutboxStatus.Published)], {1})])
  const S5 := S4.(
    publishers := map[],
    db := S4.db.(events := map[1 := Event(0, "order", InStream, 0.0)], outbox := map[2 := ROW.(status := OutboxStatus.Published)]))
  const S6 := S5.(
    nextId := 6, stream := Stream(map[4 := MESSAGE], 5, map[4 := 0.0]), handlers := map[5 := Handler(4, {}, Starting)])
  const S7 := S6.(handlers := map[5 := Handler(4, {}, FanOut([]))])
  const S8 := S7.(
    nextId := 7, db := S7.db.(endpoints := map[6 := SHOP]),
    log := S7.log.(owner := map[6 := 0], subscribed := {(6, "order")}))
  const S9 := S8.(now := 60.0)
  const S10 := S9.(
    nextId := 8, stream := Stream(map[4 := MESSAGE], 5, map[4 := 60.0]),
    handlers := S9.handlers[7 := Handler(4, {}, Starting)])
  const S11 := S10.(
    handlers := S9.handlers[7 := Handler(4, {6}, FanOut([6]))],
    db := S10.db.(events := map[1 := Event(0, "order", Processing, 0.0)]),
    log := S10.log.(resolved := map[4 := {6}]))
  const S12 := S11.(
    handlers := map[7 := Handler(4, {6}, FanOut([6]))], stream := Stream(map[4 := MESSAGE], 5, map[]),
    log := S11.log.(missed := {(4, 6)}))
  const S13 := S12.(handlers := map[])

  lemma Ingested()
    ensures ApiNext(C, Init, IngestLookup(ORDER), S1) && ApiNext(C, S1, IngestCommit(0), S2)
  {
    assert S1.requests - {0} == map[];
  }

  lemma Locked()
    ensures PublisherNext(C, S2, PublishOpen({2}), S3) && PublisherNext(C, S3, PublishRow(3, 2, XaddOk), S4)
  {
    assert {2} - {2} == {};
    assert S3.publishers[3 := S4.publishers[3]] == S4.publishers;
  }

  lemma Committed()
    ensures PublisherNext(C, S4, PublishCommit(3), S5)
  {
    assert S4.publishers - {3} == map[];
    assert Marked(S4.db.events, {1}, InStream) == S5.db.events;
    assert S4.db.outbox + S4.publishers[3].done == S5.db.outbox;
  }

  lemma Handled()
    ensures WorkerNext(C, S5, Consume(4), S6) && WorkerNext(C, S6, Resolve(5, []), S7)
  {
    assert S6.handlers[5 := S6.handlers[5].(phase := FanOut([]))] == S7.handlers;
  }

  lemma Subscribed()
    ensures ApiNext(C, S7, CreateEndpoint(0, {"order"}), S8) && ApiNext(C, S8, Tick(60.0), S9)
  {
    assert (set t | t in {"order"} :: (6, t)) == {(6, "order")};
    assert S8.log.subscribed == S7.log.subscribed + {(6, "order")};
  }

  lemma Reclaimed()
    ensures WorkerNext(C, S9, Claim(4), S10)
  {
    assert S9.stream.pending[4 := 60.0] == S10.stream.pending;
  }

  lemma FoundShop()
    ensures CanResolve(S10, 7, [6])
  {
    assert forall e :: e in [6] <==> Resolves(S10.db, MESSAGE.payload, e);
  }

  lemma TookShopLog()
    ensures 7 in S10.handlers && S10.handlers[7].message in S10.stream.entries && ResolveEffect(S10, 7, [6]).log == S11.log
  {
    var none: set<Id> := {};
    assert (set p: Id | p in [6]) == {6} == none + {6};
    assert S10.log.resolved[4 := none + {6}] == S11.log.resolved;
  }

  lemma TookShop()
    ensures 7 in S10.handlers && S10.handlers[7].message in S10.stream.entries && ResolveEffect(S10, 7, [6]) == S11
  {
    TookShopLog();
    assert (set p: Id | p in [6]) == {6};
    assert S10.handlers[7 := Handler(4, {6}, FanOut([6]))] == S11.handlers;
    assert S10.db.events[1 := S10.db.events[1].(status := Processing)] == S11.db.events;
  }

  lemma Resolved()
    ensures WorkerNext(C, S10, Resolve(7, [6]), S11)
  {
    hide CanResolve, ResolveEffect;
    FoundShop();
    TookShop();
  }

  lemma NobodyElse()
    ensures !Covered(S11, 1, 6, 4)
  {
    assert S11.stream.entries.Keys == {4} && !(4 in S11.log.purged);
  }

  lemma LeftToNoOne()
    ensures 5 in S11.handlers && S11.handlers[5].message in S11.stream.entries && AcknowledgeEffect(S11, 5).log == S12.log
  {
    NobodyElse();
    hide Covered;
    assert Targets(S11.stream, S11.log, 4) - S11.handlers[5].resolved == {6};
    assert LeftAlone(S11, 4, {6}) == {(4, 6)};
  }

  lemma Acknowledged()
    ensures WorkerNext(C, S11, Acknowledge(5), S12)
  {
    LeftToNoOne();
    hide Targets, LeftAlone;
    assert S11.handlers - {5} == S12.handlers;
    assert S11.stream.pending - {4} == S12.stream.pending;
  }

  lemma Died()
    ensures WorkerNext(C, S12, HandlerDies(7), S13)
  {
    assert S12.handlers - {7} == map[];
  }

  lemma FirstHalf() returns (r: Run)
    ensures IsHistory(C, r) && Last(r) == S7
  {
    Ingested();
    Locked();
    Committed();
    Handled();
    hide ApiNext, PublisherNext, SchedulerNext, WorkerNext, IsRun, Last;
    r := Begin(C);
    r := Grow(C, r, Init, IngestLookup(ORDER), S1);
    r := Grow(C, r, S1, IngestCommit(0), S2);
    r := Grow(C, r, S2, PublishOpen({2}), S3);
    r := Grow(C, r, S3, PublishRow(3, 2, XaddOk), S4);
    r := Grow(C, r, S4, PublishCommit(3), S5);
    r := Grow(C, r, S5, Consume(4), S6);
    r := Grow(C, r, S6, Resolve(5, []), S7);
  }

  /** A run that ends with a resolved pair, an active subscriber, its event, and nothing that would ever deliver it. */
  lemma ResolvedPairLost() returns (r: Run)
    ensures IsHistory(C, r)
    ensures var s := Last(r);
            && BoundFor(s.stream, s.log, 4, 6) && EventOf(s, 4) == 1 && 1 in s.db.events && Wants(s, 1, 6)
            && s.db.deliveries == map[] && s.handlers == map[] && s.publishers == map[] && s.requeues == map[]
            && (forall o | o in s.db.outbox :: s.db.outbox[o].status == OutboxStatus.Published)
            && (forall m :: !Unacked(s.stream, m))
  {
    Subscribed();
    Reclaimed();
    Resolved();
    Acknowledged();
    Died();
    hide ApiNext, PublisherNext, SchedulerNext, WorkerNext, IsRun, Last;
    r := FirstHalf();
    r := Grow(C, r, S7, CreateEndpoint(0, {"order"}), S8);
    r := Grow(C, r, S8, Tick(60.0), S9);
    r := Grow(C, r, S9, Claim(4), S10);
    r := Grow(C, r, S10, Resolve(7, [6]), S11);
    r := Grow(C, r, S11, Acknowledge(5), S12);
    r := Grow(C, r, S12, HandlerDies(7), S13);
  }
}
