/** The worker's message handling (apps/worker/eventmesh_worker/main.py). */
module Worker {
  import opened Common
  import opened Tables
  import opened Broker
  import opened Pipeline
  import opened Integrity
  import opened DeliveryEngine
  import opened World
  import Classify

  /** The message of a handler is acknowledged, or still owed to the group. */
  ghost predicate Dismissed(s: State, t: State, h: Id, acked: bool)
    requires h in s.handlers
  {
    t.stream == (if acked then XAck(s.stream, s.handlers[h].message) else s.stream) && t.handlers == s.handlers - {h}
  }

  lemma AckDismisses(c: Config, s: State, t: State, h: Id, endpoints: seq<Id>)
    requires h in s.handlers && s.handlers[h].message in s.stream.entries
    requires Processed(s, t, h, endpoints, |Plan(s, h, endpoints)|)
    ensures CanAcknowledge(t, h) && WorkerNext(c, t, Acknowledge(h), AcknowledgeEffect(t, h))
    ensures AcknowledgeEffect(t, h).db == t.db && AcknowledgeEffect(t, h).now == t.now
    ensures var u, plan := AcknowledgeEffect(t, h), Plan(s, h, endpoints);
            Dismissed(s, u, h, true) && GoneThrough(s, u, HandlerPayload(s, h).event, plan, |plan|)
  {
    hide Dealt;
    assert AcknowledgeEffect(t, h).handlers == s.handlers - {h};
  }

  lemma DeathDismisses(s: State, t: State, h: Id, endpoints: seq<Id>, n: nat)
    requires h in s.handlers && s.handlers[h].message in s.stream.entries && n <= |Plan(s, h, endpoints)|
    requires Processed(s, t, h, endpoints, n)
    ensures var u := t.(handlers := t.handlers - {h});
            Dismissed(s, u, h, false) && GoneThrough(s, u, HandlerPayload(s, h).event, Plan(s, h, endpoints), n)
  {
    hide Dealt;
    assert t.handlers - {h} == s.handlers - {h};
  }

  /** Acknowledging, or ending without, changes nothing of what the handler did. */
  lemma EndKeeps(c: Config, s: State, t: State, u: State, e: Id, plan: seq<Id>, answers: seq<Answer>, outcomes: seq<Classify.Outcome>)
    requires u.db == t.db && u.now == t.now
    ensures AnswersTold(c, s, t, e, plan, answers, outcomes) ==> AnswersTold(c, s, u, e, plan, answers, outcomes)
    ensures EventMarked(s, t, e, plan, |outcomes|) ==> EventMarked(s, u, e, plan, |outcomes|)
  {
    hide RowSays, CircuitSays;
    if AnswersTold(c, s, t, e, plan, answers, outcomes) {
      forall i | 0 <= i < |outcomes| ensures TurnSays(c, s, u, e, plan[i], i, answers[i], outcomes[i]) {
        assert TurnSays(c, s, t, e, plan[i], i, answers[i], outcomes[i]);
      }
    }
    assert forall i: nat :: SettledAt(s, u, i) <==> SettledAt(s, t, i);
    assert forall i: nat :: CompletesAt(s, u, i) <==> CompletesAt(s, t, i);
  }

  class Worker {
    const world: World
    const engine: DeliveryEngine

    constructor (engine: DeliveryEngine)
      ensures this.engine == engine && world == engine.world
    {
      this.engine, world := engine, engine.world;
    }

    /**
     * Handles one message. It is acknowledged if and only if no exception came up, and then every endpoint the query
     * found has its delivery row; otherwise the message stays owed to the group, for the recovery loop to reclaim.
     */
    method HandleMessage(h: Id, endpoints: seq<Id>, answers: seq<Answer>, failsAt: Option<nat>)
      returns (acked: bool)
      requires world == engine.world && world.Valid() && CanProcess(world.state, h, endpoints, answers)
      modifies world
      ensures world.Valid() && old(world.run.steps) <= world.run.steps
      ensures var s, t := old(world.state), world.state;
              var plan := Plan(s, h, endpoints);
              && acked == Survives(plan, failsAt) && Dismissed(s, t, h, acked)
              && GoneThrough(s, t, HandlerPayload(s, h).event, plan, Reach(plan, failsAt))
              && EventMarked(s, t, HandlerPayload(s, h).event, plan, Reach(plan, failsAt))
              && exists outcomes :: |outcomes| == Reach(plan, failsAt)
                   && AnswersTold(world.config, s, t, HandlerPayload(s, h).event, plan, answers, outcomes)
    {
      hide ApiNext, PublisherNext, SchedulerNext, Processed, GoneThrough, Dismissed, EventMarked, AnswersTold;
      ghost var s := world.state;
      ghost var plan := Plan(s, h, endpoints);
      var ok, outcomes := engine.ProcessPayload(h, endpoints, answers, failsAt);
      acked := ok;
      ghost var t := world.state;
      StillThere(s, t, h, endpoints, Reach(plan, failsAt));
      if ok {
        AckDismisses(world.config, s, t, h, endpoints);
        world.Take(Acknowledge(h), AcknowledgeEffect(world.state, h));
        EndKeeps(world.config, s, t, world.state, HandlerPayload(s, h).event, plan, answers, outcomes);
      } else {
        DeathDismisses(s, t, h, endpoints, Reach(plan, failsAt));
        world.Take(HandlerDies(h), world.state.(handlers := world.state.handlers - {h}));
        EndKeeps(world.config, s, t, world.state, HandlerPayload(s, h).event, plan, answers, outcomes);
      }
    }

    /**
     * Takes the next message of the group, or reclaims one that was abandoned, and handles it. Afterwards the group owes
     * what it owed before, except for this message if it was acknowledged.
     */
    method Receive(m: Id, reclaimed: bool, endpoints: seq<Id>, answers: seq<Answer>, failsAt: Option<nat>)
      returns (acked: bool)
      requires world == engine.world && world.Valid() && |answers| == |endpoints|
      requires if reclaimed then CanClaim(world.config, world.state, m) else IsNext(world.state.stream, m)
      requires m in world.state.stream.entries && CanAnswer(world.state.db, world.state.stream.entries[m].payload, endpoints)
      modifies world
      ensures world.Valid() && old(world.run.steps) <= world.run.steps
      ensures forall x :: Unacked(world.state.stream, x) <==> Unacked(old(world.state).stream, x) && !(x == m && acked)
      ensures failsAt.None? ==> acked
      ensures world.state.handlers == old(world.state).handlers
    {
      hide ApiNext, PublisherNext, SchedulerNext, GoneThrough, IsResolution, IdsBounded, EventMarked, AnswersTold, Dismissed, Unacked;
      var s := world.state;
      var h := s.nextId;
      NewHandler(world.config, world.run);
      if reclaimed {
        world.Take(Claim(m), ClaimEffect(s, m));
      } else {
        world.Take(Consume(m), ConsumeEffect(s, m));
      }
      ghost var a := world.state;
      acked := HandleMessage(h, endpoints, answers, failsAt);
      TakenOwes(s, a, m, reclaimed);
      DismissedOwes(s, a, world.state, h, m, acked);
    }
  }

  /** Taking or reclaiming a message changes nothing about what is owed. */
  lemma TakenOwes(s: State, a: State, m: Id, reclaimed: bool)
    requires if reclaimed then m in s.stream.pending && m in s.stream.entries else IsNext(s.stream, m)
    requires a == if reclaimed then ClaimEffect(s, m) else ConsumeEffect(s, m)
    ensures forall x :: Unacked(a.stream, x) <==> Unacked(s.stream, x)
    ensures a.handlers == s.handlers[s.nextId := Handler(m, {}, Starting)]
    ensures WellFormed(s.stream) ==> m < a.stream.cursor
  {
  }

  lemma DismissedOwes(s: State, a: State, t: State, h: Id, m: Id, acked: bool)
    requires h !in s.handlers && a.handlers == s.handlers[h := Handler(m, {}, Starting)] && Dismissed(a, t, h, acked)
    requires forall x :: Unacked(a.stream, x) <==> Unacked(s.stream, x)
    requires m < a.stream.cursor
    ensures forall x :: Unacked(t.stream, x) <==> Unacked(s.stream, x) && !(x == m && acked)
    ensures t.handlers == s.handlers
  {
    assert t.handlers == s.handlers;
  }

  /** The endpoint query's result for a payload whose event is there. */
  ghost predicate CanAnswer(db: Database, p: Payload, endpoints: seq<Id>) {
    p.event in db.events ==> IsResolution(db, p, endpoints)
  }

  lemma NewHandler(c: Config, r: Run)
    requires IsHistory(c, r)
    ensures Last(r).nextId !in Last(r).handlers && WellFormed(Last(r).stream)
  {
    hide Next;
    AlwaysSound(c, r, |r.states| - 1);
  }

  lemma StillThere(s: State, t: State, h: Id, endpoints: seq<Id>, n: nat)
    requires h in s.handlers && s.handlers[h].message in s.stream.entries && n <= |Plan(s, h, endpoints)|
    requires Processed(s, t, h, endpoints, n)
    ensures h in t.handlers && t.handlers[h].message in t.stream.entries
  {
  }
}
