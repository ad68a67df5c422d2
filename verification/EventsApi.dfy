/** The routes that feed the pipeline (apps/api/eventmesh_api/routers/events.py and deliveries.py). */
module EventsApi {
  import opened Common
  import opened Tables
  import opened Pipeline
  import opened Integrity
  import opened Tenancy
  import opened World

  /** A response: the event it names, or the reason for refusing. */
  datatype Result = Ok(event: Id) | NotFound | InvalidState | KeyTaken

  /** The outbox has one row more: pending, never tried, with the given payload. Every other table but events is the same. */
  ghost predicate OneRowMore(before: Database, after: Database, o: Id, payload: Payload, now: Time) {
    && o !in before.outbox
    && after.outbox == before.outbox[o := OutboxRow(payload.event, payload, Pending, 0, now)]
    && after.deliveries == before.deliveries && after.endpoints == before.endpoints
  }

  lemma NewRowId(c: Config, r: Run)
    requires IsHistory(c, r)
    ensures IdsBounded(Last(r)) && Last(r).nextId !in Last(r).db.outbox && Last(r).nextId + 1 !in Last(r).db.outbox
  {
    hide Next;
    AlwaysSound(c, r, |r.states| - 1);
  }

  class EventsApi {
    const world: World

    constructor (world: World)
      ensures this.world == world
    {
      this.world := world;
    }

    /** The first half of an ingestion: a known key is answered with its event, expired or not. */
    method Look(r: Request) returns (found: Option<Id>, request: Id)
      requires world.Valid()
      modifies world
      ensures world.Valid() && world.run.steps == old(world.run.steps) + [IngestLookup(r)]
      ensures world.state.db == old(world.state).db && world.state.stream == old(world.state).stream
      ensures found.Some? <==> r.key.Some? && r.key.value != "" && (r.tenant, r.key.value) in old(world.state).db.keys
      ensures found.Some? ==> found.value == old(world.state).db.keys[(r.tenant, r.key.value)].event
      ensures found.None? ==> world.state.requests == old(world.state).requests[request := r]
    {
      hide PublisherNext, SchedulerNext, WorkerNext;
      var s := world.state;
      request := s.nextId;
      world.Take(IngestLookup(r), IngestLookupEffect(s, r));
      found := if Keyed(r) && KeyOf(r) in s.db.keys then Some(s.db.keys[KeyOf(r)].event) else None;
    }

    /**
     * The second half: event, outbox row and key in one transaction, or nothing at all if another request has taken the
     * key in the meantime.
     */
    method Commit(request: Id) returns (result: Result)
      requires world.Valid() && request in world.state.requests
      modifies world
      ensures world.Valid() && world.run.steps == old(world.run.steps) + [IngestCommit(request)]
      ensures var s, t, q := old(world.state), world.state, old(world.state).requests[request];
              && t.requests == s.requests - {request}
              && (result.Ok? || result.KeyTaken?)
              && (result.KeyTaken? <==> q.key.Some? && q.key.value != "" && (q.tenant, q.key.value) in s.db.keys)
              && (result.KeyTaken? ==> t.db == s.db && t.stream == s.stream && t.log == s.log)
              && (result.Ok? ==>
                    var e := result.event;
                    && e !in s.db.events && t.db.events == s.db.events[e := Event(q.tenant, q.etype, Received, s.now)]
                    && OneRowMore(s.db, t.db, e + 1, Payload(e, q.tenant, q.etype, None), s.now)
                    && t.db.keys == (if q.key.Some? && q.key.value != ""
                                     then s.db.keys[(q.tenant, q.key.value) := IdempotencyKey(e, s.now + world.config.keyTtl)]
                                     else s.db.keys))
    {
      hide PublisherNext, SchedulerNext, WorkerNext, IdsBounded;
      var s := world.state;
      NewRowId(world.config, world.run);
      NewEventId(world.config, world.run);
      world.Take(IngestCommit(request), IngestCommitEffect(world.config, s, request));
      var q := s.requests[request];
      result := if Keyed(q) && KeyOf(q) in s.db.keys then KeyTaken else Ok(s.nextId);
    }

    /** Puts the event into the outbox once more, for every subscriber. */
    method ReplayEvent(tenant: Id, event: Id) returns (result: Result)
      requires world.Valid()
      modifies world
      ensures world.Valid() && old(world.run.steps) <= world.run.steps && (result == Ok(event) || result == NotFound)
      ensures var s, t := old(world.state), world.state;
              && (result == Ok(event) <==> event in s.db.events && s.db.events[event].tenant == tenant)
              && (result == NotFound ==> t == s)
              && (result == Ok(event) ==>
                    && OneRowMore(s.db, t.db, s.nextId, Payload(event, tenant, s.db.events[event].etype, None), s.now)
                    && t.db.events == s.db.events[event := s.db.events[event].(status := InStream)])
    {
      hide PublisherNext, SchedulerNext, WorkerNext, IdsBounded;
      var s := world.state;
      if event !in s.db.events || s.db.events[event].tenant != tenant {
        return NotFound;
      }
      NewRowId(world.config, world.run);
      world.Take(Step.ReplayEvent(tenant, event), ReplayEventEffect(s, tenant, event));
      result := Ok(event);
    }

    /** Puts a dead-lettered delivery into the outbox once more, for its own endpoint; the delivery itself stays as it is. */
    method ReplayDlqEntry(tenant: Id, delivery: Id) returns (result: Result)
      requires world.Valid()
      modifies world
      ensures world.Valid() && old(world.run.steps) <= world.run.steps
      ensures var s, t := old(world.state), world.state;
              var known := && delivery in s.db.deliveries && s.db.deliveries[delivery].event in s.db.events
                           && s.db.events[s.db.deliveries[delivery].event].tenant == tenant;
              && (result == NotFound <==> !known)
              && (result == InvalidState <==> known && s.db.deliveries[delivery].status != Dlq)
              && (!result.Ok? ==> t == s)
              && (known && s.db.deliveries[delivery].status == Dlq ==>
                    var row := s.db.deliveries[delivery];
                    && result == Ok(row.event) && t.db.events == s.db.events
                    && OneRowMore(s.db, t.db, s.nextId,
                         Payload(row.event, tenant, s.db.events[row.event].etype, Some(row.endpoint)), s.now))
    {
      hide PublisherNext, SchedulerNext, WorkerNext, IdsBounded;
      var s := world.state;
      if delivery !in s.db.deliveries {
        return NotFound;
      }
      var row := s.db.deliveries[delivery];
      if row.event !in s.db.events || s.db.events[row.event].tenant != tenant {
        return NotFound;
      }
      if row.status != Dlq {
        return InvalidState;
      }
      NewRowId(world.config, world.run);
      world.Take(ReplayDlq(tenant, delivery), ReplayDlqEffect(s, tenant, delivery));
      result := Ok(row.event);
    }
  }

  lemma NewEventId(c: Config, r: Run)
    requires IsHistory(c, r)
    ensures Last(r).nextId !in Last(r).db.events
  {
    hide Next;
    AlwaysSound(c, r, |r.states| - 1);
    AlwaysScoped(c, r, |r.states| - 1);
  }
}
