/**
 * Idempotent ingestion under races (create_event, apps/api/eventmesh_api/routers/events.py): lookups and commits of any
 * number of requests interleave, the unique constraint on (tenant, key) settles who wins, and retention removes expired
 * keys in between.
 */
module Idempotency {
  import opened Common
  import opened Tables
  import opened Pipeline
  import opened Frames
  import opened Integrity

  predicate SameKey(a: Response, b: Response) {
    a.tenant == b.tenant && a.key == b.key
  }

  /** Until it expires, the key an answer was given under is on file with the event of the answer. */
  ghost predicate OnFile(s: State, a: Response) {
    && a.at <= s.now
    && (s.now <= a.expiresAt ==>
          && (a.tenant, a.key) in s.db.keys
          && s.db.keys[(a.tenant, a.key)] == IdempotencyKey(a.event, a.expiresAt))
  }

  /** An answer given under the key of an earlier one, before that expired, repeats it. */
  ghost predicate Repeats(a: Response, b: Response) {
    SameKey(a, b) && b.at <= a.expiresAt ==> b.event == a.event && b.expiresAt == a.expiresAt && !b.created
  }

  ghost predicate Consistent(responses: seq<Response>) {
    forall i, j | 0 <= i < j < |responses| :: Repeats(responses[i], responses[j])
  }

  ghost predicate Honoured(s: State) {
    (forall a | a in s.log.responses :: OnFile(s, a)) && Consistent(s.log.responses)
  }

  lemma HonouredInit()
    ensures Honoured(Init)
  {
  }

  lemma SameKeysHonoured(s: State, t: State)
    requires Honoured(s) && t.db.keys == s.db.keys && t.now >= s.now && t.log.responses == s.log.responses
    ensures Honoured(t)
  {
    forall a | a in t.log.responses ensures OnFile(t, a) {
      assert OnFile(s, a);
    }
  }

  /** The answers stay true and the new one repeats every earlier one it has to. */
  lemma AnswerHonoured(s: State, t: State, b: Response)
    requires Honoured(s) && t.now == s.now && t.log.responses == s.log.responses + [b]
    requires forall k | k in s.db.keys :: k in t.db.keys && t.db.keys[k] == s.db.keys[k]
    requires OnFile(t, b) && b.at == s.now
    requires if (b.tenant, b.key) in s.db.keys
             then s.db.keys[(b.tenant, b.key)] == IdempotencyKey(b.event, b.expiresAt) && !b.created
             else b.created
    ensures Honoured(t)
  {
    forall a | a in t.log.responses ensures OnFile(t, a) {
      assert a != b ==> OnFile(s, a);
    }
    forall i, j | 0 <= i < j < |t.log.responses| ensures Repeats(t.log.responses[i], t.log.responses[j]) {
      if j < |s.log.responses| {
        assert Repeats(s.log.responses[i], s.log.responses[j]);
      } else {
        assert OnFile(s, s.log.responses[i]);
      }
    }
  }

  lemma LookupHonoured(s: State, r: Request)
    requires Honoured(s)
    ensures Honoured(IngestLookupEffect(s, r))
  {
    hide Honoured;
    var t := IngestLookupEffect(s, r);
    if Keyed(r) && KeyOf(r) in s.db.keys {
      var row := s.db.keys[KeyOf(r)];
      AnswerHonoured(s, t, Response(r.tenant, r.key.value, row.event, s.now, row.expiresAt, false));
    } else {
      SameKeysHonoured(s, t);
    }
  }

  lemma CommitHonoured(c: Config, s: State, id: Id)
    requires Honoured(s) && id in s.requests
    ensures Honoured(IngestCommitEffect(c, s, id))
  {
    hide Honoured;
    var t, r := IngestCommitEffect(c, s, id), s.requests[id];
    if !Keyed(r) || KeyOf(r) in s.db.keys {
      SameKeysHonoured(s, t);
    } else {
      AnswerHonoured(s, t, Response(r.tenant, r.key.value, s.nextId, s.now, s.now + c.keyTtl, true));
    }
  }

  /** Retention removes a key only after its expiry. */
  lemma RetentionHonoured(c: Config, s: State)
    requires Honoured(s)
    ensures Honoured(RetentionEffect(c, s))
  {
    var t := RetentionEffect(c, s);
    forall a | a in t.log.responses ensures OnFile(t, a) {
      assert OnFile(s, a);
    }
  }

  lemma ApiHonoured(c: Config, s: State, step: Step, t: State)
    requires Honoured(s) && ApiNext(c, s, step, t)
    ensures Honoured(t)
  {
    hide Honoured, IngestLookupEffect, IngestCommitEffect;
    match step
    case IngestLookup(r) => LookupHonoured(s, r);
    case IngestCommit(id) => CommitHonoured(c, s, id);
    case _ => SameKeysHonoured(s, t);
  }

  lemma SchedulerHonoured(c: Config, s: State, step: Step, t: State)
    requires Honoured(s) && SchedulerNext(c, s, step, t)
    ensures Honoured(t)
  {
    hide Honoured, RetentionEffect;
    if step.Retention? {
      RetentionHonoured(c, s);
    } else {
      SchedulerFrames(c, s, step, t);
      SameKeysHonoured(s, t);
    }
  }

  lemma HonouredStep(c: Config, s: State, step: Step, t: State)
    requires Honoured(s) && Next(c, s, step, t)
    ensures Honoured(t)
  {
    hide ApiNext, PublisherNext, SchedulerNext, WorkerNext, Honoured;
    if ApiNext(c, s, step, t) {
      ApiHonoured(c, s, step, t);
    } else if SchedulerNext(c, s, step, t) {
      SchedulerHonoured(c, s, step, t);
    } else {
      if PublisherNext(c, s, step, t) { PublisherFrames(c, s, step, t); } else { WorkerFrames(c, s, step, t); }
      SameKeysHonoured(s, t);
    }
  }

  lemma {:induction false} AlwaysHonoured(c: Config, r: Run, i: nat)
    requires IsHistory(c, r) && i < |r.states|
    ensures Honoured(r.states[i])
  {
    hide Next, Honoured;
    if i == 0 {
      HonouredInit();
    } else {
      AlwaysHonoured(c, r, i - 1);
      HonouredStep(c, r.states[i - 1], r.steps[i - 1], r.states[i]);
    }
  }

  /**
   * In every run, whatever the interleaving: of two successful answers to one tenant under one key, the later one, if
   * given before the expiry of the earlier, carries the same event and did not create it; and until that expiry the
   * event is still there.
   */
  lemma OneEventPerLiveKey(c: Config, r: Run, n: nat, i: nat, j: nat)
    requires IsHistory(c, r) && n < |r.states| && i < j < |r.states[n].log.responses|
    requires SameKey(r.states[n].log.responses[i], r.states[n].log.responses[j])
    ensures var s := r.states[n];
            var a, b := s.log.responses[i], s.log.responses[j];
            && a.at <= s.now && b.at <= s.now
            && (b.at <= a.expiresAt ==> b.event == a.event && !b.created)
            && (a.created && b.created ==> a.expiresAt < b.at)
            && (s.now <= a.expiresAt ==> a.event in s.db.events)
  {
    hide Next, IdsBounded, PublishLocks, RequeueLocks, HandlersOk;
    AlwaysHonoured(c, r, n);
    AlwaysSound(c, r, n);
    var s := r.states[n];
    assert OnFile(s, s.log.responses[i]) && OnFile(s, s.log.responses[j]);
    assert Repeats(s.log.responses[i], s.log.responses[j]);
  }

  /**
   * The race itself: whichever of two pending requests under one key commits first, the other's commit, at any later
   * time before the key expires and whatever happened in between, leaves the database, the stream and the answers
   * exactly as they were.
   */
  lemma LoserLeavesNothing(c: Config, r: Run, n: nat, id: Id, i: nat)
    requires IsHistory(c, r) && n < |r.steps| && r.steps[n] == IngestCommit(id)
    requires id in r.states[n].requests && Keyed(r.states[n].requests[id]) && i < |r.states[n].log.responses|
    requires var a, q := r.states[n].log.responses[i], r.states[n].requests[id];
             a.tenant == q.tenant && a.key == q.key.value && r.states[n].now <= a.expiresAt
    ensures r.states[n + 1] == r.states[n].(requests := r.states[n].requests - {id})
  {
    AlwaysHonoured(c, r, n);
    assert OnFile(r.states[n], r.states[n].log.responses[i]);
    assert Next(c, r.states[n], r.steps[n], r.states[n + 1]);
  }
}
