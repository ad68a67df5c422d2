/**
 * What later states keep of earlier ones: messages stay, delivery rows keep their pair until retention removes them, and
 * events and endpoints that are gone stay gone.
 */
module Traces {
  import opened Common
  import opened Tables
  import opened Broker
  import opened Pipeline
  import opened Frames
  import opened Integrity
  import opened NoLoss

  // ---- The stream. ----

  /** The stream is as it was, or has one more entry, which nobody has read. */
  ghost predicate AtMostOneMore(s: State, t: State) {
    t.stream == s.stream || exists x :: t.stream == XAdd(s.stream, s.nextId, x)
  }

  lemma PublisherStream(c: Config, s: State, step: Step, t: State)
    requires PublisherNext(c, s, step, t)
    ensures AtMostOneMore(s, t)
  {
  }

  lemma SchedulerStream(c: Config, s: State, step: Step, t: State)
    requires SchedulerNext(c, s, step, t)
    ensures AtMostOneMore(s, t)
  {
  }

  /** A message enters the stream under the next identifier, and not by a worker's step. */
  lemma PublishedAnew(c: Config, s: State, step: Step, t: State, m: Id)
    requires Next(c, s, step, t) && m !in s.stream.entries && m in t.stream.entries
    ensures m == s.nextId && !WorkerNext(c, s, step, t)
  {
    hide ApiNext, PublisherNext, SchedulerNext, WorkerNext;
    if WorkerNext(c, s, step, t) { WorkerFrames(c, s, step, t); }
    else if ApiNext(c, s, step, t) { ApiFrames(c, s, step, t); }
    else if PublisherNext(c, s, step, t) { PublisherStream(c, s, step, t); }
    else { SchedulerStream(c, s, step, t); }
  }

  lemma BoundsOf(s: State)
    requires Sound(s)
    ensures WellFormed(s.stream) && IdsBounded(s) && HandlersOk(s.handlers, s.stream, s.db.deliveries, s.nextId)
  {
  }

  // ---- The tables. ----

  lemma OthersReviveNothing(c: Config, s: State, step: Step, t: State)
    requires PublisherNext(c, s, step, t) || SchedulerNext(c, s, step, t)
    ensures EventsNotRevived(s, t)
  {
  }

  lemma WorkerRevivesNothing(c: Config, s: State, step: Step, t: State)
    requires WorkerNext(c, s, step, t)
    ensures EventsNotRevived(s, t)
  {
  }

  /** Every row keeps its pair and, once it is no longer being delivered, stays so; or it is on record as removed. */
  ghost predicate RowsTraced(s: State, t: State) {
    && (forall d | d in s.log.purged :: d in t.log.purged && t.log.purged[d] == s.log.purged[d])
    && (forall d | d in s.db.deliveries ::
          || (&& d in t.db.deliveries && t.db.deliveries[d].event == s.db.deliveries[d].event
              && t.db.deliveries[d].endpoint == s.db.deliveries[d].endpoint
              && (s.db.deliveries[d].status != Delivering ==> t.db.deliveries[d].status != Delivering))
          || (d in t.log.purged && t.log.purged[d] == s.db.deliveries[d]))
  }

  ghost predicate Traced(s: State, t: State) {
    && s.nextId <= t.nextId
    && (forall m | m in s.stream.entries :: m in t.stream.entries && t.stream.entries[m] == s.stream.entries[m])
    && EventsNotRevived(s, t)
    && (forall p | p in t.db.endpoints && p < s.nextId :: p in s.db.endpoints)
    && RowsTraced(s, t)
  }

  lemma ApiTraced(c: Config, s: State, step: Step, t: State)
    requires ApiNext(c, s, step, t)
    ensures Traced(s, t)
  {
    ApiFrames(c, s, step, t);
    ApiRevivesNothing(c, s, step, t);
    ApiEndpointsGone(c, s, step, t);
    hide ApiNext;
  }

  lemma ApiEndpointsGone(c: Config, s: State, step: Step, t: State)
    requires ApiNext(c, s, step, t)
    ensures forall p | p in t.db.endpoints && p < s.nextId :: p in s.db.endpoints
  {
  }

  lemma PublisherTraced(c: Config, s: State, step: Step, t: State)
    requires PublisherNext(c, s, step, t) && IdsBounded(s)
    ensures Traced(s, t)
  {
    PublisherFrames(c, s, step, t);
    PublisherStream(c, s, step, t);
    OthersReviveNothing(c, s, step, t);
    hide PublisherNext;
  }

  lemma SchedulerTraced(c: Config, s: State, step: Step, t: State)
    requires SchedulerNext(c, s, step, t) && IdsBounded(s) && PurgedApart(s)
    ensures Traced(s, t)
  {
    SchedulerFrames(c, s, step, t);
    SchedulerStream(c, s, step, t);
    OthersReviveNothing(c, s, step, t);
    SchedulerRows(c, s, step, t);
    hide SchedulerNext;
  }

  lemma SweptRows(c: Config, s: State)
    requires PurgedApart(s)
    ensures RowsTraced(s, RetentionEffect(c, s))
  {
  }

  lemma RequeuedRows(s: State, x: Id)
    requires x in s.requeues
    ensures RowsTraced(s, RequeueCommitEffect(s, x))
  {
  }

  lemma PassRows(c: Config, s: State, step: Step, t: State)
    requires SchedulerNext(c, s, step, t) && !step.Retention? && !step.RequeueCommit?
    ensures t.db.deliveries == s.db.deliveries && t.log == s.log
  {
  }

  lemma SchedulerRows(c: Config, s: State, step: Step, t: State)
    requires SchedulerNext(c, s, step, t) && PurgedApart(s)
    ensures RowsTraced(s, t)
  {
    hide RetentionEffect, RequeueCommitEffect, PurgedApart;
    if step.Retention? {
      SweptRows(c, s);
    } else if step.RequeueCommit? {
      RequeuedRows(s, step.txn);
    } else {
      PassRows(c, s, step, t);
    }
  }

  lemma WorkerRows(c: Config, s: State, step: Step, t: State)
    requires WorkerNext(c, s, step, t) && IdsBounded(s) && HandlersOk(s.handlers, s.stream, s.db.deliveries, s.nextId)
    ensures t.db.endpoints.Keys == s.db.endpoints.Keys
    ensures forall d | d in s.db.deliveries ::
              && d in t.db.deliveries && t.db.deliveries[d].event == s.db.deliveries[d].event
              && t.db.deliveries[d].endpoint == s.db.deliveries[d].endpoint
              && (s.db.deliveries[d].status != Delivering ==> t.db.deliveries[d].status != Delivering)
  {
    hide LeftAlone, Targets;
    if step.SaveDelivery? {
      assert HandlerOk(s.handlers[step.handler], s.stream, s.db.deliveries, s.nextId);
    }
  }

  lemma WorkerTraced(c: Config, s: State, step: Step, t: State)
    requires WorkerNext(c, s, step, t) && IdsBounded(s) && HandlersOk(s.handlers, s.stream, s.db.deliveries, s.nextId)
    ensures Traced(s, t)
  {
    WorkerFrames(c, s, step, t);
    WorkerRevivesNothing(c, s, step, t);
    WorkerRows(c, s, step, t);
    hide WorkerNext, HandlersOk;
  }

  lemma StepTraced(c: Config, s: State, step: Step, t: State)
    requires Next(c, s, step, t) && Sound(s) && PurgedApart(s)
    ensures Traced(s, t)
  {
    hide ApiNext, PublisherNext, SchedulerNext, WorkerNext, Traced, PurgedApart, IdsBounded, PublishLocks, RequeueLocks, Refs, HandlersOk;
    if WorkerNext(c, s, step, t) { WorkerTraced(c, s, step, t); }
    else if ApiNext(c, s, step, t) { ApiTraced(c, s, step, t); }
    else if PublisherNext(c, s, step, t) { PublisherTraced(c, s, step, t); }
    else { SchedulerTraced(c, s, step, t); }
  }

  /** There is no one to deliver to any more. */
  ghost predicate Gone(s: State, e: Id, p: Id) {
    e !in s.db.events || p !in s.db.endpoints
  }

  /** A row of the pair younger than `k` that is no longer being delivered. */
  ghost predicate AccountedBy(deliveries: map<Id, Delivery>, d: Id, e: Id, p: Id, k: Id) {
    d in deliveries && k < d && deliveries[d].event == e && deliveries[d].endpoint == p && deliveries[d].status != Delivering
  }

  /** There is such a row, or retention removed one of the pair that is younger than `k`. */
  ghost predicate Accounted(s: State, e: Id, p: Id, k: Id) {
    || (exists d :: AccountedBy(s.db.deliveries, d, e, p, k))
    || (exists d :: PurgeCovers(s.log, d, e, p, k))
  }

  lemma AccountedKept(s: State, t: State, e: Id, p: Id, k: Id)
    requires Accounted(s, e, p, k) && RowsTraced(s, t)
    ensures Accounted(t, e, p, k)
  {
    if d :| AccountedBy(s.db.deliveries, d, e, p, k) {
      assert AccountedBy(t.db.deliveries, d, e, p, k) || PurgeCovers(t.log, d, e, p, k);
    } else {
      var d :| PurgeCovers(s.log, d, e, p, k);
      assert PurgeCovers(t.log, d, e, p, k);
    }
  }

  /** A row of the pair is there, or retention removed it. */
  ghost predicate RowTraced(s: State, d: Id, e: Id, p: Id) {
    || (d in s.db.deliveries && s.db.deliveries[d].event == e && s.db.deliveries[d].endpoint == p)
    || (d in s.log.purged && s.log.purged[d].event == e && s.log.purged[d].endpoint == p)
  }

  /** A row is still traced after any further steps. */
  lemma {:induction false} RowStaysTraced(c: Config, r: Run, from: nat, to: nat, d: Id, e: Id, p: Id)
    requires IsHistory(c, r) && from <= to < |r.states| && RowTraced(r.states[from], d, e, p)
    ensures RowTraced(r.states[to], d, e, p)
  {
    hide Next, Sound, Safe;
    if from < to {
      RowStaysTraced(c, r, from, to - 1, d, e, p);
      AlwaysSound(c, r, to - 1);
      AlwaysSafe(c, r, to - 1);
      SafeParts(r.states[to - 1]);
      StepTraced(c, r.states[to - 1], r.steps[to - 1], r.states[to]);
    }
  }

  lemma {:induction false} MessageStays(c: Config, r: Run, from: nat, to: nat, m: Id)
    requires IsHistory(c, r) && from <= to < |r.states| && m in r.states[from].stream.entries
    ensures m in r.states[to].stream.entries && r.states[to].stream.entries[m] == r.states[from].stream.entries[m]
  {
    hide Next, Sound, Safe;
    if from < to {
      MessageStays(c, r, from, to - 1, m);
      AlwaysSound(c, r, to - 1);
      AlwaysSafe(c, r, to - 1);
      SafeParts(r.states[to - 1]);
      StepTraced(c, r.states[to - 1], r.steps[to - 1], r.states[to]);
    }
  }
}
