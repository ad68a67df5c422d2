/** Which parts of the state each process leaves alone. */
module Frames {
  import opened Pipeline

  /** Nothing the delivery side records is touched. */
  ghost predicate SameDeliveryLog(a: History, b: History) {
    a.resolved == b.resolved && a.missed == b.missed && a.purged == b.purged && a.completions == b.completions
  }

  /** Nothing the ingestion side records is touched. */
  ghost predicate SameIngestLog(a: History, b: History) {
    a.born == b.born && a.owner == b.owner && a.subscribed == b.subscribed && a.responses == b.responses
  }

  /** The API's routes do not touch the stream, the transactions, the handlers or the deliveries. */
  ghost predicate ApiFrame(s: State, t: State) {
    && t.stream == s.stream && t.publishers == s.publishers && t.requeues == s.requeues && t.handlers == s.handlers
    && t.db.deliveries == s.db.deliveries && SameDeliveryLog(s.log, t.log) && s.nextId <= t.nextId
  }

  /** The publisher only writes its own transaction, the outbox, event statuses and the stream. */
  ghost predicate PublisherFrame(s: State, t: State) {
    && t.now == s.now && t.requeues == s.requeues && t.handlers == s.handlers && t.requests == s.requests && t.log == s.log
    && t.db.deliveries == s.db.deliveries && t.db.keys == s.db.keys && t.db.endpoints == s.db.endpoints
    && s.nextId <= t.nextId
  }

  /** The requeue pass only writes its own transaction, the deliveries and the stream. */
  ghost predicate RequeueFrame(s: State, t: State) {
    && t.now == s.now && t.publishers == s.publishers && t.handlers == s.handlers && t.requests == s.requests && t.log == s.log
    && t.db == s.db.(deliveries := t.db.deliveries) && s.nextId <= t.nextId
  }

  /** Retention only removes rows. */
  ghost predicate RetentionFrame(s: State, t: State) {
    t == s.(db := t.db, log := s.log.(purged := t.log.purged)) && t.db.endpoints == s.db.endpoints
  }

  /** A handler leaves the outbox, the keys and the transactions alone, and adds nothing to the stream. */
  ghost predicate WorkerFrame(s: State, t: State) {
    && t.now == s.now && t.publishers == s.publishers && t.requeues == s.requeues && t.requests == s.requests
    && t.db.outbox == s.db.outbox && t.db.keys == s.db.keys && t.stream.entries == s.stream.entries
    && SameIngestLog(s.log, t.log) && t.log.purged == s.log.purged && s.nextId <= t.nextId
  }

  lemma ApiFrames(c: Config, s: State, step: Step, t: State)
    requires ApiNext(c, s, step, t)
    ensures ApiFrame(s, t) && (!step.Tick? ==> t.now == s.now)
  {
    match step
    case IngestLookup(_) => assert ApiFrame(s, t);
    case IngestCommit(_) => assert ApiFrame(s, t);
    case CreateEndpoint(_, _) => assert ApiFrame(s, t);
    case UpdateEndpoint(_, _, _) => assert ApiFrame(s, t);
    case ReplayEvent(_, _) => assert ApiFrame(s, t);
    case ReplayDlq(_, _) => assert ApiFrame(s, t);
    case _ =>
  }

  lemma PublisherFrames(c: Config, s: State, step: Step, t: State)
    requires PublisherNext(c, s, step, t)
    ensures PublisherFrame(s, t)
  {
  }

  lemma SchedulerFrames(c: Config, s: State, step: Step, t: State)
    requires SchedulerNext(c, s, step, t)
    ensures if step.Retention? then RetentionFrame(s, t) else RequeueFrame(s, t)
  {
  }

  lemma WorkerFrames(c: Config, s: State, step: Step, t: State)
    requires WorkerNext(c, s, step, t)
    ensures WorkerFrame(s, t) && (!step.SaveDelivery? ==> t.log.completions == s.log.completions)
  {
    match step
    case Resolve(_, _) => assert WorkerFrame(s, t);
    case DeliverNext(_) => assert WorkerFrame(s, t);
    case Respond(_, _, _) => assert WorkerFrame(s, t);
    case SaveDelivery(_) => assert WorkerFrame(s, t);
    case _ =>
  }

  lemma CounterGrows(c: Config, s: State, step: Step, t: State)
    requires Next(c, s, step, t)
    ensures s.nextId <= t.nextId
  {
    hide ApiNext, PublisherNext, SchedulerNext, WorkerNext;
    if ApiNext(c, s, step, t) { ApiFrames(c, s, step, t); }
    else if PublisherNext(c, s, step, t) { PublisherFrames(c, s, step, t); }
    else if SchedulerNext(c, s, step, t) { SchedulerFrames(c, s, step, t); }
    else { WorkerFrames(c, s, step, t); }
  }
}
