/**
 * Exact accounting of duplicates over whole runs. A row calls for one message once it is published; every further one
 * stems from a fault between the append to the stream and the commit.
 */
module Duplicates {
  import opened Common
  import opened Tables
  import opened Broker
  import opened Pipeline
  import opened Frames
  import opened Integrity
  import opened Publication

  /** An open transaction has published the outbox row and not yet committed. */
  predicate InFlight(publishers: map<Id, PublishTxn>, o: Id) {
    exists t | t in publishers :: o in publishers[t].done && publishers[t].done[o].status == Published
  }

  /** An open pass has published the retry and not yet committed. */
  predicate RetryInFlight(requeues: map<Id, RequeueTxn>, d: Id) {
    exists t | t in requeues :: d in requeues[t].published
  }

  /** What the state of a row calls for. */
  function CalledFor(s: State, source: Source): nat {
    match source
    case FromOutbox(o) => Bit(o in s.db.outbox && s.db.outbox[o].status == Published) + Bit(InFlight(s.publishers, o))
    case FromRetry(d) => Bit(d in s.db.deliveries && s.db.deliveries[d].status == Queued) + Bit(RetryInFlight(s.requeues, d))
  }

  /**
   * The faults of one step: a publish call that failed after the append, and a rollback of a transaction or pass that
   * had published the row.
   */
  function FaultOf(s: State, step: Step, source: Source): nat {
    match source
    case FromOutbox(o) =>
      (match step
       case PublishRow(_, row, result) => Bit(row == o && result == XaddLost)
       case PublishAbort(t) => Bit(t in s.publishers && o in s.publishers[t].done && s.publishers[t].done[o].status == Published)
       case _ => 0)
    case FromRetry(d) =>
      (match step
       case RequeueAbort(t, lost) => Bit(t in s.requeues && d in s.requeues[t].published) + Bit(lost == Some(d))
       case _ => 0)
  }

  /** The faults of the first `n` steps of a run. */
  function Faults(r: Run, source: Source, n: nat): nat
    requires n <= |r.steps| < |r.states|
  {
    if n == 0 then 0 else Faults(r, source, n - 1) + FaultOf(r.states[n - 1], r.steps[n - 1], source)
  }

  /** The row the messages are for is still there, or has not been created yet. */
  predicate NotRemoved(s: State, source: Source) {
    match source
    case FromOutbox(o) => o in s.db.outbox || o >= s.nextId
    case FromRetry(d) => d in s.db.deliveries || d >= s.nextId
  }

  ghost predicate Counted(s: State, source: Source, faults: nat) {
    |MessagesFor(s.stream.entries, source)| == CalledFor(s, source) + faults
  }

  // ---- Outbox rows. ----

  lemma InFlightPending(publishers: map<Id, PublishTxn>, outbox: map<Id, OutboxRow>, o: Id)
    requires PublishLocks(publishers, outbox) && InFlight(publishers, o)
    ensures o in outbox && outbox[o].status == Pending
  {
    var t :| t in publishers && o in publishers[t].done;
    assert PublishTxnOk(publishers[t], outbox);
  }

  lemma InFlightAfterRow(publishers: map<Id, PublishTxn>, outbox: map<Id, OutboxRow>, t: Id, row: Id, txn: PublishTxn, o: Id)
    requires PublishLocks(publishers, outbox) && t in publishers && row in publishers[t].todo
    requires row in txn.done && txn.done == publishers[t].done[row := txn.done[row]]
    ensures InFlight(publishers[t := txn], o) <==>
            if o == row then txn.done[row].status == Published else InFlight(publishers, o)
    ensures !InFlight(publishers, row)
  {
    var after := publishers[t := txn];
    NotDone(publishers, outbox, t, row);
    if o == row {
      assert t in after;
    } else if InFlight(publishers, o) {
      var u :| u in publishers && o in publishers[u].done && publishers[u].done[o].status == Published;
      assert u in after && o in after[u].done;
    }
  }

  lemma InFlightAfterEnd(publishers: map<Id, PublishTxn>, outbox: map<Id, OutboxRow>, t: Id, o: Id)
    requires PublishLocks(publishers, outbox) && t in publishers
    ensures var mine := o in publishers[t].done && publishers[t].done[o].status == Published;
            && (mine ==> InFlight(publishers, o) && !InFlight(publishers - {t}, o))
            && (!mine ==> (InFlight(publishers, o) <==> InFlight(publishers - {t}, o)))
  {
    var rest := publishers - {t};
    if o in publishers[t].done {
      forall u | u in rest ensures o !in rest[u].done {
        assert Apart(publishers[t], publishers[u]);
        assert o in publishers[t].todo + publishers[t].done.Keys;
      }
    } else if InFlight(publishers, o) {
      var u :| u in publishers && o in publishers[u].done && publishers[u].done[o].status == Published;
      assert u in rest;
    }
  }

  lemma PublishRowCounts(s: State, t: Id, row: Id, result: XaddResult, o: Id, faults: nat)
    requires IdsBounded(s) && PublishLocks(s.publishers, s.db.outbox) && CanPublishRow(s, t, row)
    requires Counted(s, FromOutbox(o), faults)
    ensures Counted(PublishRowEffect(s, t, row, result), FromOutbox(o), faults + Bit(row == o && result == XaddLost))
  {
    hide PublishLocks;
    var s' := PublishRowEffect(s, t, row, result);
    InFlightAfterRow(s.publishers, s.db.outbox, t, row, s'.publishers[t], o);
    MessagesAfterAdd(s.stream.entries, s.nextId, Message(FromOutbox(row), s.db.outbox[row].payload), FromOutbox(o));
    LockedPending(s.publishers, s.db.outbox, t, row);
  }

  lemma PublishCommitCounts(s: State, t: Id, o: Id, faults: nat)
    requires PublishLocks(s.publishers, s.db.outbox) && CanPublishCommit(s, t)
    requires Counted(s, FromOutbox(o), faults)
    ensures Counted(PublishCommitEffect(s, t), FromOutbox(o), faults)
  {
    hide PublishLocks, InFlight, MessagesFor;
    InFlightAfterEnd(s.publishers, s.db.outbox, t, o);
    if o in s.publishers[t].done {
      LockedPending(s.publishers, s.db.outbox, t, o);
    }
  }

  lemma PublishAbortCounts(s: State, t: Id, o: Id, faults: nat)
    requires PublishLocks(s.publishers, s.db.outbox) && t in s.publishers
    requires Counted(s, FromOutbox(o), faults)
    ensures Counted(s.(publishers := s.publishers - {t}), FromOutbox(o), faults + FaultOf(s, PublishAbort(t), FromOutbox(o)))
  {
    hide PublishLocks, InFlight;
    InFlightAfterEnd(s.publishers, s.db.outbox, t, o);
  }

  lemma PublishOpenCounts(s: State, rows: set<Id>, o: Id, faults: nat)
    requires IdsBounded(s) && Counted(s, FromOutbox(o), faults)
    ensures Counted(PublishOpenEffect(s, rows), FromOutbox(o), faults)
  {
    var after := PublishOpenEffect(s, rows).publishers;
    if InFlight(s.publishers, o) {
      var t :| t in s.publishers && o in s.publishers[t].done && s.publishers[t].done[o].status == Published;
      assert t in after && after[t] == s.publishers[t];
    }
  }

  /** Steps that touch neither publishers nor any message or status of this outbox row. */
  lemma QuietCounts(s: State, t: State, o: Id, faults: nat)
    requires Counted(s, FromOutbox(o), faults) && t.publishers == s.publishers
    requires t.stream.entries == s.stream.entries && t.db.outbox == s.db.outbox
    ensures Counted(t, FromOutbox(o), faults)
  {
  }

  lemma InsertCounts(s: State, t: State, o: Id, faults: nat)
    requires Counted(s, FromOutbox(o), faults) && IdsBounded(s) && t.publishers == s.publishers && t.stream == s.stream
    requires forall x | x in t.db.outbox ::
               (x in s.db.outbox && t.db.outbox[x] == s.db.outbox[x]) || (x >= s.nextId && t.db.outbox[x].status == Pending)
    requires forall x | x in s.db.outbox :: x in t.db.outbox
    ensures Counted(t, FromOutbox(o), faults)
  {
  }

  lemma IngestCounts(c: Config, s: State, r: Id, o: Id, faults: nat)
    requires Counted(s, FromOutbox(o), faults) && IdsBounded(s) && r in s.requests
    ensures Counted(IngestCommitEffect(c, s, r), FromOutbox(o), faults)
  {
    hide Counted;
    InsertCounts(s, IngestCommitEffect(c, s, r), o, faults);
  }

  lemma ReplayEventCounts(s: State, tenant: Id, e: Id, o: Id, faults: nat)
    requires Counted(s, FromOutbox(o), faults) && IdsBounded(s) && CanReplayEvent(s, tenant, e)
    ensures Counted(ReplayEventEffect(s, tenant, e), FromOutbox(o), faults)
  {
    hide Counted;
    InsertCounts(s, ReplayEventEffect(s, tenant, e), o, faults);
  }

  lemma ReplayDlqCounts(s: State, tenant: Id, d: Id, o: Id, faults: nat)
    requires Counted(s, FromOutbox(o), faults) && IdsBounded(s) && CanReplayDlq(s, tenant, d)
    ensures Counted(ReplayDlqEffect(s, tenant, d), FromOutbox(o), faults)
  {
    hide Counted;
    InsertCounts(s, ReplayDlqEffect(s, tenant, d), o, faults);
  }

  lemma RetentionCounts(c: Config, s: State, o: Id, faults: nat)
    requires Counted(s, FromOutbox(o), faults) && NotRemoved(RetentionEffect(c, s), FromOutbox(o)) && IdsBounded(s)
    ensures Counted(RetentionEffect(c, s), FromOutbox(o), faults)
  {
    hide InFlight;
  }

  lemma AddOtherCounts(s: State, t: State, source: Source, m: Message, faults: nat)
    requires Counted(s, source, faults) && IdsBounded(s) && m.source != source
    requires t.stream.entries == s.stream.entries[s.nextId := m] && CalledFor(t, source) == CalledFor(s, source)
    ensures Counted(t, source, faults)
  {
    hide CalledFor;
    MessagesAfterAdd(s.stream.entries, s.nextId, m, source);
  }

  lemma RequeueRowOutboxCounts(s: State, x: Id, d: Id, o: Id, faults: nat)
    requires Counted(s, FromOutbox(o), faults) && IdsBounded(s) && CanRequeueRow(s, x, d)
    ensures Counted(RequeueRowEffect(s, x, d), FromOutbox(o), faults)
  {
    hide InFlight, IdsBounded, MessagesFor;
    var t := RequeueRowEffect(s, x, d);
    if t.stream != s.stream {
      AddOtherCounts(s, t, FromOutbox(o), t.stream.entries[s.nextId], faults);
    }
  }

  lemma RequeueAbortOutboxCounts(s: State, x: Id, lost: Option<Id>, o: Id, faults: nat)
    requires Counted(s, FromOutbox(o), faults) && IdsBounded(s) && CanRequeueAbort(s, x, lost)
    ensures Counted(RequeueAbortEffect(s, x, lost), FromOutbox(o), faults)
  {
    hide InFlight, IdsBounded, MessagesFor;
    var t := RequeueAbortEffect(s, x, lost);
    if t.stream != s.stream {
      AddOtherCounts(s, t, FromOutbox(o), t.stream.entries[s.nextId], faults);
    }
  }

  lemma ApiOutboxCounts(c: Config, s: State, step: Step, t: State, o: Id, faults: nat)
    requires Sound(s) && ApiNext(c, s, step, t)
    requires Counted(s, FromOutbox(o), faults) && NotRemoved(t, FromOutbox(o))
    ensures Counted(t, FromOutbox(o), faults + FaultOf(s, step, FromOutbox(o)))
  {
    hide HandlersOk, RequeueLocks, PublishLocks, Refs, IdsBounded, WellFormed, Counted, MessagesFor, NotRemoved;
    hide IngestCommitEffect, ReplayEventEffect, ReplayDlqEffect;
    match step
    case IngestCommit(r) => IngestCounts(c, s, r, o, faults);
    case ReplayEvent(tenant, e) => ReplayEventCounts(s, tenant, e, o, faults);
    case ReplayDlq(tenant, d) => ReplayDlqCounts(s, tenant, d, o, faults);
    case _ => QuietCounts(s, t, o, faults);
  }

  lemma PublisherOutboxCounts(c: Config, s: State, step: Step, t: State, o: Id, faults: nat)
    requires Sound(s) && PublisherNext(c, s, step, t)
    requires Counted(s, FromOutbox(o), faults) && NotRemoved(t, FromOutbox(o))
    ensures Counted(t, FromOutbox(o), faults + FaultOf(s, step, FromOutbox(o)))
  {
    hide HandlersOk, RequeueLocks, PublishLocks, Refs, IdsBounded, WellFormed, Counted, MessagesFor, NotRemoved;
    hide PublishOpenEffect, PublishRowEffect, PublishCommitEffect;
    match step
    case PublishOpen(rows) => PublishOpenCounts(s, rows, o, faults);
    case PublishRow(x, row, result) => PublishRowCounts(s, x, row, result, o, faults);
    case PublishCommit(x) => PublishCommitCounts(s, x, o, faults);
    case PublishAbort(x) => PublishAbortCounts(s, x, o, faults);
    case _ =>
  }

  lemma SchedulerOutboxCounts(c: Config, s: State, step: Step, t: State, o: Id, faults: nat)
    requires Sound(s) && SchedulerNext(c, s, step, t)
    requires Counted(s, FromOutbox(o), faults) && NotRemoved(t, FromOutbox(o))
    ensures Counted(t, FromOutbox(o), faults + FaultOf(s, step, FromOutbox(o)))
  {
    hide HandlersOk, RequeueLocks, PublishLocks, Refs, IdsBounded, WellFormed, Counted, MessagesFor, NotRemoved;
    hide RequeueRowEffect, RequeueAbortEffect, RetentionEffect;
    match step
    case RequeueRow(x, d) => RequeueRowOutboxCounts(s, x, d, o, faults);
    case RequeueAbort(x, lost) => RequeueAbortOutboxCounts(s, x, lost, o, faults);
    case Retention => RetentionCounts(c, s, o, faults);
    case _ => QuietCounts(s, t, o, faults);
  }

  lemma WorkerOutboxCounts(c: Config, s: State, step: Step, t: State, o: Id, faults: nat)
    requires Sound(s) && WorkerNext(c, s, step, t)
    requires Counted(s, FromOutbox(o), faults) && NotRemoved(t, FromOutbox(o))
    ensures Counted(t, FromOutbox(o), faults + FaultOf(s, step, FromOutbox(o)))
  {
    hide HandlersOk, RequeueLocks, PublishLocks, Refs, IdsBounded, WellFormed, Counted, MessagesFor, NotRemoved;
    QuietCounts(s, t, o, faults);
  }

  lemma OutboxCountsStep(c: Config, s: State, step: Step, t: State, o: Id, faults: nat)
    requires Sound(s) && Next(c, s, step, t)
    requires Counted(s, FromOutbox(o), faults) && NotRemoved(t, FromOutbox(o))
    ensures Counted(t, FromOutbox(o), faults + FaultOf(s, step, FromOutbox(o)))
  {
    hide ApiNext, PublisherNext, SchedulerNext, WorkerNext, HandlersOk, RequeueLocks, PublishLocks, Refs;
    hide IdsBounded, WellFormed, Counted, MessagesFor, NotRemoved;
    if ApiNext(c, s, step, t) {
      ApiOutboxCounts(c, s, step, t, o, faults);
    } else if PublisherNext(c, s, step, t) {
      PublisherOutboxCounts(c, s, step, t, o, faults);
    } else if SchedulerNext(c, s, step, t) {
      SchedulerOutboxCounts(c, s, step, t, o, faults);
    } else {
      WorkerOutboxCounts(c, s, step, t, o, faults);
    }
  }

  // ---- Retried deliveries. ----

  lemma RetryInFlightRetrying(requeues: map<Id, RequeueTxn>, deliveries: map<Id, Delivery>, d: Id)
    requires RequeueLocks(requeues, deliveries) && RetryInFlight(requeues, d)
    ensures d in deliveries && deliveries[d].status == Retrying
  {
    var t :| t in requeues && d in requeues[t].published;
    assert RequeueTxnOk(requeues[t], deliveries);
  }

  lemma RetryInFlightAfterEnd(requeues: map<Id, RequeueTxn>, deliveries: map<Id, Delivery>, t: Id, d: Id)
    requires RequeueLocks(requeues, deliveries) && t in requeues
    ensures var mine := d in requeues[t].published;
            && (mine ==> RetryInFlight(requeues, d) && !RetryInFlight(requeues - {t}, d))
            && (!mine ==> (RetryInFlight(requeues, d) <==> RetryInFlight(requeues - {t}, d)))
  {
    var rest := requeues - {t};
    if d in requeues[t].published {
      forall u | u in rest ensures d !in rest[u].published {
        assert ApartRetries(requeues[t], requeues[u]);
        assert d in requeues[t].todo + requeues[t].published.Keys;
      }
    } else if RetryInFlight(requeues, d) {
      var u :| u in requeues && d in requeues[u].published;
      assert u in rest;
    }
  }

  lemma RetryInFlightAfterRow(requeues: map<Id, RequeueTxn>, deliveries: map<Id, Delivery>, t: Id, row: Id, txn: RequeueTxn, d: Id)
    requires RequeueLocks(requeues, deliveries) && t in requeues && row in requeues[t].todo
    requires txn.published.Keys == requeues[t].published.Keys + {row}
    ensures RetryInFlight(requeues[t := txn], d) <==> d == row || RetryInFlight(requeues, d)
    ensures !RetryInFlight(requeues, row)
  {
    var after := requeues[t := txn];
    forall u | u in requeues ensures row !in requeues[u].published {
      assert RequeueTxnOk(requeues[t], deliveries);
      assert u == t || ApartRetries(requeues[t], requeues[u]);
      assert row in requeues[t].todo + requeues[t].published.Keys;
    }
    if d == row {
      assert t in after && d in after[t].published;
    } else if RetryInFlight(requeues, d) {
      var u :| u in requeues && d in requeues[u].published;
      assert u in after && d in after[u].published;
    }
  }

  lemma RequeueRowCounts(s: State, t: Id, row: Id, d: Id, faults: nat)
    requires IdsBounded(s) && RequeueLocks(s.requeues, s.db.deliveries) && Refs(s.db) && CanRequeueRow(s, t, row)
    requires Counted(s, FromRetry(d), faults)
    ensures Counted(RequeueRowEffect(s, t, row), FromRetry(d), faults)
  {
    var s' := RequeueRowEffect(s, t, row);
    assert s.db.deliveries[row].event in s.db.events;
    hide RequeueLocks, Refs, RetryInFlight;
    RetryInFlightAfterRow(s.requeues, s.db.deliveries, t, row, s'.requeues[t], d);
    MessagesAfterAdd(s.stream.entries, s.nextId, s'.stream.entries[s.nextId], FromRetry(d));
  }

  lemma RequeueCommitCounts(s: State, t: Id, d: Id, faults: nat)
    requires RequeueLocks(s.requeues, s.db.deliveries) && CanRequeueCommit(s, t)
    requires Counted(s, FromRetry(d), faults)
    ensures Counted(RequeueCommitEffect(s, t), FromRetry(d), faults)
  {
    hide RequeueLocks, RetryInFlight, MessagesFor;
    RetryInFlightAfterEnd(s.requeues, s.db.deliveries, t, d);
    if d in s.requeues[t].published {
      RetryInFlightRetrying(s.requeues, s.db.deliveries, d);
    }
  }

  lemma RequeueAbortCounts(s: State, t: Id, lost: Option<Id>, d: Id, faults: nat)
    requires IdsBounded(s) && RequeueLocks(s.requeues, s.db.deliveries) && CanRequeueAbort(s, t, lost)
    requires Counted(s, FromRetry(d), faults)
    ensures Counted(RequeueAbortEffect(s, t, lost), FromRetry(d), faults + FaultOf(s, RequeueAbort(t, lost), FromRetry(d)))
  {
    hide RequeueLocks, RetryInFlight;
    var s' := RequeueAbortEffect(s, t, lost);
    RetryInFlightAfterEnd(s.requeues, s.db.deliveries, t, d);
    if lost.Some? {
      MessagesAfterAdd(s.stream.entries, s.nextId, s'.stream.entries[s.nextId], FromRetry(d));
    }
  }

  lemma RequeueOpenCounts(s: State, rows: set<Id>, d: Id, faults: nat)
    requires IdsBounded(s) && Counted(s, FromRetry(d), faults)
    ensures Counted(RequeueOpenEffect(s, rows), FromRetry(d), faults)
  {
    var after := RequeueOpenEffect(s, rows).requeues;
    if RetryInFlight(s.requeues, d) {
      var t :| t in s.requeues && d in s.requeues[t].published;
      assert t in after && after[t] == s.requeues[t];
    }
  }

  lemma PublishRowRetryCounts(s: State, x: Id, row: Id, result: XaddResult, d: Id, faults: nat)
    requires Counted(s, FromRetry(d), faults) && IdsBounded(s) && CanPublishRow(s, x, row)
    ensures Counted(PublishRowEffect(s, x, row, result), FromRetry(d), faults)
  {
    hide RetryInFlight, IdsBounded, MessagesFor;
    var t := PublishRowEffect(s, x, row, result);
    if result != XaddFailed {
      AddOtherCounts(s, t, FromRetry(d), t.stream.entries[s.nextId], faults);
    }
  }

  /** Steps that add or change rows without making any of them queued. */
  lemma DeliveriesCounts(s: State, t: State, d: Id, faults: nat)
    requires Counted(s, FromRetry(d), faults) && t.requeues == s.requeues && t.stream.entries == s.stream.entries
    requires d in s.db.deliveries && d in t.db.deliveries && s.db.deliveries[d] != t.db.deliveries[d] ==>
               s.db.deliveries[d].status == Delivering && t.db.deliveries[d].status != Queued
    requires d in t.db.deliveries && d !in s.db.deliveries ==> t.db.deliveries[d].status != Queued
    requires d in s.db.deliveries ==> d in t.db.deliveries
    ensures Counted(t, FromRetry(d), faults)
  {
    hide RetryInFlight;
  }

  lemma DeliverNextCounts(c: Config, s: State, h: Id, d: Id, faults: nat)
    requires Counted(s, FromRetry(d), faults) && IdsBounded(s) && CanDeliverNext(s, h)
    ensures Counted(DeliverNextEffect(c, s, h), FromRetry(d), faults)
  {
    hide Counted;
    DeliveriesCounts(s, DeliverNextEffect(c, s, h), d, faults);
  }

  lemma SaveDeliveryCounts(s: State, h: Id, d: Id, faults: nat)
    requires Counted(s, FromRetry(d), faults) && HandlersOk(s.handlers, s.stream, s.db.deliveries, s.nextId)
    requires CanSaveDelivery(s, h)
    ensures Counted(SaveDeliveryEffect(s, h), FromRetry(d), faults)
  {
    assert HandlerOk(s.handlers[h], s.stream, s.db.deliveries, s.nextId);
    hide Counted, HandlersOk;
    DeliveriesCounts(s, SaveDeliveryEffect(s, h), d, faults);
  }

  lemma RetentionRetryCounts(c: Config, s: State, d: Id, faults: nat)
    requires Counted(s, FromRetry(d), faults) && NotRemoved(RetentionEffect(c, s), FromRetry(d)) && IdsBounded(s)
    ensures Counted(RetentionEffect(c, s), FromRetry(d), faults)
  {
    hide Counted;
    DeliveriesCounts(s, RetentionEffect(c, s), d, faults);
  }

  lemma QuietRetryCounts(s: State, t: State, d: Id, faults: nat)
    requires Counted(s, FromRetry(d), faults) && t.requeues == s.requeues
    requires t.stream.entries == s.stream.entries && t.db.deliveries == s.db.deliveries
    ensures Counted(t, FromRetry(d), faults)
  {
  }

  lemma ApiRetryCounts(c: Config, s: State, step: Step, t: State, d: Id, faults: nat)
    requires Sound(s) && ApiNext(c, s, step, t)
    requires Counted(s, FromRetry(d), faults) && NotRemoved(t, FromRetry(d))
    ensures Counted(t, FromRetry(d), faults + FaultOf(s, step, FromRetry(d)))
  {
    hide HandlersOk, RequeueLocks, PublishLocks, Refs, IdsBounded, WellFormed, Counted, MessagesFor, NotRemoved;
    QuietRetryCounts(s, t, d, faults);
  }

  lemma PublisherRetryCounts(c: Config, s: State, step: Step, t: State, d: Id, faults: nat)
    requires Sound(s) && PublisherNext(c, s, step, t)
    requires Counted(s, FromRetry(d), faults) && NotRemoved(t, FromRetry(d))
    ensures Counted(t, FromRetry(d), faults + FaultOf(s, step, FromRetry(d)))
  {
    hide HandlersOk, RequeueLocks, PublishLocks, Refs, IdsBounded, WellFormed, Counted, MessagesFor, NotRemoved;
    hide PublishRowEffect;
    match step
    case PublishRow(x, row, result) => PublishRowRetryCounts(s, x, row, result, d, faults);
    case _ => QuietRetryCounts(s, t, d, faults);
  }

  lemma SchedulerRetryCounts(c: Config, s: State, step: Step, t: State, d: Id, faults: nat)
    requires Sound(s) && SchedulerNext(c, s, step, t)
    requires Counted(s, FromRetry(d), faults) && NotRemoved(t, FromRetry(d))
    ensures Counted(t, FromRetry(d), faults + FaultOf(s, step, FromRetry(d)))
  {
    hide HandlersOk, RequeueLocks, PublishLocks, Refs, IdsBounded, WellFormed, Counted, MessagesFor, NotRemoved;
    hide RequeueOpenEffect, RequeueRowEffect, RequeueCommitEffect, RequeueAbortEffect, RetentionEffect;
    match step
    case RequeueOpen(rows) => RequeueOpenCounts(s, rows, d, faults);
    case RequeueRow(x, row) => RequeueRowCounts(s, x, row, d, faults);
    case RequeueCommit(x) => RequeueCommitCounts(s, x, d, faults);
    case RequeueAbort(x, lost) => RequeueAbortCounts(s, x, lost, d, faults);
    case Retention => RetentionRetryCounts(c, s, d, faults);
    case _ =>
  }

  lemma WorkerRetryCounts(c: Config, s: State, step: Step, t: State, d: Id, faults: nat)
    requires Sound(s) && WorkerNext(c, s, step, t)
    requires Counted(s, FromRetry(d), faults) && NotRemoved(t, FromRetry(d))
    ensures Counted(t, FromRetry(d), faults + FaultOf(s, step, FromRetry(d)))
  {
    hide HandlersOk, RequeueLocks, PublishLocks, Refs, IdsBounded, WellFormed, Counted, MessagesFor, NotRemoved;
    hide DeliverNextEffect, SaveDeliveryEffect;
    match step
    case DeliverNext(h) => DeliverNextCounts(c, s, h, d, faults);
    case SaveDelivery(h) => SaveDeliveryCounts(s, h, d, faults);
    case _ => QuietRetryCounts(s, t, d, faults);
  }

  lemma RetryCountsStep(c: Config, s: State, step: Step, t: State, d: Id, faults: nat)
    requires Sound(s) && Next(c, s, step, t)
    requires Counted(s, FromRetry(d), faults) && NotRemoved(t, FromRetry(d))
    ensures Counted(t, FromRetry(d), faults + FaultOf(s, step, FromRetry(d)))
  {
    hide ApiNext, PublisherNext, SchedulerNext, WorkerNext, HandlersOk, RequeueLocks, PublishLocks, Refs;
    hide IdsBounded, WellFormed, Counted, MessagesFor, NotRemoved;
    if ApiNext(c, s, step, t) {
      ApiRetryCounts(c, s, step, t, d, faults);
    } else if PublisherNext(c, s, step, t) {
      PublisherRetryCounts(c, s, step, t, d, faults);
    } else if SchedulerNext(c, s, step, t) {
      SchedulerRetryCounts(c, s, step, t, d, faults);
    } else {
      WorkerRetryCounts(c, s, step, t, d, faults);
    }
  }

  // ---- Whole runs. ----

  /** A removed row never comes back: its identifier is not used again. */
  lemma NotRemovedBefore(c: Config, s: State, step: Step, t: State, source: Source)
    requires Next(c, s, step, t) && NotRemoved(t, source) && PublishLocks(s.publishers, s.db.outbox)
    ensures NotRemoved(s, source)
  {
    hide Next, PublishLocks;
    CounterGrows(c, s, step, t);
    match source
    case FromOutbox(o) => if o in t.db.outbox { NewOutboxRows(c, s, step, t, o); }
    case FromRetry(d) => if d in t.db.deliveries { NewDeliveryRows(c, s, step, t, d); }
  }

  lemma {:induction false} CountedAlways(c: Config, r: Run, i: nat, source: Source)
    requires IsHistory(c, r) && i < |r.states| && NotRemoved(r.states[i], source)
    ensures Counted(r.states[i], source, Faults(r, source, i))
  {
    hide Next, Sound, Counted, NotRemoved, FaultOf;
    if i == 0 {
      CountedInit(source);
    } else {
      var s, step, t := r.states[i - 1], r.steps[i - 1], r.states[i];
      AlwaysSound(c, r, i - 1);
      LocksOf(s);
      NotRemovedBefore(c, s, step, t, source);
      CountedAlways(c, r, i - 1, source);
      match source
      case FromOutbox(o) => OutboxCountsStep(c, s, step, t, o, Faults(r, source, i - 1));
      case FromRetry(d) => RetryCountsStep(c, s, step, t, d, Faults(r, source, i - 1));
    }
  }

  lemma LocksOf(s: State)
    requires Sound(s)
    ensures PublishLocks(s.publishers, s.db.outbox)
  {
  }

  lemma CountedInit(source: Source)
    ensures Counted(Init, source, 0)
  {
    assert MessagesFor(map[], source) == {};
  }

  /**
   * Duplicates are exactly accounted for: for a row that exists, the messages in the stream number one if the row is
   * published (or, for a retry, queued), one if an open transaction has just published it, and one for each fault.
   */
  lemma DuplicatesAccounted(c: Config, r: Run, i: nat)
    requires IsHistory(c, r) && i < |r.states|
    ensures var s := r.states[i];
            && (forall o | o in s.db.outbox ::
                  |MessagesFor(s.stream.entries, FromOutbox(o))|
                  == Bit(s.db.outbox[o].status == Published) + Bit(InFlight(s.publishers, o)) + Faults(r, FromOutbox(o), i))
            && (forall d | d in s.db.deliveries ::
                  |MessagesFor(s.stream.entries, FromRetry(d))|
                  == Bit(s.db.deliveries[d].status == Queued) + Bit(RetryInFlight(s.requeues, d)) + Faults(r, FromRetry(d), i))
  {
    hide Next, InFlight, RetryInFlight, MessagesFor, Faults;
    var s := r.states[i];
    forall o | o in s.db.outbox ensures Counted(s, FromOutbox(o), Faults(r, FromOutbox(o), i)) {
      CountedAlways(c, r, i, FromOutbox(o));
    }
    forall d | d in s.db.deliveries ensures Counted(s, FromRetry(d), Faults(r, FromRetry(d), i)) {
      CountedAlways(c, r, i, FromRetry(d));
    }
  }

  /** A run without faults: no lost reply after an append and no rollback. */
  ghost predicate FaultFree(r: Run) {
    forall i | 0 <= i < |r.steps| ::
      !(r.steps[i].PublishRow? && r.steps[i].result == XaddLost) && !r.steps[i].PublishAbort? && !r.steps[i].RequeueAbort?
  }

  lemma {:induction false} NoFaults(r: Run, source: Source, n: nat)
    requires FaultFree(r) && n <= |r.steps| < |r.states|
    ensures Faults(r, source, n) == 0
  {
    if n != 0 {
      NoFaults(r, source, n - 1);
    }
  }

  /** Without faults each row is published at most once, however many publishers run, and exactly once when marked so. */
  lemma ExactlyOnceWithoutFaults(c: Config, r: Run, i: nat, o: Id)
    requires IsHistory(c, r) && FaultFree(r) && i < |r.states| && o in r.states[i].db.outbox
    ensures var s := r.states[i];
            && |MessagesFor(s.stream.entries, FromOutbox(o))| <= 1
            && (s.db.outbox[o].status == Published ==> |MessagesFor(s.stream.entries, FromOutbox(o))| == 1)
  {
    hide Next, MessagesFor;
    var s := r.states[i];
    CountedAlways(c, r, i, FromOutbox(o));
    NoFaults(r, FromOutbox(o), i);
    AlwaysSound(c, r, i);
    if InFlight(s.publishers, o) {
      InFlightPending(s.publishers, s.db.outbox, o);
    }
  }

  /** Without faults each retry is published at most once, however many schedulers run, and exactly once when queued. */
  lemma RetriedOnceWithoutFaults(c: Config, r: Run, i: nat, d: Id)
    requires IsHistory(c, r) && FaultFree(r) && i < |r.states| && d in r.states[i].db.deliveries
    ensures var s := r.states[i];
            && |MessagesFor(s.stream.entries, FromRetry(d))| <= 1
            && (s.db.deliveries[d].status == Queued ==> |MessagesFor(s.stream.entries, FromRetry(d))| == 1)
  {
    hide Next, MessagesFor;
    var s := r.states[i];
    CountedAlways(c, r, i, FromRetry(d));
    NoFaults(r, FromRetry(d), i);
    AlwaysSound(c, r, i);
    if RetryInFlight(s.requeues, d) {
      RetryInFlightRetrying(s.requeues, s.db.deliveries, d);
    }
  }
}
