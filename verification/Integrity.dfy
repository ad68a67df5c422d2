/** What every step keeps about identifiers, foreign keys, row locks and handlers. */
module Integrity {
  import opened Common
  import opened Tables
  import opened Broker
  import opened Pipeline
  import opened Frames

  /** Identifiers in use lie below the counter, so a new one is never in use. */
  ghost predicate IdsBounded(s: State) {
    && (forall o | o in s.db.outbox :: o < s.nextId)
    && (forall d | d in s.db.deliveries :: d < s.nextId)
    && (forall m | m in s.stream.entries :: m < s.nextId)
    && (forall e | e in s.log.born :: e < s.nextId)
    && (forall p | p in s.log.owner :: p < s.nextId)
    && (forall h | h in s.handlers :: h < s.nextId)
    && (forall t | t in s.publishers :: t < s.nextId)
    && (forall t | t in s.requeues :: t < s.nextId)
    && s.stream.cursor <= s.nextId
  }

  /** Every foreign key points to a row that exists. */
  ghost predicate Refs(db: Database) {
    EventsReferenced(db) && forall d | d in db.deliveries :: db.deliveries[d].endpoint in db.endpoints
  }

  /** The rows an open publisher transaction holds are pending, and its new values differ only as one attempt does. */
  ghost predicate PublishTxnOk(txn: PublishTxn, outbox: map<Id, OutboxRow>) {
    && txn.todo !! txn.done.Keys
    && (forall o | o in txn.todo :: o in outbox && outbox[o].status == Pending)
    && (forall o | o in txn.done ::
          && o in outbox && outbox[o].status == Pending
          && (txn.done[o] == HandledRow(outbox[o], XaddOk) || txn.done[o] == FailedRow(outbox[o])))
  }

  ghost predicate Apart(a: PublishTxn, b: PublishTxn) {
    a.todo + a.done.Keys !! b.todo + b.done.Keys
  }

  ghost predicate PublishLocks(publishers: map<Id, PublishTxn>, outbox: map<Id, OutboxRow>) {
    && (forall t | t in publishers :: PublishTxnOk(publishers[t], outbox))
    && (forall t, u | t in publishers && u in publishers && t != u :: Apart(publishers[t], publishers[u]))
  }

  /** The rows an open requeue transaction holds are still waiting for their retry. */
  ghost predicate RequeueTxnOk(txn: RequeueTxn, deliveries: map<Id, Delivery>) {
    && txn.todo !! txn.published.Keys
    && (forall d | d in txn.todo || d in txn.published :: d in deliveries && deliveries[d].status == Retrying)
  }

  ghost predicate ApartRetries(a: RequeueTxn, b: RequeueTxn) {
    a.todo + a.published.Keys !! b.todo + b.published.Keys
  }

  ghost predicate RequeueLocks(requeues: map<Id, RequeueTxn>, deliveries: map<Id, Delivery>) {
    && (forall t | t in requeues :: RequeueTxnOk(requeues[t], deliveries))
    && (forall t, u | t in requeues && u in requeues && t != u :: ApartRetries(requeues[t], requeues[u]))
  }

  /** The row that records an attempt differs from the row in the table only in the outcome of the attempt. */
  ghost predicate SameAttempt(a: Delivery, b: Delivery) {
    a.event == b.event && a.endpoint == b.endpoint && a.attempt == b.attempt && a.createdAt == b.createdAt
  }

  /** A handler works on a message that was handed out, and on an attempt of its own for that message's event. */
  ghost predicate HandlerOk(x: Handler, stream: Stream, deliveries: map<Id, Delivery>, nextId: Id) {
    && x.message in stream.entries
    && x.message < stream.cursor
    && (x.phase.Sending? ==>
          && x.message < x.phase.delivery < nextId
          && (x.phase.delivery in deliveries ==>
                var row := deliveries[x.phase.delivery];
                && row.status == Delivering && row.endpoint == x.phase.endpoint
                && row.event == stream.entries[x.message].payload.event))
    && (x.phase.Saving? ==>
          && x.message < x.phase.delivery < nextId
          && x.phase.delivery in deliveries
          && deliveries[x.phase.delivery].status == Delivering
          && SameAttempt(x.phase.row, deliveries[x.phase.delivery])
          && x.phase.row.endpoint == x.phase.endpoint
          && x.phase.row.event == stream.entries[x.message].payload.event
          && x.phase.row.status in {Delivered, Dlq, Retrying})
  }

  /** The attempt a handler is making. */
  function InHand(x: Handler): Option<Id> {
    if x.phase.Sending? || x.phase.Saving? then Some(x.phase.delivery) else None
  }

  ghost predicate HandsApart(a: Handler, b: Handler) {
    InHand(a).Some? ==> InHand(a) != InHand(b)
  }

  ghost predicate HandlersOk(handlers: map<Id, Handler>, stream: Stream, deliveries: map<Id, Delivery>, nextId: Id) {
    && (forall h | h in handlers :: HandlerOk(handlers[h], stream, deliveries, nextId))
    && (forall h, k | h in handlers && k in handlers && h != k :: HandsApart(handlers[h], handlers[k]))
  }

  ghost predicate Sound(s: State) {
    && IdsBounded(s)
    && WellFormed(s.stream)
    && Refs(s.db)
    && PublishLocks(s.publishers, s.db.outbox)
    && RequeueLocks(s.requeues, s.db.deliveries)
    && HandlersOk(s.handlers, s.stream, s.db.deliveries, s.nextId)
  }

  lemma SoundInit()
    ensures Sound(Init)
  {
  }

  // ---- Component by component. ----

  lemma StreamAdd(q: Stream, id: Id, m: Message)
    requires WellFormed(q)
    ensures WellFormed(XAdd(q, id, m))
  {
  }

  lemma PublishLocksInsert(publishers: map<Id, PublishTxn>, outbox: map<Id, OutboxRow>, o: Id, row: OutboxRow)
    requires PublishLocks(publishers, outbox) && o !in outbox
    ensures PublishLocks(publishers, outbox[o := row])
  {
  }

  lemma PublishLocksOpen(publishers: map<Id, PublishTxn>, outbox: map<Id, OutboxRow>, t: Id, rows: set<Id>)
    requires PublishLocks(publishers, outbox) && t !in publishers
    requires forall o | o in rows :: o in outbox && outbox[o].status == Pending && !OutboxLocked(publishers, o)
    ensures PublishLocks(publishers[t := PublishTxn(rows, map[], {})], outbox)
  {
    var txn := PublishTxn(rows, map[], {});
    forall u | u in publishers ensures Apart(txn, publishers[u]) && Apart(publishers[u], txn) {
    }
  }

  lemma PublishLocksMove(publishers: map<Id, PublishTxn>, outbox: map<Id, OutboxRow>, t: Id, o: Id,
                         result: XaddResult, wake: set<Id>)
    requires PublishLocks(publishers, outbox) && t in publishers && o in publishers[t].todo
    ensures o in outbox
    ensures var txn := publishers[t];
            PublishLocks(publishers[t := PublishTxn(txn.todo - {o}, txn.done[o := HandledRow(outbox[o], result)], wake)], outbox)
  {
    var txn := publishers[t];
    assert PublishTxnOk(txn, outbox);
    var moved := PublishTxn(txn.todo - {o}, txn.done[o := HandledRow(outbox[o], result)], wake);
    assert PublishTxnOk(moved, outbox);
    assert moved.todo + moved.done.Keys == txn.todo + txn.done.Keys;
    forall u | u in publishers && u != t ensures Apart(moved, publishers[u]) && Apart(publishers[u], moved) {
      assert Apart(txn, publishers[u]) && Apart(publishers[u], txn);
    }
  }

  lemma PublishLocksCommit(publishers: map<Id, PublishTxn>, outbox: map<Id, OutboxRow>, t: Id)
    requires PublishLocks(publishers, outbox) && t in publishers
    ensures PublishLocks(publishers - {t}, outbox + publishers[t].done)
  {
    forall u | u in publishers && u != t ensures PublishTxnOk(publishers[u], outbox + publishers[t].done) {
      assert Apart(publishers[u], publishers[t]);
      assert PublishTxnOk(publishers[u], outbox);
    }
  }

  lemma PublishLocksEnd(publishers: map<Id, PublishTxn>, outbox: map<Id, OutboxRow>, t: Id)
    requires PublishLocks(publishers, outbox)
    ensures PublishLocks(publishers - {t}, outbox)
  {
  }

  /** Removing rows that are not pending leaves every lock in place. */
  lemma PublishLocksSweep(publishers: map<Id, PublishTxn>, outbox: map<Id, OutboxRow>, kept: map<Id, OutboxRow>)
    requires PublishLocks(publishers, outbox)
    requires forall o | o in outbox && outbox[o].status == Pending :: o in kept && kept[o] == outbox[o]
    ensures PublishLocks(publishers, kept)
  {
  }

  /** Rows that no transaction holds may be added or change. */
  lemma RequeueLocksFrame(requeues: map<Id, RequeueTxn>, deliveries: map<Id, Delivery>, after: map<Id, Delivery>)
    requires RequeueLocks(requeues, deliveries)
    requires forall d | d in deliveries && RetryLocked(requeues, d) :: d in after && after[d] == deliveries[d]
    ensures RequeueLocks(requeues, after)
  {
    forall t | t in requeues ensures RequeueTxnOk(requeues[t], after) {
      assert RequeueTxnOk(requeues[t], deliveries);
      forall d | d in requeues[t].todo || d in requeues[t].published ensures d in after && after[d].status == Retrying {
        assert RetryLocked(requeues, d);
      }
    }
  }

  lemma LockedRetrying(requeues: map<Id, RequeueTxn>, deliveries: map<Id, Delivery>, d: Id)
    requires RequeueLocks(requeues, deliveries) && RetryLocked(requeues, d)
    ensures d in deliveries && deliveries[d].status == Retrying
  {
    var t :| t in requeues && (d in requeues[t].todo || d in requeues[t].published);
    assert RequeueTxnOk(requeues[t], deliveries);
  }

  lemma RequeueLocksPut(requeues: map<Id, RequeueTxn>, deliveries: map<Id, Delivery>, d: Id, row: Delivery)
    requires RequeueLocks(requeues, deliveries) && (d in deliveries ==> deliveries[d].status != Retrying)
    ensures RequeueLocks(requeues, deliveries[d := row])
  {
    forall x | x in deliveries && RetryLocked(requeues, x) ensures x != d {
      LockedRetrying(requeues, deliveries, x);
    }
    RequeueLocksFrame(requeues, deliveries, deliveries[d := row]);
  }

  lemma RequeueLocksOpen(requeues: map<Id, RequeueTxn>, deliveries: map<Id, Delivery>, t: Id, rows: set<Id>)
    requires RequeueLocks(requeues, deliveries) && t !in requeues
    requires forall d | d in rows :: d in deliveries && deliveries[d].status == Retrying && !RetryLocked(requeues, d)
    ensures RequeueLocks(requeues[t := RequeueTxn(rows, map[])], deliveries)
  {
    var txn := RequeueTxn(rows, map[]);
    forall u | u in requeues ensures ApartRetries(txn, requeues[u]) && ApartRetries(requeues[u], txn) {
    }
  }

  lemma RequeueLocksMove(requeues: map<Id, RequeueTxn>, deliveries: map<Id, Delivery>, t: Id, moved: RequeueTxn)
    requires RequeueLocks(requeues, deliveries) && t in requeues
    requires moved.todo !! moved.published.Keys
    requires moved.todo + moved.published.Keys <= requeues[t].todo + requeues[t].published.Keys
    ensures RequeueLocks(requeues[t := moved], deliveries)
  {
    var txn := requeues[t];
    assert RequeueTxnOk(txn, deliveries);
    forall d | d in moved.todo || d in moved.published ensures d in txn.todo || d in txn.published {
      assert d in moved.todo + moved.published.Keys;
    }
    forall u | u in requeues && u != t ensures ApartRetries(moved, requeues[u]) && ApartRetries(requeues[u], moved) {
      assert ApartRetries(txn, requeues[u]) && ApartRetries(requeues[u], txn);
    }
  }

  lemma RequeueLocksEnd(requeues: map<Id, RequeueTxn>, deliveries: map<Id, Delivery>, t: Id)
    requires RequeueLocks(requeues, deliveries)
    ensures RequeueLocks(requeues - {t}, deliveries)
  {
  }

  lemma RequeueLocksCommit(requeues: map<Id, RequeueTxn>, deliveries: map<Id, Delivery>, t: Id)
    requires RequeueLocks(requeues, deliveries) && t in requeues
    ensures RequeueLocks(requeues - {t}, Requeued(deliveries, requeues[t].published.Keys))
  {
    var rest := requeues - {t};
    RequeueLocksEnd(requeues, deliveries, t);
    forall d | d in deliveries && RetryLocked(rest, d) ensures d !in requeues[t].published {
      var u :| u in rest && (d in rest[u].todo || d in rest[u].published);
      assert ApartRetries(requeues[u], requeues[t]);
    }
    RequeueLocksFrame(rest, deliveries, Requeued(deliveries, requeues[t].published.Keys));
  }

  /** What other components may do while handlers run: the stream and the counter grow, rows in hand stay put. */
  ghost predicate Undisturbed(handlers: map<Id, Handler>, q: Stream, q': Stream,
                              deliveries: map<Id, Delivery>, after: map<Id, Delivery>) {
    && q.cursor <= q'.cursor
    && (forall m | m in q.entries :: m in q'.entries && q'.entries[m] == q.entries[m])
    && (forall h | h in handlers && InHand(handlers[h]).Some? ::
          && (handlers[h].phase.delivery in after ==>
                && handlers[h].phase.delivery in deliveries
                && after[handlers[h].phase.delivery] == deliveries[handlers[h].phase.delivery])
          && (handlers[h].phase.Saving? ==> handlers[h].phase.delivery in after))
  }

  lemma HandlersFrame(handlers: map<Id, Handler>, q: Stream, q': Stream,
                      deliveries: map<Id, Delivery>, after: map<Id, Delivery>, n: Id, n': Id)
    requires HandlersOk(handlers, q, deliveries, n) && n <= n'
    requires Undisturbed(handlers, q, q', deliveries, after)
    ensures HandlersOk(handlers, q', after, n')
  {
    forall h | h in handlers ensures HandlerOk(handlers[h], q', after, n') {
      assert HandlerOk(handlers[h], q, deliveries, n);
    }
  }

  lemma HandlersSet(handlers: map<Id, Handler>, q: Stream, deliveries: map<Id, Delivery>, n: Id, h: Id, x: Handler)
    requires HandlersOk(handlers, q, deliveries, n)
    requires HandlerOk(x, q, deliveries, n)
    requires forall k | k in handlers && k != h :: HandsApart(x, handlers[k]) && HandsApart(handlers[k], x)
    ensures HandlersOk(handlers[h := x], q, deliveries, n)
  {
  }

  lemma HandlersEnd(handlers: map<Id, Handler>, q: Stream, deliveries: map<Id, Delivery>, n: Id, h: Id)
    requires HandlersOk(handlers, q, deliveries, n)
    ensures HandlersOk(handlers - {h}, q, deliveries, n)
  {
  }

  // ---- Step by step. ----

  lemma StillUndisturbed(s: State)
    requires HandlersOk(s.handlers, s.stream, s.db.deliveries, s.nextId)
    ensures Undisturbed(s.handlers, s.stream, s.stream, s.db.deliveries, s.db.deliveries)
  {
    forall h | h in s.handlers && s.handlers[h].phase.Saving? ensures s.handlers[h].phase.delivery in s.db.deliveries {
      assert HandlerOk(s.handlers[h], s.stream, s.db.deliveries, s.nextId);
    }
  }

  /** The counter may grow. */
  lemma HandlersLater(s: State, n: Id)
    requires HandlersOk(s.handlers, s.stream, s.db.deliveries, s.nextId) && s.nextId <= n
    ensures HandlersOk(s.handlers, s.stream, s.db.deliveries, n)
  {
    StillUndisturbed(s);
    HandlersFrame(s.handlers, s.stream, s.stream, s.db.deliveries, s.db.deliveries, s.nextId, n);
  }

  /** The stream may grow by a new entry. */
  lemma HandlersAfterAdd(s: State, m: Message, n: Id)
    requires HandlersOk(s.handlers, s.stream, s.db.deliveries, s.nextId) && s.nextId <= n
    requires s.nextId !in s.stream.entries
    ensures HandlersOk(s.handlers, XAdd(s.stream, s.nextId, m), s.db.deliveries, n)
  {
    StillUndisturbed(s);
    HandlersFrame(s.handlers, s.stream, XAdd(s.stream, s.nextId, m), s.db.deliveries, s.db.deliveries, s.nextId, n);
  }

  /** A row may be added. */
  lemma HandlersAfterInsert(s: State, d: Id, row: Delivery, n: Id)
    requires HandlersOk(s.handlers, s.stream, s.db.deliveries, s.nextId) && s.nextId <= n && d == s.nextId
    ensures HandlersOk(s.handlers, s.stream, s.db.deliveries[d := row], n)
    ensures forall h | h in s.handlers :: InHand(s.handlers[h]) != Some(d)
  {
    StillUndisturbed(s);
    forall h | h in s.handlers ensures InHand(s.handlers[h]) != Some(d) {
      assert HandlerOk(s.handlers[h], s.stream, s.db.deliveries, s.nextId);
    }
    HandlersFrame(s.handlers, s.stream, s.stream, s.db.deliveries, s.db.deliveries[d := row], s.nextId, n);
  }

  lemma TickSound(s: State, delay: Time)
    requires Sound(s)
    ensures Sound(s.(now := s.now + delay))
  {
  }

  lemma CreateEndpointSound(s: State, tenant: Id, subs: set<string>)
    requires Sound(s)
    ensures Sound(CreateEndpointEffect(s, tenant, subs))
  {
    hide PublishLocks, RequeueLocks, HandlersOk, WellFormed;
    HandlersLater(s, s.nextId + 1);
  }

  lemma UpdateEndpointSound(s: State, p: Id, status: EndpointStatus, subs: set<string>)
    requires Sound(s) && p in s.db.endpoints
    ensures Sound(UpdateEndpointEffect(s, p, status, subs))
  {
    hide PublishLocks, RequeueLocks, HandlersOk, WellFormed;
  }

  lemma DeleteEndpointSound(s: State, p: Id)
    requires Sound(s) && CanDeleteEndpoint(s, p)
    ensures Sound(s.(db := s.db.(endpoints := s.db.endpoints - {p})))
  {
    hide PublishLocks, RequeueLocks, HandlersOk, WellFormed;
  }

  lemma IngestLookupSound(s: State, r: Request)
    requires Sound(s)
    ensures Sound(IngestLookupEffect(s, r))
  {
    hide PublishLocks, RequeueLocks, HandlersOk, WellFormed;
    HandlersLater(s, s.nextId + 1);
  }

  lemma IngestCommitSound(c: Config, s: State, r: Id)
    requires Sound(s) && r in s.requests
    ensures Sound(IngestCommitEffect(c, s, r))
  {
    hide PublishLocks, RequeueLocks, HandlersOk, WellFormed;
    var e := s.nextId;
    var q := s.requests[r];
    HandlersLater(s, e + 2);
    PublishLocksInsert(s.publishers, s.db.outbox, e + 1, OutboxRow(e, Payload(e, q.tenant, q.etype, None), Pending, 0, s.now));
  }

  lemma IngestAbandonSound(s: State, r: Id)
    requires Sound(s)
    ensures Sound(s.(requests := s.requests - {r}))
  {
    hide PublishLocks, RequeueLocks, HandlersOk, WellFormed;
  }

  lemma ReplayEventSound(s: State, tenant: Id, e: Id)
    requires Sound(s) && CanReplayEvent(s, tenant, e)
    ensures Sound(ReplayEventEffect(s, tenant, e))
  {
    hide PublishLocks, RequeueLocks, HandlersOk, WellFormed;
    HandlersLater(s, s.nextId + 1);
    var payload := Payload(e, tenant, s.db.events[e].etype, None);
    PublishLocksInsert(s.publishers, s.db.outbox, s.nextId, OutboxRow(e, payload, Pending, 0, s.now));
  }

  lemma ReplayDlqSound(s: State, tenant: Id, d: Id)
    requires Sound(s) && CanReplayDlq(s, tenant, d)
    ensures Sound(ReplayDlqEffect(s, tenant, d))
  {
    hide PublishLocks, RequeueLocks, HandlersOk, WellFormed;
    HandlersLater(s, s.nextId + 1);
    var e := s.db.deliveries[d].event;
    var payload := Payload(e, tenant, s.db.events[e].etype, Some(s.db.deliveries[d].endpoint));
    PublishLocksInsert(s.publishers, s.db.outbox, s.nextId, OutboxRow(e, payload, Pending, 0, s.now));
  }

  lemma PublishOpenSound(c: Config, s: State, rows: set<Id>)
    requires Sound(s) && CanPublishOpen(c, s, rows)
    ensures Sound(PublishOpenEffect(s, rows))
  {
    hide PublishLocks, RequeueLocks, HandlersOk, WellFormed;
    HandlersLater(s, s.nextId + 1);
    PublishLocksOpen(s.publishers, s.db.outbox, s.nextId, rows);
  }

  lemma PublishRowSound(s: State, t: Id, o: Id, result: XaddResult)
    requires Sound(s) && CanPublishRow(s, t, o)
    ensures Sound(PublishRowEffect(s, t, o, result))
  {
    hide PublishLocks, RequeueLocks, HandlersOk, WellFormed;
    var message := Message(FromOutbox(o), s.db.outbox[o].payload);
    HandlersAfterAdd(s, message, s.nextId + 1);
    StreamAdd(s.stream, s.nextId, message);
    PublishLocksMove(s.publishers, s.db.outbox, t, o, result, PublishRowEffect(s, t, o, result).publishers[t].wake);
  }

  lemma PublishCommitSound(s: State, t: Id)
    requires Sound(s) && CanPublishCommit(s, t)
    ensures Sound(PublishCommitEffect(s, t))
  {
    hide PublishLocks, RequeueLocks, HandlersOk, WellFormed;
    PublishLocksCommit(s.publishers, s.db.outbox, t);
    DoneRowsExist(s.publishers, s.db.outbox, t);
  }

  lemma DoneRowsExist(publishers: map<Id, PublishTxn>, outbox: map<Id, OutboxRow>, t: Id)
    requires PublishLocks(publishers, outbox) && t in publishers
    ensures forall o | o in publishers[t].done :: o in outbox && publishers[t].done[o].event == outbox[o].event
  {
    assert PublishTxnOk(publishers[t], outbox);
  }

  lemma PublishAbortSound(s: State, t: Id)
    requires Sound(s)
    ensures Sound(s.(publishers := s.publishers - {t}))
  {
    hide PublishLocks, RequeueLocks, HandlersOk, WellFormed;
    PublishLocksEnd(s.publishers, s.db.outbox, t);
  }

  lemma RequeueOpenSound(s: State, rows: set<Id>)
    requires Sound(s) && CanRequeueOpen(s, rows)
    ensures Sound(RequeueOpenEffect(s, rows))
  {
    hide PublishLocks, RequeueLocks, HandlersOk, WellFormed;
    HandlersLater(s, s.nextId + 1);
    RequeueLocksOpen(s.requeues, s.db.deliveries, s.nextId, rows);
  }

  lemma RequeueRowSound(s: State, t: Id, d: Id)
    requires Sound(s) && CanRequeueRow(s, t, d)
    ensures Sound(RequeueRowEffect(s, t, d))
  {
    hide PublishLocks, RequeueLocks, HandlersOk, WellFormed;
    var txn, row := s.requeues[t], s.db.deliveries[d];
    var message := RetryMessage(d, row, s.db.events[row.event]);
    HandlersAfterAdd(s, message, s.nextId + 1);
    StreamAdd(s.stream, s.nextId, message);
    TodoApart(s.requeues, s.db.deliveries, t);
    RequeueLocksMove(s.requeues, s.db.deliveries, t, RequeueTxn(txn.todo - {d}, txn.published[d := s.nextId]));
  }

  lemma TodoApart(requeues: map<Id, RequeueTxn>, deliveries: map<Id, Delivery>, t: Id)
    requires RequeueLocks(requeues, deliveries) && t in requeues
    ensures requeues[t].todo !! requeues[t].published.Keys
  {
    assert RequeueTxnOk(requeues[t], deliveries);
  }

  lemma RequeueCommitSound(s: State, t: Id)
    requires Sound(s) && CanRequeueCommit(s, t)
    ensures Sound(RequeueCommitEffect(s, t))
  {
    hide PublishLocks, RequeueLocks, HandlersOk, WellFormed;
    RequeueLocksCommit(s.requeues, s.db.deliveries, t);
    HandlersAfterRequeue(s, t);
  }

  lemma HandlersAfterRequeue(s: State, t: Id)
    requires HandlersOk(s.handlers, s.stream, s.db.deliveries, s.nextId)
    requires RequeueLocks(s.requeues, s.db.deliveries) && t in s.requeues
    ensures HandlersOk(s.handlers, s.stream, Requeued(s.db.deliveries, s.requeues[t].published.Keys), s.nextId)
  {
    var after := Requeued(s.db.deliveries, s.requeues[t].published.Keys);
    assert RequeueTxnOk(s.requeues[t], s.db.deliveries);
    forall h | h in s.handlers && InHand(s.handlers[h]).Some? ensures s.handlers[h].phase.delivery !in s.requeues[t].published {
      assert HandlerOk(s.handlers[h], s.stream, s.db.deliveries, s.nextId);
    }
    StillUndisturbed(s);
    HandlersFrame(s.handlers, s.stream, s.stream, s.db.deliveries, after, s.nextId, s.nextId);
  }

  lemma RequeueAbortSound(s: State, t: Id, lost: Option<Id>)
    requires Sound(s) && CanRequeueAbort(s, t, lost)
    ensures Sound(RequeueAbortEffect(s, t, lost))
  {
    hide PublishLocks, RequeueLocks, HandlersOk, WellFormed;
    RequeueLocksEnd(s.requeues, s.db.deliveries, t);
    if lost.Some? {
      var row := s.db.deliveries[lost.value];
      var message := RetryMessage(lost.value, row, s.db.events[row.event]);
      HandlersAfterAdd(s, message, s.nextId + 1);
      StreamAdd(s.stream, s.nextId, message);
    }
  }

  lemma ConsumeSound(s: State, m: Id)
    requires Sound(s) && IsNext(s.stream, m)
    ensures Sound(ConsumeEffect(s, m))
  {
    hide PublishLocks, RequeueLocks, HandlersOk;
    StillUndisturbed(s);
    HandlersFrame(s.handlers, s.stream, XReadGroup(s.stream, m, s.now), s.db.deliveries, s.db.deliveries, s.nextId, s.nextId + 1);
    HandlersSet(s.handlers, XReadGroup(s.stream, m, s.now), s.db.deliveries, s.nextId + 1, s.nextId, Handler(m, {}, Starting));
  }

  lemma ClaimSound(c: Config, s: State, m: Id)
    requires Sound(s) && CanClaim(c, s, m)
    ensures Sound(ClaimEffect(s, m))
  {
    hide PublishLocks, RequeueLocks, HandlersOk;
    StillUndisturbed(s);
    HandlersFrame(s.handlers, s.stream, XClaim(s.stream, m, s.now), s.db.deliveries, s.db.deliveries, s.nextId, s.nextId + 1);
    HandlersSet(s.handlers, XClaim(s.stream, m, s.now), s.db.deliveries, s.nextId + 1, s.nextId, Handler(m, {}, Starting));
  }

  /** A handler that holds no attempt may move on. */
  lemma HandlersIdle(s: State, h: Id, x: Handler)
    requires HandlersOk(s.handlers, s.stream, s.db.deliveries, s.nextId) && h in s.handlers
    requires x.message == s.handlers[h].message && InHand(x).None?
    ensures HandlersOk(s.handlers[h := x], s.stream, s.db.deliveries, s.nextId)
  {
    assert HandlerOk(s.handlers[h], s.stream, s.db.deliveries, s.nextId);
    HandlersSet(s.handlers, s.stream, s.db.deliveries, s.nextId, h, x);
  }

  lemma ResolveSound(s: State, h: Id, endpoints: seq<Id>)
    requires Sound(s) && CanResolve(s, h, endpoints)
    ensures Sound(ResolveEffect(s, h, endpoints))
  {
    hide PublishLocks, RequeueLocks, HandlersOk, WellFormed;
    var m := s.handlers[h].message;
    HandlersIdle(s, h, s.handlers[h].(phase := FanOut([])));
    HandlersIdle(s, h, Handler(m, (set p | p in endpoints), FanOut(endpoints)));
  }

  lemma DeliverNextSound(c: Config, s: State, h: Id)
    requires Sound(s) && CanDeliverNext(s, h)
    ensures Sound(DeliverNextEffect(c, s, h))
  {
    hide PublishLocks, RequeueLocks, HandlersOk, WellFormed;
    var t := DeliverNextEffect(c, s, h);
    var todo, e := s.handlers[h].phase.todo, HandlerPayload(s, h).event;
    if e !in s.db.events || todo[0] !in s.db.endpoints {
      HandlersIdle(s, h, s.handlers[h].(phase := FanOut(todo[1..])));
    } else {
      var row := t.db.deliveries[s.nextId];
      RequeueLocksPut(s.requeues, s.db.deliveries, s.nextId, row);
      NewAttempt(s, h, t.handlers[h], row);
    }
  }

  lemma NewAttempt(s: State, h: Id, x: Handler, row: Delivery)
    requires HandlersOk(s.handlers, s.stream, s.db.deliveries, s.nextId) && h in s.handlers && IdsBounded(s)
    requires x.message == s.handlers[h].message && x.message in s.stream.entries
    requires InHand(x).None? || (x.phase.Sending? && x.phase.delivery == s.nextId && row.status == Delivering)
    requires x.phase.Sending? ==>
               row.endpoint == x.phase.endpoint && row.event == s.stream.entries[x.message].payload.event
    ensures HandlersOk(s.handlers[h := x], s.stream, s.db.deliveries[s.nextId := row], s.nextId + 1)
  {
    HandlersAfterInsert(s, s.nextId, row, s.nextId + 1);
    assert HandlerOk(s.handlers[h], s.stream, s.db.deliveries, s.nextId);
    HandlersSet(s.handlers, s.stream, s.db.deliveries[s.nextId := row], s.nextId + 1, h, x);
  }

  lemma RespondSound(c: Config, s: State, h: Id, reply: Reply, draw: real)
    requires Sound(s) && CanRespond(s, h)
    ensures Sound(RespondEffect(c, s, h, reply, draw))
  {
    hide PublishLocks, RequeueLocks, HandlersOk, WellFormed;
    HoldsAttempt(s, h, RespondEffect(c, s, h, reply, draw).handlers[h]);
  }

  lemma HoldsAttempt(s: State, h: Id, x: Handler)
    requires HandlersOk(s.handlers, s.stream, s.db.deliveries, s.nextId) && h in s.handlers
    requires s.handlers[h].phase.Sending? && s.handlers[h].phase.delivery in s.db.deliveries
    requires x.message == s.handlers[h].message && x.phase.Saving?
    requires x.phase.delivery == s.handlers[h].phase.delivery && x.phase.endpoint == s.handlers[h].phase.endpoint
    requires SameAttempt(x.phase.row, s.db.deliveries[x.phase.delivery])
    requires x.phase.row.status in {Delivered, Dlq, Retrying}
    ensures HandlersOk(s.handlers[h := x], s.stream, s.db.deliveries, s.nextId)
  {
    assert HandlerOk(s.handlers[h], s.stream, s.db.deliveries, s.nextId);
    forall k | k in s.handlers && k != h ensures HandsApart(x, s.handlers[k]) && HandsApart(s.handlers[k], x) {
      assert HandsApart(s.handlers[h], s.handlers[k]);
    }
    HandlersSet(s.handlers, s.stream, s.db.deliveries, s.nextId, h, x);
  }

  lemma SaveDeliverySound(s: State, h: Id)
    requires Sound(s) && CanSaveDelivery(s, h)
    ensures Sound(SaveDeliveryEffect(s, h))
  {
    hide PublishLocks, RequeueLocks, HandlersOk, WellFormed;
    var phase := s.handlers[h].phase;
    AttemptSaved(s, h);
    RequeueLocksPut(s.requeues, s.db.deliveries, phase.delivery, phase.row);
  }

  lemma AttemptSaved(s: State, h: Id)
    requires HandlersOk(s.handlers, s.stream, s.db.deliveries, s.nextId) && h in s.handlers && s.handlers[h].phase.Saving?
    ensures var phase := s.handlers[h].phase;
            && phase.delivery in s.db.deliveries
            && s.db.deliveries[phase.delivery].status == Delivering
            && SameAttempt(phase.row, s.db.deliveries[phase.delivery])
            && HandlersOk(s.handlers[h := s.handlers[h].(phase := FanOut(phase.rest))], s.stream,
                          s.db.deliveries[phase.delivery := phase.row], s.nextId)
  {
    var phase := s.handlers[h].phase;
    var x := s.handlers[h].(phase := FanOut(phase.rest));
    var others := s.handlers[h := x];
    assert HandlerOk(s.handlers[h], s.stream, s.db.deliveries, s.nextId);
    HandlersIdle(s, h, x);
    forall k | k in others && InHand(others[k]).Some?
      ensures others[k].phase.delivery != phase.delivery && (others[k].phase.Saving? ==> others[k].phase.delivery in s.db.deliveries)
    {
      assert HandsApart(s.handlers[k], s.handlers[h]);
      assert HandlerOk(others[k], s.stream, s.db.deliveries, s.nextId);
    }
    HandlersFrame(others, s.stream, s.stream, s.db.deliveries, s.db.deliveries[phase.delivery := phase.row], s.nextId, s.nextId);
  }

  lemma AcknowledgeSound(s: State, h: Id)
    requires Sound(s) && CanAcknowledge(s, h)
    ensures Sound(AcknowledgeEffect(s, h))
  {
    hide PublishLocks, RequeueLocks, HandlersOk;
    var q := XAck(s.stream, s.handlers[h].message);
    StillUndisturbed(s);
    HandlersFrame(s.handlers, s.stream, q, s.db.deliveries, s.db.deliveries, s.nextId, s.nextId);
    HandlersEnd(s.handlers, q, s.db.deliveries, s.nextId, h);
  }

  lemma HandlerDiesSound(s: State, h: Id)
    requires Sound(s)
    ensures Sound(s.(handlers := s.handlers - {h}))
  {
    hide PublishLocks, RequeueLocks, HandlersOk, WellFormed;
    HandlersEnd(s.handlers, s.stream, s.db.deliveries, s.nextId, h);
  }

  lemma RetentionSound(c: Config, s: State)
    requires Sound(s) && CanSweep(c, s)
    ensures Sound(RetentionEffect(c, s))
  {
    hide PublishLocks, RequeueLocks, HandlersOk, WellFormed;
    var swept := Swept(c, s.db, s.now);
    PublishLocksSweep(s.publishers, s.db.outbox, swept.outbox);
    RequeueLocksFrame(s.requeues, s.db.deliveries, swept.deliveries);
    HandlersAfterSweep(c, s);
  }

  lemma HandlersAfterSweep(c: Config, s: State)
    requires HandlersOk(s.handlers, s.stream, s.db.deliveries, s.nextId) && CanSweep(c, s)
    ensures HandlersOk(s.handlers, s.stream, Swept(c, s.db, s.now).deliveries, s.nextId)
  {
    var after := Swept(c, s.db, s.now).deliveries;
    forall h | h in s.handlers && s.handlers[h].phase.Saving? ensures s.handlers[h].phase.delivery in after {
      assert HandlerOk(s.handlers[h], s.stream, s.db.deliveries, s.nextId);
      assert SaveLocked(s.handlers, s.handlers[h].phase.delivery);
    }
    HandlersFrame(s.handlers, s.stream, s.stream, s.db.deliveries, after, s.nextId, s.nextId);
  }

  /** Every step keeps the whole of it. */
  lemma ApiSound(c: Config, s: State, step: Step, t: State)
    requires Sound(s) && ApiNext(c, s, step, t)
    ensures Sound(t)
  {
    hide Sound, CreateEndpointEffect, UpdateEndpointEffect, IngestLookupEffect, IngestCommitEffect;
    hide ReplayEventEffect, ReplayDlqEffect;
    match step
    case Tick(delay) => TickSound(s, delay);
    case CreateEndpoint(tenant, subs) => CreateEndpointSound(s, tenant, subs);
    case UpdateEndpoint(p, status, subs) => UpdateEndpointSound(s, p, status, subs);
    case DeleteEndpoint(p) => DeleteEndpointSound(s, p);
    case IngestLookup(r) => IngestLookupSound(s, r);
    case IngestCommit(r) => IngestCommitSound(c, s, r);
    case IngestAbandon(r) => IngestAbandonSound(s, r);
    case ReplayEvent(tenant, e) => ReplayEventSound(s, tenant, e);
    case ReplayDlq(tenant, d) => ReplayDlqSound(s, tenant, d);
    case _ =>
  }

  lemma PublisherSound(c: Config, s: State, step: Step, t: State)
    requires Sound(s) && PublisherNext(c, s, step, t)
    ensures Sound(t)
  {
    hide Sound, PublishOpenEffect, PublishRowEffect, PublishCommitEffect;
    match step
    case PublishOpen(rows) => PublishOpenSound(c, s, rows);
    case PublishRow(x, o, result) => PublishRowSound(s, x, o, result);
    case PublishCommit(x) => PublishCommitSound(s, x);
    case PublishAbort(x) => PublishAbortSound(s, x);
    case _ =>
  }

  lemma SchedulerSound(c: Config, s: State, step: Step, t: State)
    requires Sound(s) && SchedulerNext(c, s, step, t)
    ensures Sound(t)
  {
    hide Sound, RequeueOpenEffect, RequeueRowEffect, RequeueCommitEffect, RequeueAbortEffect, RetentionEffect;
    match step
    case RequeueOpen(rows) => RequeueOpenSound(s, rows);
    case RequeueRow(x, d) => RequeueRowSound(s, x, d);
    case RequeueCommit(x) => RequeueCommitSound(s, x);
    case RequeueAbort(x, lost) => RequeueAbortSound(s, x, lost);
    case Retention => RetentionSound(c, s);
    case _ =>
  }

  lemma WorkerSound(c: Config, s: State, step: Step, t: State)
    requires Sound(s) && WorkerNext(c, s, step, t)
    ensures Sound(t)
  {
    hide Sound, ConsumeEffect, ClaimEffect, ResolveEffect, DeliverNextEffect, RespondEffect, SaveDeliveryEffect;
    hide AcknowledgeEffect;
    match step
    case Consume(m) => ConsumeSound(s, m);
    case Claim(m) => ClaimSound(c, s, m);
    case Resolve(h, endpoints) => ResolveSound(s, h, endpoints);
    case DeliverNext(h) => DeliverNextSound(c, s, h);
    case Respond(h, reply, draw) => RespondSound(c, s, h, reply, draw);
    case SaveDelivery(h) => SaveDeliverySound(s, h);
    case Acknowledge(h) => AcknowledgeSound(s, h);
    case HandlerDies(h) => HandlerDiesSound(s, h);
    case _ =>
  }

  lemma SoundStep(c: Config, s: State, step: Step, t: State)
    requires Sound(s) && Next(c, s, step, t)
    ensures Sound(t)
  {
    hide ApiNext, PublisherNext, SchedulerNext, WorkerNext, Sound;
    if ApiNext(c, s, step, t) {
      ApiSound(c, s, step, t);
    } else if PublisherNext(c, s, step, t) {
      PublisherSound(c, s, step, t);
    } else if SchedulerNext(c, s, step, t) {
      SchedulerSound(c, s, step, t);
    } else {
      WorkerSound(c, s, step, t);
    }
  }

  /** Every state of every run keeps its references, locks and handlers in order. */
  lemma {:induction false} AlwaysSound(c: Config, r: Run, i: nat)
    requires IsHistory(c, r) && i < |r.states|
    ensures Sound(r.states[i])
  {
    hide Sound, Next;
    if i == 0 {
      SoundInit();
    } else {
      AlwaysSound(c, r, i - 1);
      SoundStep(c, r.states[i - 1], r.steps[i - 1], r.states[i]);
    }
  }

  // ---- Identifiers of new rows. ----

  lemma LockedPending(publishers: map<Id, PublishTxn>, outbox: map<Id, OutboxRow>, t: Id, o: Id)
    requires PublishLocks(publishers, outbox) && t in publishers && (o in publishers[t].todo || o in publishers[t].done)
    ensures o in outbox && outbox[o].status == Pending
    ensures o in publishers[t].done && publishers[t].done[o].status != Published ==> publishers[t].done[o] == FailedRow(outbox[o])
  {
    assert PublishTxnOk(publishers[t], outbox);
  }

  lemma ApiOutboxRows(c: Config, s: State, step: Step, t: State, o: Id)
    requires ApiNext(c, s, step, t) && o in t.db.outbox
    ensures o in s.db.outbox || o >= s.nextId
  {
  }

  lemma OtherOutboxRows(c: Config, s: State, step: Step, t: State, o: Id)
    requires PublisherNext(c, s, step, t) || SchedulerNext(c, s, step, t)
    requires PublishLocks(s.publishers, s.db.outbox) && o in t.db.outbox
    ensures o in s.db.outbox
  {
    hide PublishLocks;
    if step.PublishCommit? && o in s.publishers[step.txn].done {
      LockedPending(s.publishers, s.db.outbox, step.txn, o);
    }
  }

  lemma NewOutboxRows(c: Config, s: State, step: Step, t: State, o: Id)
    requires Next(c, s, step, t) && PublishLocks(s.publishers, s.db.outbox) && o in t.db.outbox
    ensures o in s.db.outbox || o >= s.nextId
  {
    hide ApiNext, PublisherNext, SchedulerNext, WorkerNext, PublishLocks;
    if ApiNext(c, s, step, t) {
      ApiOutboxRows(c, s, step, t, o);
    } else if PublisherNext(c, s, step, t) {
      OtherOutboxRows(c, s, step, t, o);
    } else if SchedulerNext(c, s, step, t) {
      OtherOutboxRows(c, s, step, t, o);
    } else {
      WorkerFrames(c, s, step, t);
    }
  }

  lemma SchedulerDeliveryRows(c: Config, s: State, step: Step, t: State, d: Id)
    requires SchedulerNext(c, s, step, t) && d in t.db.deliveries
    ensures d in s.db.deliveries
  {
  }

  lemma WorkerDeliveryRows(c: Config, s: State, step: Step, t: State, d: Id)
    requires WorkerNext(c, s, step, t) && d in t.db.deliveries
    ensures d in s.db.deliveries || d >= s.nextId
  {
  }

  lemma NewDeliveryRows(c: Config, s: State, step: Step, t: State, d: Id)
    requires Next(c, s, step, t) && d in t.db.deliveries
    ensures d in s.db.deliveries || d >= s.nextId
  {
    hide ApiNext, PublisherNext, SchedulerNext, WorkerNext;
    if ApiNext(c, s, step, t) {
      ApiFrames(c, s, step, t);
    } else if PublisherNext(c, s, step, t) {
      PublisherFrames(c, s, step, t);
    } else if SchedulerNext(c, s, step, t) {
      SchedulerDeliveryRows(c, s, step, t, d);
    } else {
      WorkerDeliveryRows(c, s, step, t, d);
    }
  }
}
