/**
 * The outbox and the stream commit separately. Over every run: no accepted event is without an outbox row, no published
 * row is without its message, and every message beyond the one a row calls for is accounted for by a fault.
 */
module Publication {
  import opened Common
  import opened Tables
  import opened Broker
  import opened Pipeline
  import opened Integrity

  /** The stream messages published for an outbox row, or for the retry of a delivery. */
  function MessagesFor(entries: map<Id, Message>, source: Source): set<Id> {
    set m | m in entries && entries[m].source == source
  }

  lemma MessagesAfterAdd(entries: map<Id, Message>, id: Id, m: Message, source: Source)
    requires id !in entries
    ensures var before, after := MessagesFor(entries, source), MessagesFor(entries[id := m], source);
            && after == (if m.source == source then before + {id} else before)
            && |after| == |before| + (if m.source == source then 1 else 0)
  {
    var before, after := MessagesFor(entries, source), MessagesFor(entries[id := m], source);
    assert after == if m.source == source then before + {id} else before;
  }

  /** How many messages for a source the stream has gained. */
  function Gained(before: map<Id, Message>, after: map<Id, Message>, source: Source): int {
    |MessagesFor(after, source)| - |MessagesFor(before, source)|
  }

  /** The stream has gained exactly one message for each source named, with the payload given there, and no other. */
  ghost predicate Appended(before: map<Id, Message>, after: map<Id, Message>, sent: map<Source, Payload>) {
    && (forall m | m in before :: m in after && after[m] == before[m])
    && (forall m | m in after && m !in before :: after[m].source in sent && after[m].payload == sent[after[m].source])
    && (forall source :: Gained(before, after, source) == if source in sent then 1 else 0)
  }

  lemma AppendedNothing(entries: map<Id, Message>)
    ensures Appended(entries, entries, map[])
  {
    assert forall source :: Gained(entries, entries, source) == 0;
  }

  lemma AppendedNext(before: map<Id, Message>, after: map<Id, Message>, sent: map<Source, Payload>, id: Id, m: Message)
    requires Appended(before, after, sent) && id !in after && m.source !in sent
    ensures Appended(before, after[id := m], sent[m.source := m.payload])
  {
    var after', sent' := after[id := m], sent[m.source := m.payload];
    forall source ensures Gained(before, after', source) == if source in sent' then 1 else 0 {
      assert Gained(before, after, source) == if source in sent then 1 else 0;
      MessagesAfterAdd(after, id, m, source);
    }
  }

  // ---- Rows and their messages. ----

  ghost predicate AttemptsOk(row: OutboxRow) {
    if row.status == OutboxStatus.Failed then row.attempts == MAX_PUBLISH_ATTEMPTS
    else row.attempts < MAX_PUBLISH_ATTEMPTS
  }

  ghost predicate RowsOk(outbox: map<Id, OutboxRow>) {
    forall o | o in outbox :: AttemptsOk(outbox[o])
  }

  /** A published row has a message, and every message of a row carries the row's payload. */
  ghost predicate RowBacked(o: Id, row: OutboxRow, entries: map<Id, Message>) {
    && (row.status == Published ==> MessagesFor(entries, FromOutbox(o)) != {})
    && (forall m | m in MessagesFor(entries, FromOutbox(o)) :: entries[m].payload == row.payload)
  }

  ghost predicate RowsBacked(outbox: map<Id, OutboxRow>, entries: map<Id, Message>) {
    forall o | o in outbox :: RowBacked(o, outbox[o], entries)
  }

  /** The same for the uncommitted values of an open transaction. */
  ghost predicate TxnsBacked(publishers: map<Id, PublishTxn>, entries: map<Id, Message>) {
    forall t | t in publishers :: RowsBacked(publishers[t].done, entries)
  }

  /** Messages are newer than the rows they were published for. */
  ghost predicate SourcesOlder(entries: map<Id, Message>) {
    forall m | m in entries ::
      match entries[m].source
      case FromOutbox(o) => o < m
      case FromRetry(d) => d < m
  }

  /** The outbox row written together with the event. */
  ghost predicate OwnRow(o: Id, e: Id, event: Event, outbox: map<Id, OutboxRow>) {
    o in outbox && outbox[o].event == e && outbox[o].createdAt == event.createdAt && outbox[o].payload.target.None?
  }

  ghost predicate HasOwnRow(e: Id, event: Event, outbox: map<Id, OutboxRow>) {
    exists o :: OwnRow(o, e, event, outbox)
  }

  ghost predicate EventsHaveRows(events: map<Id, Event>, outbox: map<Id, OutboxRow>) {
    forall e | e in events :: HasOwnRow(e, events[e], outbox)
  }

  ghost predicate Backed(s: State) {
    && RowsOk(s.db.outbox)
    && RowsBacked(s.db.outbox, s.stream.entries)
    && TxnsBacked(s.publishers, s.stream.entries)
    && SourcesOlder(s.stream.entries)
    && EventsHaveRows(s.db.events, s.db.outbox)
  }

  lemma BackedInit()
    ensures Backed(Init)
  {
  }

  // ---- Component by component. ----

  lemma BackedAfterAdd(s: State, m: Message)
    requires IdsBounded(s)
    requires RowsBacked(s.db.outbox, s.stream.entries) && TxnsBacked(s.publishers, s.stream.entries)
    requires SourcesOlder(s.stream.entries)
    requires match m.source
             case FromOutbox(o) =>
               && o in s.db.outbox && m.payload == s.db.outbox[o].payload
               && forall t | t in s.publishers :: o !in s.publishers[t].done
             case FromRetry(d) => d < s.nextId
    ensures RowsBacked(s.db.outbox, s.stream.entries[s.nextId := m])
    ensures TxnsBacked(s.publishers, s.stream.entries[s.nextId := m])
    ensures SourcesOlder(s.stream.entries[s.nextId := m])
  {
    var after := s.stream.entries[s.nextId := m];
    forall o | o in s.db.outbox ensures RowBacked(o, s.db.outbox[o], after) {
      MessagesAfterAdd(s.stream.entries, s.nextId, m, FromOutbox(o));
      assert RowBacked(o, s.db.outbox[o], s.stream.entries);
    }
    forall t, o | t in s.publishers && o in s.publishers[t].done ensures RowBacked(o, s.publishers[t].done[o], after) {
      MessagesAfterAdd(s.stream.entries, s.nextId, m, FromOutbox(o));
      assert RowsBacked(s.publishers[t].done, s.stream.entries);
      assert RowBacked(o, s.publishers[t].done[o], s.stream.entries);
    }
  }

  lemma NotDone(publishers: map<Id, PublishTxn>, outbox: map<Id, OutboxRow>, t: Id, o: Id)
    requires PublishLocks(publishers, outbox) && t in publishers && o in publishers[t].todo
    ensures forall u | u in publishers :: o !in publishers[u].done
  {
    assert PublishTxnOk(publishers[t], outbox);
    forall u | u in publishers && u != t ensures o !in publishers[u].done {
      assert Apart(publishers[t], publishers[u]);
      assert o in publishers[t].todo + publishers[t].done.Keys;
    }
  }

  lemma FreshRowUnpublished(s: State, o: Id)
    requires IdsBounded(s) && SourcesOlder(s.stream.entries) && o >= s.nextId
    ensures MessagesFor(s.stream.entries, FromOutbox(o)) == {}
    ensures MessagesFor(s.stream.entries, FromRetry(o)) == {}
  {
  }

  lemma InsertRow(s: State, o: Id, row: OutboxRow)
    requires Backed(s) && IdsBounded(s) && o >= s.nextId && row.status == Pending && row.attempts == 0
    ensures RowsOk(s.db.outbox[o := row]) && RowsBacked(s.db.outbox[o := row], s.stream.entries)
    ensures EventsHaveRows(s.db.events, s.db.outbox[o := row])
  {
    FreshRowUnpublished(s, o);
    forall e | e in s.db.events ensures HasOwnRow(e, s.db.events[e], s.db.outbox[o := row]) {
      assert HasOwnRow(e, s.db.events[e], s.db.outbox);
      var x :| OwnRow(x, e, s.db.events[e], s.db.outbox);
      assert OwnRow(x, e, s.db.events[e], s.db.outbox[o := row]);
    }
  }

  /** Changing nothing but statuses keeps every event's own row. */
  lemma RowsKept(events: map<Id, Event>, events': map<Id, Event>, outbox: map<Id, OutboxRow>, outbox': map<Id, OutboxRow>)
    requires EventsHaveRows(events, outbox)
    requires forall e | e in events' :: e in events && events'[e].createdAt == events[e].createdAt
    requires forall o | o in outbox && outbox[o].event in events' ::
               && (outbox[o].createdAt == events'[outbox[o].event].createdAt ==> o in outbox')
               && (o in outbox' ==> && outbox'[o].event == outbox[o].event && outbox'[o].createdAt == outbox[o].createdAt
                                    && outbox'[o].payload == outbox[o].payload)
    ensures EventsHaveRows(events', outbox')
  {
    forall e | e in events' ensures HasOwnRow(e, events'[e], outbox') {
      assert HasOwnRow(e, events[e], outbox);
      var o :| OwnRow(o, e, events[e], outbox);
      assert OwnRow(o, e, events'[e], outbox');
    }
  }

  // ---- Step by step. ----

  lemma IngestCommitBacked(c: Config, s: State, r: Id)
    requires Backed(s) && IdsBounded(s) && r in s.requests
    ensures Backed(IngestCommitEffect(c, s, r))
  {
    var t := IngestCommitEffect(c, s, r);
    hide RowsOk, RowsBacked, TxnsBacked, SourcesOlder;
    var e, o := s.nextId, s.nextId + 1;
    if t.nextId != s.nextId {
      InsertRow(s, o, t.db.outbox[o]);
      hide EventsHaveRows;
      NewEventHasRow(s, t, e, o);
    }
  }

  lemma NewEventHasRow(s: State, t: State, e: Id, o: Id)
    requires EventsHaveRows(s.db.events, t.db.outbox)
    requires forall x | x in t.db.events && x != e :: x in s.db.events && t.db.events[x] == s.db.events[x]
    requires e in t.db.events && OwnRow(o, e, t.db.events[e], t.db.outbox)
    ensures EventsHaveRows(t.db.events, t.db.outbox)
  {
    forall x | x in t.db.events ensures HasOwnRow(x, t.db.events[x], t.db.outbox) {
      if x != e {
        assert HasOwnRow(x, s.db.events[x], t.db.outbox);
      }
    }
  }

  lemma ReplayBacked(s: State, t: State, o: Id)
    requires Backed(s) && IdsBounded(s) && o == s.nextId
    requires o in t.db.outbox && t.db.outbox == s.db.outbox[o := t.db.outbox[o]]
    requires t.db.outbox[o].status == Pending && t.db.outbox[o].attempts == 0
    requires forall e | e in t.db.events :: e in s.db.events && t.db.events[e].createdAt == s.db.events[e].createdAt
    requires t.stream == s.stream && t.publishers == s.publishers
    ensures Backed(t)
  {
    hide RowsOk, RowsBacked, TxnsBacked, SourcesOlder, EventsHaveRows;
    InsertRow(s, o, t.db.outbox[o]);
    RowsKept(s.db.events, t.db.events, t.db.outbox, t.db.outbox);
  }

  lemma PublishRowBacked(s: State, t: Id, o: Id, result: XaddResult)
    requires Backed(s) && IdsBounded(s) && PublishLocks(s.publishers, s.db.outbox) && CanPublishRow(s, t, o)
    ensures Backed(PublishRowEffect(s, t, o, result))
  {
    hide RowsOk, RowsBacked, TxnsBacked, SourcesOlder, EventsHaveRows, PublishLocks;
    var s' := PublishRowEffect(s, t, o, result);
    var message := Message(FromOutbox(o), s.db.outbox[o].payload);
    NotDone(s.publishers, s.db.outbox, t, o);
    BackedAfterAdd(s, message);
    HandledRowBacked(s, o, result);
    DoneRowBacked(s.publishers, s'.stream.entries, t, o, s'.publishers[t]);
  }

  lemma HandledRowBacked(s: State, o: Id, result: XaddResult)
    requires IdsBounded(s) && o in s.db.outbox && RowsBacked(s.db.outbox, s.stream.entries)
    ensures var entries := if result == XaddFailed then s.stream.entries
                           else s.stream.entries[s.nextId := Message(FromOutbox(o), s.db.outbox[o].payload)];
            RowBacked(o, HandledRow(s.db.outbox[o], result), entries)
  {
    var message := Message(FromOutbox(o), s.db.outbox[o].payload);
    MessagesAfterAdd(s.stream.entries, s.nextId, message, FromOutbox(o));
    assert RowBacked(o, s.db.outbox[o], s.stream.entries);
    assert s.nextId in MessagesFor(s.stream.entries[s.nextId := message], FromOutbox(o));
  }

  lemma DoneRowBacked(publishers: map<Id, PublishTxn>, entries: map<Id, Message>, t: Id, o: Id, txn: PublishTxn)
    requires TxnsBacked(publishers, entries) && t in publishers
    requires o in txn.done && txn.done == publishers[t].done[o := txn.done[o]] && RowBacked(o, txn.done[o], entries)
    ensures TxnsBacked(publishers[t := txn], entries)
  {
    assert RowsBacked(publishers[t].done, entries);
  }

  lemma PublishCommitBacked(s: State, t: Id)
    requires Backed(s) && PublishLocks(s.publishers, s.db.outbox) && CanPublishCommit(s, t)
    ensures Backed(PublishCommitEffect(s, t))
  {
    var s' := PublishCommitEffect(s, t);
    assert PublishTxnOk(s.publishers[t], s.db.outbox);
    assert RowsBacked(s.publishers[t].done, s.stream.entries);
    assert RowsBacked(s'.db.outbox, s.stream.entries);
    hide RowsBacked, TxnsBacked, SourcesOlder, EventsHaveRows;
    TxnGone(s.publishers, s.stream.entries, t);
    RowsKept(s.db.events, s'.db.events, s.db.outbox, s'.db.outbox);
  }

  lemma TxnGone(publishers: map<Id, PublishTxn>, entries: map<Id, Message>, t: Id)
    requires TxnsBacked(publishers, entries)
    ensures TxnsBacked(publishers - {t}, entries)
  {
  }

  lemma PublishOpenBacked(s: State, rows: set<Id>)
    requires Backed(s)
    ensures Backed(PublishOpenEffect(s, rows))
  {
  }

  lemma PublishAbortBacked(s: State, t: Id)
    requires Backed(s)
    ensures Backed(s.(publishers := s.publishers - {t}))
  {
  }

  lemma RequeueRowBacked(s: State, t: Id, d: Id)
    requires Backed(s) && IdsBounded(s) && Refs(s.db) && CanRequeueRow(s, t, d)
    ensures Backed(RequeueRowEffect(s, t, d))
  {
    hide RowsOk, RowsBacked, TxnsBacked, SourcesOlder, EventsHaveRows;
    BackedAfterAdd(s, RetryMessage(d, s.db.deliveries[d], s.db.events[s.db.deliveries[d].event]));
  }

  lemma RequeueAbortBacked(s: State, t: Id, lost: Option<Id>)
    requires Backed(s) && IdsBounded(s) && CanRequeueAbort(s, t, lost)
    ensures Backed(RequeueAbortEffect(s, t, lost))
  {
    hide RowsOk, RowsBacked, TxnsBacked, SourcesOlder, EventsHaveRows;
    if lost.Some? {
      var d := lost.value;
      BackedAfterAdd(s, RetryMessage(d, s.db.deliveries[d], s.db.events[s.db.deliveries[d].event]));
    }
  }

  /** Steps that leave the outbox, the publishers and the stream entries alone. */
  lemma QuietBacked(s: State, t: State)
    requires Backed(s) && t.db.outbox == s.db.outbox && t.publishers == s.publishers
    requires t.stream.entries == s.stream.entries && t.db.events == s.db.events
    ensures Backed(t)
  {
  }

  lemma ResolveBacked(s: State, h: Id, endpoints: seq<Id>)
    requires Backed(s) && CanResolve(s, h, endpoints)
    ensures Backed(ResolveEffect(s, h, endpoints))
  {
    hide RowsOk, RowsBacked, TxnsBacked, SourcesOlder, EventsHaveRows;
    RowsKept(s.db.events, ResolveEffect(s, h, endpoints).db.events, s.db.outbox, s.db.outbox);
  }

  lemma SaveDeliveryBacked(s: State, h: Id)
    requires Backed(s) && CanSaveDelivery(s, h)
    ensures Backed(SaveDeliveryEffect(s, h))
  {
    hide RowsOk, RowsBacked, TxnsBacked, SourcesOlder, EventsHaveRows;
    RowsKept(s.db.events, SaveDeliveryEffect(s, h).db.events, s.db.outbox, s.db.outbox);
  }

  lemma RetentionBacked(c: Config, s: State)
    requires Backed(s)
    ensures Backed(RetentionEffect(c, s))
  {
    var t := RetentionEffect(c, s);
    assert RowsOk(t.db.outbox) && RowsBacked(t.db.outbox, s.stream.entries);
    hide RowsOk, RowsBacked, TxnsBacked, SourcesOlder, EventsHaveRows;
    RowsKept(s.db.events, t.db.events, s.db.outbox, t.db.outbox);
  }

  lemma ApiBacked(c: Config, s: State, step: Step, t: State)
    requires Sound(s) && Backed(s) && ApiNext(c, s, step, t)
    ensures Backed(t)
  {
    hide Backed, HandlersOk, RequeueLocks, PublishLocks, Refs, IdsBounded, WellFormed, IngestCommitEffect;
    match step
    case IngestCommit(r) => IngestCommitBacked(c, s, r);
    case ReplayEvent(_, _) => ReplayBacked(s, t, s.nextId);
    case ReplayDlq(_, _) => ReplayBacked(s, t, s.nextId);
    case _ => QuietBacked(s, t);
  }

  lemma PublisherBacked(c: Config, s: State, step: Step, t: State)
    requires Sound(s) && Backed(s) && PublisherNext(c, s, step, t)
    ensures Backed(t)
  {
    hide Backed, HandlersOk, RequeueLocks, PublishLocks, Refs, IdsBounded, WellFormed, PublishOpenEffect;
    hide PublishRowEffect, PublishCommitEffect;
    match step
    case PublishOpen(rows) => PublishOpenBacked(s, rows);
    case PublishRow(x, o, result) => PublishRowBacked(s, x, o, result);
    case PublishCommit(x) => PublishCommitBacked(s, x);
    case PublishAbort(x) => PublishAbortBacked(s, x);
    case _ =>
  }

  lemma SchedulerBacked(c: Config, s: State, step: Step, t: State)
    requires Sound(s) && Backed(s) && SchedulerNext(c, s, step, t)
    ensures Backed(t)
  {
    hide Backed, HandlersOk, RequeueLocks, PublishLocks, Refs, IdsBounded, WellFormed, RequeueRowEffect;
    hide RequeueAbortEffect, RetentionEffect;
    match step
    case RequeueRow(x, d) => RequeueRowBacked(s, x, d);
    case RequeueAbort(x, lost) => RequeueAbortBacked(s, x, lost);
    case Retention => RetentionBacked(c, s);
    case _ => QuietBacked(s, t);
  }

  lemma WorkerBacked(c: Config, s: State, step: Step, t: State)
    requires Sound(s) && Backed(s) && WorkerNext(c, s, step, t)
    ensures Backed(t)
  {
    hide Backed, HandlersOk, RequeueLocks, PublishLocks, Refs, IdsBounded, WellFormed, ResolveEffect;
    hide SaveDeliveryEffect;
    match step
    case Resolve(h, endpoints) => ResolveBacked(s, h, endpoints);
    case SaveDelivery(h) => SaveDeliveryBacked(s, h);
    case _ => QuietBacked(s, t);
  }

  lemma BackedStep(c: Config, s: State, step: Step, t: State)
    requires Sound(s) && Backed(s) && Next(c, s, step, t)
    ensures Backed(t)
  {
    hide ApiNext, PublisherNext, SchedulerNext, WorkerNext, Backed, HandlersOk, RequeueLocks, PublishLocks, Refs;
    hide IdsBounded, WellFormed;
    if ApiNext(c, s, step, t) {
      ApiBacked(c, s, step, t);
    } else if PublisherNext(c, s, step, t) {
      PublisherBacked(c, s, step, t);
    } else if SchedulerNext(c, s, step, t) {
      SchedulerBacked(c, s, step, t);
    } else {
      WorkerBacked(c, s, step, t);
    }
  }

  lemma {:induction false} AlwaysBacked(c: Config, r: Run, i: nat)
    requires IsHistory(c, r) && i < |r.states|
    ensures Backed(r.states[i])
  {
    hide Backed, Sound, Next;
    if i == 0 {
      BackedInit();
    } else {
      AlwaysBacked(c, r, i - 1);
      AlwaysSound(c, r, i - 1);
      BackedStep(c, r.states[i - 1], r.steps[i - 1], r.states[i]);
    }
  }

  /**
   * No accepted event is lost before the stream: in every state of every run each event has its own outbox row, which
   * is pending with attempts to spare, has failed after exactly ten attempts, or is published and its payload is in
   * the stream.
   */
  lemma AcceptedEventsKeepTheirRow(c: Config, r: Run, i: nat, e: Id)
    requires IsHistory(c, r) && i < |r.states| && e in r.states[i].db.events
    ensures var s := r.states[i];
            exists o :: && o in s.db.outbox && s.db.outbox[o].event == e && s.db.outbox[o].payload.target.None?
                        && AttemptsOk(s.db.outbox[o])
                        && (s.db.outbox[o].status == Published ==>
                              exists m :: && m in s.stream.entries && s.stream.entries[m].source == FromOutbox(o)
                                          && s.stream.entries[m].payload == s.db.outbox[o].payload)
  {
    hide Next;
    AlwaysBacked(c, r, i);
    var s := r.states[i];
    assert HasOwnRow(e, s.db.events[e], s.db.outbox);
    var o :| OwnRow(o, e, s.db.events[e], s.db.outbox);
    assert RowBacked(o, s.db.outbox[o], s.stream.entries);
    if s.db.outbox[o].status == Published {
      var m :| m in MessagesFor(s.stream.entries, FromOutbox(o));
      assert m in s.stream.entries && s.stream.entries[m].source == FromOutbox(o);
    }
  }
}
