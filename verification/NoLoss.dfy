/**
 * No accepted work is lost after the stream either. A message is bound for its target and for every endpoint one of its
 * handlers resolved. In every state of every run, under any crashes, rollbacks, reclaims and concurrent handlers, each
 * pair of event and endpoint that some message is bound for is still being taken care of.
 */
module NoLoss {
  import opened Common
  import opened Tables
  import opened Broker
  import opened Pipeline
  import opened Frames
  import opened Integrity
  import opened Tenancy

  function EventOf(s: State, m: Id): Id
    requires m in s.stream.entries
  {
    s.stream.entries[m].payload.event
  }

  /** What an acknowledged message was bound for is covered by something younger than the message. */
  ghost predicate AckedCovered(s: State) {
    forall m, p | BoundFor(s.stream, s.log, m, p) && !Unacked(s.stream, m) :: Covered(s, EventOf(s, m), p, m)
  }

  /** What a handler resolved it has yet to do, or is covered by something younger than its message. */
  ghost predicate HandlerCovered(s: State, x: Handler) {
    && x.message in s.stream.entries
    && forall p | p in x.resolved :: p in Remaining(x) || Covered(s, EventOf(s, x.message), p, x.message)
  }

  ghost predicate HandlersCovered(s: State) {
    forall h | h in s.handlers :: HandlerCovered(s, s.handlers[h])
  }

  // ---- Bookkeeping. ----

  ghost predicate HandlerRecorded(x: Handler, log: History) {
    && (x.resolved != {} ==> x.message in log.resolved && x.resolved <= log.resolved[x.message])
    && (x.phase.Starting? ==> x.resolved == {})
    && (forall p | p in Remaining(x) :: p in x.resolved)
    && Distinct(Remaining(x))
  }

  /** A targeted message is only ever resolved to its target. */
  ghost predicate Focused(stream: Stream, log: History, m: Id) {
    && m in log.resolved && m in stream.entries
    && (stream.entries[m].payload.target.Some? ==> log.resolved[m] <= {stream.entries[m].payload.target.value})
  }

  ghost predicate Recorded(handlers: map<Id, Handler>, stream: Stream, log: History) {
    && (forall m | m in log.resolved :: Focused(stream, log, m))
    && (forall m, p | (m, p) in log.missed :: BoundFor(stream, log, m, p))
    && (forall h | h in handlers :: HandlerRecorded(handlers[h], log))
  }

  /** A removed delivery never comes back. */
  ghost predicate PurgedApart(s: State) {
    forall d | d in s.log.purged :: d < s.nextId && d !in s.db.deliveries
  }

  /** The message is a retry of the delivery row. */
  ghost predicate RetriedBy(stream: Stream, d: Id, row: Delivery, m: Id) {
    && d < m && m in stream.entries
    && stream.entries[m].payload.event == row.event
    && stream.entries[m].payload.target == Some(row.endpoint)
  }

  ghost predicate RetriesPublished(requeues: map<Id, RequeueTxn>, deliveries: map<Id, Delivery>, stream: Stream) {
    forall t, d | t in requeues && d in requeues[t].published ::
      d in deliveries && RetriedBy(stream, d, deliveries[d], requeues[t].published[d])
  }

  ghost predicate QueuedRetried(stream: Stream, d: Id, row: Delivery) {
    row.status == Queued ==> exists m :: RetriedBy(stream, d, row, m)
  }

  ghost predicate QueuedHaveMessages(deliveries: map<Id, Delivery>, stream: Stream) {
    forall d | d in deliveries :: QueuedRetried(stream, d, deliveries[d])
  }

  ghost predicate Safe(s: State) {
    && AckedCovered(s)
    && HandlersCovered(s)
    && Recorded(s.handlers, s.stream, s.log)
    && PurgedApart(s)
    && RetriesPublished(s.requeues, s.db.deliveries, s.stream)
    && QueuedHaveMessages(s.db.deliveries, s.stream)
  }

  lemma SafeInit()
    ensures Safe(Init)
  {
  }

  // ---- Coverage persists. ----

  ghost predicate RowsKeptOrPurged(s: State, t: State) {
    forall d | d in s.db.deliveries && s.db.deliveries[d].status in {Delivered, Dlq, Retrying} ::
      || (&& d in t.db.deliveries && t.db.deliveries[d].status in {Delivered, Dlq, Retrying}
          && t.db.deliveries[d].event == s.db.deliveries[d].event
          && t.db.deliveries[d].endpoint == s.db.deliveries[d].endpoint)
      || (d in t.log.purged && t.log.purged[d] == s.db.deliveries[d])
  }

  ghost predicate StreamKept(q: Stream, q': Stream) {
    && (forall m | m in q.entries :: m in q'.entries && q'.entries[m] == q.entries[m])
    && (forall m | Unacked(q, m) :: Unacked(q', m))
  }

  ghost predicate LogKept(log: History, log': History) {
    && log.missed <= log'.missed
    && (forall d | d in log.purged :: d in log'.purged && log'.purged[d] == log.purged[d])
    && (forall m | m in log.resolved :: m in log'.resolved && log.resolved[m] <= log'.resolved[m])
  }

  ghost predicate EventsNotRevived(s: State, t: State) {
    forall e | e in t.db.events && e < s.nextId :: e in s.db.events
  }

  ghost predicate Kept(s: State, t: State) {
    EventsNotRevived(s, t) && RowsKeptOrPurged(s, t) && StreamKept(s.stream, t.stream) && LogKept(s.log, t.log)
  }

  lemma ExemptKept(s: State, t: State, e: Id, p: Id, k: Id)
    requires Exempt(s, e, p, k) && Kept(s, t) && e < s.nextId
    ensures Exempt(t, e, p, k)
  {
    if e in s.db.events {
      if m :| m in s.stream.entries && MissCovers(s.stream, s.log, m, e, p, k) {
        assert MissCovers(t.stream, t.log, m, e, p, k);
      } else {
        var d :| d in s.log.purged && PurgeCovers(s.log, d, e, p, k);
        assert PurgeCovers(t.log, d, e, p, k);
      }
    }
  }

  lemma CoverKept(s: State, t: State, e: Id, p: Id, k: Id)
    requires Covered(s, e, p, k) && Kept(s, t) && e < s.nextId
    ensures Covered(t, e, p, k)
  {
    if Exempt(s, e, p, k) {
      ExemptKept(s, t, e, p, k);
    } else {
      if d :| RowCovers(s.db.deliveries, d, e, p, k) {
        assert RowCovers(t.db.deliveries, d, e, p, k) || PurgeCovers(t.log, d, e, p, k);
      } else {
        var m :| m in s.stream.entries && MessageCovers(s.stream, s.log, m, e, p, k);
        assert MessageCovers(t.stream, t.log, m, e, p, k);
      }
    }
  }

  /** Messages that become bound for an endpoint after they were acknowledged are covered all the same. */
  ghost predicate NoNewDebt(s: State, t: State) {
    forall m, p | BoundFor(t.stream, t.log, m, p) && !BoundFor(s.stream, s.log, m, p) && !Unacked(t.stream, m) ::
      Covered(t, EventOf(t, m), p, m)
  }

  /** Messages are about events that were accepted, so their identifiers are in use. */
  ghost predicate EventsKnown(s: State) {
    forall m | m in s.stream.entries :: s.stream.entries[m].payload.event < s.nextId
  }

  lemma KnownEvents(s: State)
    requires IdsBounded(s) && EntriesOk(s.stream.entries, s.log)
    ensures EventsKnown(s)
  {
  }

  lemma HandlerKept(s: State, t: State, x: Handler)
    requires HandlerCovered(s, x) && Kept(s, t) && EventsKnown(s)
    ensures HandlerCovered(t, x)
  {
    forall p | p in x.resolved && p !in Remaining(x) ensures Covered(t, EventOf(t, x.message), p, x.message) {
      CoverKept(s, t, EventOf(s, x.message), p, x.message);
    }
  }

  lemma AckedKept(s: State, t: State)
    requires AckedCovered(s) && Kept(s, t) && NoNewDebt(s, t) && EventsKnown(s)
    ensures AckedCovered(t)
  {
    forall m, p | BoundFor(t.stream, t.log, m, p) && !Unacked(t.stream, m) ensures Covered(t, EventOf(t, m), p, m) {
      if BoundFor(s.stream, s.log, m, p) {
        CoverKept(s, t, EventOf(s, m), p, m);
      }
    }
  }

  /** The general step: nothing is taken away, and each handler is as before or is covered anew. */
  lemma CoverageKept(s: State, t: State)
    requires AckedCovered(s) && HandlersCovered(s) && EventsKnown(s)
    requires Kept(s, t) && NoNewDebt(s, t)
    requires forall h | h in t.handlers :: (h in s.handlers && t.handlers[h] == s.handlers[h]) || HandlerCovered(t, t.handlers[h])
    ensures AckedCovered(t) && HandlersCovered(t)
  {
    AckedKept(s, t);
    forall h | h in t.handlers ensures HandlerCovered(t, t.handlers[h]) {
      if h in s.handlers && t.handlers[h] == s.handlers[h] {
        HandlerKept(s, t, s.handlers[h]);
      }
    }
  }

  // ---- Queueing a retry. ----

  function WithDeliveries(s: State, deliveries: map<Id, Delivery>): State {
    s.(db := s.db.(deliveries := deliveries))
  }

  /**
   * A retrying row may give way once its retry message is in the stream: an unacknowledged message covers the pair
   * itself, and an acknowledged one is covered by something younger still.
   */
  lemma CoverWithoutRow(s: State, d: Id, m: Id, e: Id, p: Id, k: Id)
    requires AckedCovered(s) && d in s.db.deliveries && RetriedBy(s.stream, d, s.db.deliveries[d], m)
    requires Covered(s, e, p, k)
    ensures Covered(WithDeliveries(s, s.db.deliveries[d := s.db.deliveries[d].(status := Queued)]), e, p, k)
  {
    var t := WithDeliveries(s, s.db.deliveries[d := s.db.deliveries[d].(status := Queued)]);
    if Exempt(s, e, p, k) {
      SameExempt(s, t, e, p, k);
    } else if x :| RowCovers(s.db.deliveries, x, e, p, k) {
      if x != d {
        assert RowCovers(t.db.deliveries, x, e, p, k);
      } else if Unacked(s.stream, m) {
        assert MessageCovers(t.stream, t.log, m, e, p, k);
      } else {
        assert BoundFor(s.stream, s.log, m, p);
        assert Covered(s, e, p, m);
        YoungerThanRow(s, d, m, e, p, k);
      }
    } else {
      var y :| y in s.stream.entries && MessageCovers(s.stream, s.log, y, e, p, k);
      assert MessageCovers(t.stream, t.log, y, e, p, k);
    }
  }

  lemma SameExempt(s: State, t: State, e: Id, p: Id, k: Id)
    requires Exempt(s, e, p, k) && t.stream.entries == s.stream.entries && t.db.events.Keys == s.db.events.Keys
    requires s.log.missed <= t.log.missed && t.log.purged == s.log.purged
    ensures Exempt(t, e, p, k)
  {
    if e in s.db.events {
      if m :| m in s.stream.entries && MissCovers(s.stream, s.log, m, e, p, k) {
        assert MissCovers(t.stream, t.log, m, e, p, k);
      } else {
        var d :| d in s.log.purged && PurgeCovers(s.log, d, e, p, k);
        assert PurgeCovers(t.log, d, e, p, k);
      }
    }
  }

  /** What covers the retry message covers what came before the row, and is not the row. */
  lemma YoungerThanRow(s: State, d: Id, m: Id, e: Id, p: Id, k: Id)
    requires d in s.db.deliveries && k < d < m && Covered(s, e, p, m)
    ensures Covered(WithDeliveries(s, s.db.deliveries[d := s.db.deliveries[d].(status := Queued)]), e, p, k)
  {
    var t := WithDeliveries(s, s.db.deliveries[d := s.db.deliveries[d].(status := Queued)]);
    if Exempt(s, e, p, m) {
      ExemptEarlier(s, e, p, m, k);
      SameExempt(s, t, e, p, k);
    } else if y :| RowCovers(s.db.deliveries, y, e, p, m) {
      assert RowCovers(t.db.deliveries, y, e, p, k);
    } else {
      var y :| y in s.stream.entries && MessageCovers(s.stream, s.log, y, e, p, m);
      assert MessageCovers(t.stream, t.log, y, e, p, k);
    }
  }

  lemma ExemptEarlier(s: State, e: Id, p: Id, k: Id, k': Id)
    requires Exempt(s, e, p, k) && k' <= k
    ensures Exempt(s, e, p, k')
  {
    if e in s.db.events {
      if m :| m in s.stream.entries && MissCovers(s.stream, s.log, m, e, p, k) {
        assert MissCovers(s.stream, s.log, m, e, p, k');
      } else {
        var d :| d in s.log.purged && PurgeCovers(s.log, d, e, p, k);
        assert PurgeCovers(s.log, d, e, p, k');
      }
    }
  }

  lemma FlipOne(s: State, d: Id, m: Id)
    requires AckedCovered(s) && HandlersCovered(s)
    requires d in s.db.deliveries && RetriedBy(s.stream, d, s.db.deliveries[d], m)
    ensures var t := WithDeliveries(s, s.db.deliveries[d := s.db.deliveries[d].(status := Queued)]);
            AckedCovered(t) && HandlersCovered(t)
  {
    var t := WithDeliveries(s, s.db.deliveries[d := s.db.deliveries[d].(status := Queued)]);
    forall x, p | BoundFor(t.stream, t.log, x, p) && !Unacked(t.stream, x) ensures Covered(t, EventOf(t, x), p, x) {
      CoverWithoutRow(s, d, m, EventOf(s, x), p, x);
    }
    forall h | h in t.handlers ensures HandlerCovered(t, t.handlers[h]) {
      var x := s.handlers[h];
      assert HandlerCovered(s, x);
      forall p | p in x.resolved && p !in Remaining(x) ensures Covered(t, EventOf(t, x.message), p, x.message) {
        CoverWithoutRow(s, d, m, EventOf(s, x.message), p, x.message);
      }
    }
  }

  lemma {:induction false} FlipAll(s: State, rows: set<Id>, published: map<Id, Id>)
    requires AckedCovered(s) && HandlersCovered(s)
    requires forall d | d in rows :: d in published && d in s.db.deliveries && RetriedBy(s.stream, d, s.db.deliveries[d], published[d])
    ensures var t := WithDeliveries(s, Requeued(s.db.deliveries, rows));
            AckedCovered(t) && HandlersCovered(t)
    decreases |rows|
  {
    if rows == {} {
      assert Requeued(s.db.deliveries, rows) == s.db.deliveries;
      assert WithDeliveries(s, s.db.deliveries) == s;
    } else {
      var d :| d in rows;
      var others := rows - {d};
      FlipAll(s, others, published);
      var u := WithDeliveries(s, Requeued(s.db.deliveries, others));
      FlipOne(u, d, published[d]);
      assert u.db.deliveries[d := u.db.deliveries[d].(status := Queued)] == Requeued(s.db.deliveries, rows);
    }
  }

  // ---- Acknowledging. ----

  /** What the message was bound for is covered by something younger, or recorded as missed. */
  lemma AckSettles(s: State, h: Id, p: Id)
    requires HandlersCovered(s) && CanAcknowledge(s, h) && BoundFor(s.stream, s.log, s.handlers[h].message, p)
    ensures var m := s.handlers[h].message;
            (m, p) in AcknowledgeEffect(s, h).log.missed || Covered(s, EventOf(s, m), p, m)
  {
    hide Covered;
    assert HandlerCovered(s, s.handlers[h]);
    assert p in Targets(s.stream, s.log, s.handlers[h].message);
  }

  /** Evidence younger than the message survives its acknowledgement. */
  lemma YoungerSurvives(s: State, h: Id, e: Id, p: Id)
    requires CanAcknowledge(s, h) && Covered(s, e, p, s.handlers[h].message)
    ensures Covered(AcknowledgeEffect(s, h), e, p, s.handlers[h].message)
  {
    hide LeftAlone;
    var t, m := AcknowledgeEffect(s, h), s.handlers[h].message;
    if Exempt(s, e, p, m) {
      SameExempt(s, t, e, p, m);
    } else if d :| RowCovers(s.db.deliveries, d, e, p, m) {
      assert RowCovers(t.db.deliveries, d, e, p, m);
    } else {
      var x :| x in s.stream.entries && MessageCovers(s.stream, s.log, x, e, p, m);
      assert MessageCovers(t.stream, t.log, x, e, p, m);
    }
  }

  lemma CoveredEarlier(s: State, e: Id, p: Id, k: Id, k': Id)
    requires Covered(s, e, p, k) && k' <= k
    ensures Covered(s, e, p, k')
  {
    if Exempt(s, e, p, k) {
      ExemptEarlier(s, e, p, k, k');
    } else if d :| RowCovers(s.db.deliveries, d, e, p, k) {
      assert RowCovers(s.db.deliveries, d, e, p, k');
    } else {
      var x :| x in s.stream.entries && MessageCovers(s.stream, s.log, x, e, p, k);
      assert MessageCovers(s.stream, s.log, x, e, p, k');
    }
  }

  lemma AckSettled(s: State, h: Id, p: Id)
    requires HandlersCovered(s) && CanAcknowledge(s, h) && BoundFor(s.stream, s.log, s.handlers[h].message, p)
    ensures Covered(AcknowledgeEffect(s, h), EventOf(s, s.handlers[h].message), p, s.handlers[h].message)
  {
    hide LeftAlone;
    var t, m := AcknowledgeEffect(s, h), s.handlers[h].message;
    AckSettles(s, h, p);
    if Covered(s, EventOf(s, m), p, m) {
      YoungerSurvives(s, h, EventOf(s, m), p);
    } else {
      assert MissCovers(t.stream, t.log, m, EventOf(s, m), p, m);
    }
  }

  lemma AckKeepsCover(s: State, h: Id, e: Id, p: Id, k: Id)
    requires HandlersCovered(s) && CanAcknowledge(s, h) && Covered(s, e, p, k)
    ensures Covered(AcknowledgeEffect(s, h), e, p, k)
  {
    hide LeftAlone;
    var t, m := AcknowledgeEffect(s, h), s.handlers[h].message;
    if Exempt(s, e, p, k) {
      SameExempt(s, t, e, p, k);
    } else if d :| RowCovers(s.db.deliveries, d, e, p, k) {
      assert RowCovers(t.db.deliveries, d, e, p, k);
    } else {
      var x :| x in s.stream.entries && MessageCovers(s.stream, s.log, x, e, p, k);
      if x == m {
        AckSettled(s, h, p);
        CoveredEarlier(t, e, p, m, k);
      } else {
        assert MessageCovers(t.stream, t.log, x, e, p, k);
      }
    }
  }

  lemma AckCoverage(s: State, h: Id)
    requires AckedCovered(s) && HandlersCovered(s) && CanAcknowledge(s, h)
    ensures AckedCovered(AcknowledgeEffect(s, h)) && HandlersCovered(AcknowledgeEffect(s, h))
  {
    var t, m := AcknowledgeEffect(s, h), s.handlers[h].message;
    forall x, p | BoundFor(t.stream, t.log, x, p) && !Unacked(t.stream, x) ensures Covered(t, EventOf(t, x), p, x) {
      assert BoundFor(s.stream, s.log, x, p);
      if x == m {
        AckSettled(s, h, p);
      } else {
        AckKeepsCover(s, h, EventOf(s, x), p, x);
      }
    }
    forall k | k in t.handlers ensures HandlerCovered(t, t.handlers[k]) {
      var x := s.handlers[k];
      assert HandlerCovered(s, x);
      forall p | p in x.resolved && p !in Remaining(x) ensures Covered(t, EventOf(t, x.message), p, x.message) {
        AckKeepsCover(s, h, EventOf(s, x.message), p, x.message);
      }
    }
  }

  // ---- Step by step. ----

  lemma NoDebtIfSame(s: State, t: State)
    requires t.stream.entries == s.stream.entries && t.log.resolved == s.log.resolved
    ensures NoNewDebt(s, t)
  {
  }

  /** Steps that leave the stream, the handlers, the delivery rows and the record of pairs alone. */
  lemma QuietSafe(s: State, t: State)
    requires Safe(s) && EventsKnown(s) && EventsNotRevived(s, t)
    requires t.stream == s.stream && t.handlers == s.handlers && t.db.deliveries == s.db.deliveries
    requires t.log.missed == s.log.missed && t.log.purged == s.log.purged && t.log.resolved == s.log.resolved
    requires RetriesPublished(t.requeues, t.db.deliveries, t.stream) && s.nextId <= t.nextId
    ensures Safe(t)
  {
    hide AckedCovered, HandlersCovered, RetriesPublished, QueuedHaveMessages;
    assert Kept(s, t);
    NoDebtIfSame(s, t);
    CoverageKept(s, t);
  }

  /** A new message is unacknowledged, and nothing was bound for it before. */
  lemma AddKept(s: State, t: State, m: Message)
    requires IdsBounded(s) && Recorded(s.handlers, s.stream, s.log)
    requires t.stream == XAdd(s.stream, s.nextId, m) && t.db == s.db && t.log == s.log
    ensures Kept(s, t) && NoNewDebt(s, t)
  {
    assert forall x | Unacked(s.stream, x) :: Unacked(t.stream, x);
    assert Unacked(t.stream, s.nextId);
  }

  lemma AddRecorded(s: State, t: State, m: Message)
    requires IdsBounded(s) && Recorded(s.handlers, s.stream, s.log)
    requires t.stream == XAdd(s.stream, s.nextId, m) && t.log == s.log && t.handlers == s.handlers
    ensures Recorded(t.handlers, t.stream, t.log)
  {
    forall x | x in t.log.resolved ensures Focused(t.stream, t.log, x) {
      assert Focused(s.stream, s.log, x);
    }
  }

  lemma AddSafe(s: State, t: State, m: Message)
    requires Safe(s) && EventsKnown(s) && IdsBounded(s)
    requires t.stream == XAdd(s.stream, s.nextId, m) && t.db == s.db && t.log == s.log && t.handlers == s.handlers
    requires RetriesPublished(t.requeues, t.db.deliveries, t.stream) && s.nextId <= t.nextId
    ensures Safe(t)
  {
    AddKept(s, t, m);
    AddRecorded(s, t, m);
    forall d | d in t.db.deliveries ensures QueuedRetried(t.stream, d, t.db.deliveries[d]) {
      assert QueuedRetried(s.stream, d, s.db.deliveries[d]);
      if t.db.deliveries[d].status == Queued {
        var x :| RetriedBy(s.stream, d, s.db.deliveries[d], x);
        assert RetriedBy(t.stream, d, t.db.deliveries[d], x);
      }
    }
    hide AckedCovered, HandlersCovered, RetriesPublished, QueuedHaveMessages, Kept, NoNewDebt;
    CoverageKept(s, t);
  }

  lemma PublishedAfterAdd(s: State, m: Message)
    requires RetriesPublished(s.requeues, s.db.deliveries, s.stream) && IdsBounded(s)
    ensures RetriesPublished(s.requeues, s.db.deliveries, XAdd(s.stream, s.nextId, m))
  {
  }

  lemma PublishRowSafe(s: State, t: Id, o: Id, result: XaddResult)
    requires Safe(s) && EventsKnown(s) && IdsBounded(s) && CanPublishRow(s, t, o)
    ensures Safe(PublishRowEffect(s, t, o, result))
  {
    hide Safe;
    var s' := PublishRowEffect(s, t, o, result);
    var message := Message(FromOutbox(o), s.db.outbox[o].payload);
    SafeParts(s);
    if result == XaddFailed {
      QuietSafe(s, s');
    } else {
      PublishedAfterAdd(s, message);
      AddSafe(s, s', message);
    }
  }

  lemma SafeParts(s: State)
    requires Safe(s)
    ensures AckedCovered(s) && HandlersCovered(s) && Recorded(s.handlers, s.stream, s.log) && PurgedApart(s)
    ensures RetriesPublished(s.requeues, s.db.deliveries, s.stream) && QueuedHaveMessages(s.db.deliveries, s.stream)
  {
  }

  lemma RequeueRowSafe(s: State, t: Id, d: Id)
    requires Safe(s) && EventsKnown(s) && IdsBounded(s) && Refs(s.db) && CanRequeueRow(s, t, d)
    ensures Safe(RequeueRowEffect(s, t, d))
  {
    assert s.db.deliveries[d].event in s.db.events;
    hide Safe, Refs, AckedCovered, HandlersCovered, QueuedHaveMessages;
    var s' := RequeueRowEffect(s, t, d);
    var message := RetryMessage(d, s.db.deliveries[d], s.db.events[s.db.deliveries[d].event]);
    SafeParts(s);
    PublishedAfterAdd(s, message);
    assert RetriedBy(s'.stream, d, s.db.deliveries[d], s.nextId);
    assert RetriesPublished(s'.requeues, s'.db.deliveries, s'.stream);
    AddSafe(s, s', message);
  }

  lemma RequeueAbortSafe(s: State, t: Id, lost: Option<Id>)
    requires Safe(s) && EventsKnown(s) && IdsBounded(s) && CanRequeueAbort(s, t, lost)
    ensures Safe(RequeueAbortEffect(s, t, lost))
  {
    hide Safe, AckedCovered, HandlersCovered, QueuedHaveMessages;
    var s' := RequeueAbortEffect(s, t, lost);
    SafeParts(s);
    if lost.None? {
      QuietSafe(s, s');
    } else {
      var d := lost.value;
      var message := RetryMessage(d, s.db.deliveries[d], s.db.events[s.db.deliveries[d].event]);
      PublishedAfterAdd(s, message);
      AddSafe(s, s', message);
    }
  }

  lemma RequeueCommitSafe(s: State, t: Id)
    requires Safe(s) && RequeueLocks(s.requeues, s.db.deliveries) && CanRequeueCommit(s, t)
    ensures Safe(RequeueCommitEffect(s, t))
  {
    var s' := RequeueCommitEffect(s, t);
    var published := s.requeues[t].published;
    FlipAll(s, published.Keys, published);
    SameCoverage(WithDeliveries(s, s'.db.deliveries), s');
    forall d | d in s'.db.deliveries ensures QueuedRetried(s'.stream, d, s'.db.deliveries[d]) {
      assert QueuedRetried(s.stream, d, s.db.deliveries[d]);
      if s'.db.deliveries[d].status == Queued {
        if d in published {
          assert RetriedBy(s'.stream, d, s'.db.deliveries[d], published[d]);
        } else {
          var x :| RetriedBy(s.stream, d, s.db.deliveries[d], x);
          assert RetriedBy(s'.stream, d, s'.db.deliveries[d], x);
        }
      }
    }
    hide AckedCovered, HandlersCovered;
  }

  /** Coverage does not depend on the open transactions. */
  lemma SameCoverage(s: State, t: State)
    requires AckedCovered(s) && HandlersCovered(s)
    requires t.db == s.db && t.stream == s.stream && t.log == s.log && t.handlers == s.handlers
    ensures AckedCovered(t) && HandlersCovered(t)
  {
    forall m, p | BoundFor(t.stream, t.log, m, p) && !Unacked(t.stream, m) ensures Covered(t, EventOf(t, m), p, m) {
      assert Covered(s, EventOf(s, m), p, m);
    }
    forall h | h in t.handlers ensures HandlerCovered(t, t.handlers[h]) {
      assert HandlerCovered(s, s.handlers[h]);
      forall p | p in t.handlers[h].resolved && p !in Remaining(t.handlers[h])
        ensures Covered(t, EventOf(t, t.handlers[h].message), p, t.handlers[h].message)
      {
        assert Covered(s, EventOf(s, s.handlers[h].message), p, s.handlers[h].message);
      }
    }
  }

  lemma ConsumeKeepsUnacked(q: Stream, m: Id, now: Time)
    requires IsNext(q, m)
    ensures StreamKept(q, XReadGroup(q, m, now))
  {
  }

  /** A handler that has just received its message owes nothing yet. */
  lemma StartSafe(s: State, t: State, h: Id, m: Id)
    requires Safe(s) && EventsKnown(s) && StreamKept(s.stream, t.stream) && t.stream.entries == s.stream.entries
    requires m in s.stream.entries && t.handlers == s.handlers[h := Handler(m, {}, Starting)]
    requires t.db == s.db && t.log == s.log && t.requeues == s.requeues && s.nextId <= t.nextId
    ensures Safe(t)
  {
    assert Kept(s, t);
    StartRecorded(s, t, h, m);
    NoDebtIfSame(s, t);
    forall k | k in t.handlers ensures (k in s.handlers && t.handlers[k] == s.handlers[k]) || HandlerCovered(t, t.handlers[k]) {
    }
    CoverageKept(s, t);
    assert QueuedHaveMessages(t.db.deliveries, t.stream) by { SameQueued(s, t); }
    hide AckedCovered, HandlersCovered, QueuedHaveMessages, Kept, StreamKept;
  }

  lemma StartRecorded(s: State, t: State, h: Id, m: Id)
    requires Recorded(s.handlers, s.stream, s.log) && t.stream.entries == s.stream.entries && t.log == s.log
    requires t.handlers == s.handlers[h := Handler(m, {}, Starting)]
    ensures Recorded(t.handlers, t.stream, t.log)
  {
    forall x | x in t.log.resolved ensures Focused(t.stream, t.log, x) {
      assert Focused(s.stream, s.log, x);
    }
    forall x | x in t.handlers ensures HandlerRecorded(t.handlers[x], t.log) {
      assert x != h ==> HandlerRecorded(s.handlers[x], s.log);
    }
  }

  lemma SameQueued(s: State, t: State)
    requires QueuedHaveMessages(s.db.deliveries, s.stream) && t.db == s.db && t.stream.entries == s.stream.entries
    ensures QueuedHaveMessages(t.db.deliveries, t.stream)
  {
    forall d | d in t.db.deliveries ensures QueuedRetried(t.stream, d, t.db.deliveries[d]) {
      assert QueuedRetried(s.stream, d, s.db.deliveries[d]);
      if t.db.deliveries[d].status == Queued {
        var x :| RetriedBy(s.stream, d, s.db.deliveries[d], x);
        assert RetriedBy(t.stream, d, t.db.deliveries[d], x);
      }
    }
  }

  lemma ConsumeSafe(s: State, m: Id)
    requires Safe(s) && EventsKnown(s) && IsNext(s.stream, m)
    ensures Safe(ConsumeEffect(s, m))
  {
    hide Safe, StreamKept;
    ConsumeKeepsUnacked(s.stream, m, s.now);
    StartSafe(s, ConsumeEffect(s, m), s.nextId, m);
  }

  lemma ClaimSafe(c: Config, s: State, m: Id)
    requires Safe(s) && EventsKnown(s) && CanClaim(c, s, m)
    ensures Safe(ClaimEffect(s, m))
  {
    hide Safe;
    StartSafe(s, ClaimEffect(s, m), s.nextId, m);
  }

  lemma HandlerDiesSafe(s: State, h: Id)
    requires Safe(s) && EventsKnown(s)
    ensures Safe(s.(handlers := s.handlers - {h}))
  {
    var t := s.(handlers := s.handlers - {h});
    assert Kept(s, t);
    NoDebtIfSame(s, t);
    CoverageKept(s, t);
    hide AckedCovered, HandlersCovered, RetriesPublished, QueuedHaveMessages;
  }

  lemma AcknowledgeSafe(s: State, h: Id)
    requires Safe(s) && CanAcknowledge(s, h)
    ensures Safe(AcknowledgeEffect(s, h))
  {
    AckCoverage(s, h);
    SameQueued(s, AcknowledgeEffect(s, h));
    hide AckedCovered, HandlersCovered, QueuedHaveMessages;
  }

  /** A step of one handler that changes neither the stream nor the requeue passes. */
  lemma HandlerStepSafe(s: State, t: State, h: Id)
    requires Safe(s) && EventsKnown(s) && h in s.handlers && h in t.handlers
    requires t.stream == s.stream && t.requeues == s.requeues && t.handlers == s.handlers[h := t.handlers[h]]
    requires EventsNotRevived(s, t) && RowsKeptOrPurged(s, t) && LogKept(s.log, t.log) && NoNewDebt(s, t)
    requires HandlerCovered(t, t.handlers[h]) && Recorded(t.handlers, t.stream, t.log) && PurgedApart(t)
    requires RetriesPublished(t.requeues, t.db.deliveries, t.stream) && QueuedHaveMessages(t.db.deliveries, t.stream)
    ensures Safe(t)
  {
    hide AckedCovered, HandlersCovered, RetriesPublished, QueuedHaveMessages, HandlerCovered, Recorded, NoNewDebt;
    hide EventsNotRevived, RowsKeptOrPurged, LogKept;
    CoverageKept(s, t);
  }

  lemma ResolveShape(s: State, h: Id, endpoints: seq<Id>)
    requires CanResolve(s, h, endpoints)
    ensures var t := ResolveEffect(s, h, endpoints);
            && h in t.handlers && t.handlers == s.handlers[h := t.handlers[h]] && t.nextId == s.nextId
            && t.stream == s.stream && t.requeues == s.requeues && t.db.deliveries == s.db.deliveries
            && t.log.purged == s.log.purged
  {
    hide LeftAlone, IsResolution;
  }

  lemma ResolveKept(s: State, h: Id, endpoints: seq<Id>)
    requires CanResolve(s, h, endpoints)
    ensures Kept(s, ResolveEffect(s, h, endpoints))
  {
    hide LeftAlone, IsResolution;
  }

  /** What is found late is covered by something younger, or recorded as missed. */
  lemma LateCovered(s: State, h: Id, endpoints: seq<Id>, p: Id)
    requires CanResolve(s, h, endpoints) && EventsKnown(s) && !Unacked(s.stream, s.handlers[h].message)
    requires HandlerPayload(s, h).event in s.db.events && p in endpoints && p !in Targets(s.stream, s.log, s.handlers[h].message)
    ensures Covered(ResolveEffect(s, h, endpoints), HandlerPayload(s, h).event, p, s.handlers[h].message)
  {
    var t, m, e := ResolveEffect(s, h, endpoints), s.handlers[h].message, HandlerPayload(s, h).event;
    if Covered(s, e, p, m) {
      ResolveKept(s, h, endpoints);
      CoverKept(s, t, e, p, m);
    } else {
      assert (m, p) in t.log.missed;
      assert MissCovers(t.stream, t.log, m, e, p, m);
    }
  }

  lemma ResolveDebt(s: State, h: Id, endpoints: seq<Id>)
    requires CanResolve(s, h, endpoints) && EventsKnown(s)
    ensures NoNewDebt(s, ResolveEffect(s, h, endpoints))
  {
    hide Covered, LeftAlone, IsResolution, EventsKnown;
    var t, m := ResolveEffect(s, h, endpoints), s.handlers[h].message;
    forall x, p | BoundFor(t.stream, t.log, x, p) && !BoundFor(s.stream, s.log, x, p) && !Unacked(t.stream, x)
      ensures Covered(t, EventOf(t, x), p, x)
    {
      assert x == m && p !in Targets(s.stream, s.log, m);
      LateCovered(s, h, endpoints, p);
    }
  }

  /** What is found late is on the list of what was found. */
  lemma LateIsBound(s: State, h: Id, endpoints: seq<Id>)
    requires CanResolve(s, h, endpoints) && Recorded(s.handlers, s.stream, s.log)
    ensures var t := ResolveEffect(s, h, endpoints);
            forall m, p | (m, p) in t.log.missed :: BoundFor(t.stream, t.log, m, p)
  {
    hide Covered, IsResolution;
    var t := ResolveEffect(s, h, endpoints);
    forall m, p | (m, p) in t.log.missed ensures BoundFor(t.stream, t.log, m, p) {
      assert (m, p) in s.log.missed ==> BoundFor(s.stream, s.log, m, p);
    }
  }

  lemma ResolveFocused(s: State, h: Id, endpoints: seq<Id>, m: Id)
    requires CanResolve(s, h, endpoints) && Recorded(s.handlers, s.stream, s.log)
    requires m in ResolveEffect(s, h, endpoints).log.resolved
    ensures Focused(s.stream, ResolveEffect(s, h, endpoints).log, m)
  {
    hide LeftAlone;
    var payload := HandlerPayload(s, h);
    assert m in s.log.resolved ==> Focused(s.stream, s.log, m);
    forall q | payload.event in s.db.events && q in endpoints && payload.target.Some? ensures q == payload.target.value {
      assert Resolves(s.db, payload, q);
    }
  }

  lemma ResolveRecorded(s: State, h: Id, endpoints: seq<Id>)
    requires CanResolve(s, h, endpoints) && Recorded(s.handlers, s.stream, s.log)
    ensures var t := ResolveEffect(s, h, endpoints);
            Recorded(t.handlers, t.stream, t.log) && HandlerCovered(t, t.handlers[h])
  {
    hide LeftAlone, Covered, Focused, BoundFor;
    var t := ResolveEffect(s, h, endpoints);
    LateIsBound(s, h, endpoints);
    forall m | m in t.log.resolved ensures Focused(t.stream, t.log, m) {
      ResolveFocused(s, h, endpoints, m);
    }
    assert HandlerRecorded(s.handlers[h], s.log);
    forall k | k in t.handlers ensures HandlerRecorded(t.handlers[k], t.log) {
      assert k != h ==> HandlerRecorded(s.handlers[k], s.log);
    }
  }

  lemma ResolveSafe(s: State, h: Id, endpoints: seq<Id>)
    requires Safe(s) && EventsKnown(s) && CanResolve(s, h, endpoints)
    ensures Safe(ResolveEffect(s, h, endpoints))
  {
    hide ResolveEffect, IsResolution, EventsKnown;
    hide Safe, AckedCovered, HandlersCovered, RetriesPublished, QueuedHaveMessages, HandlerCovered, Recorded, NoNewDebt, LogKept;
    SafeParts(s);
    ResolveShape(s, h, endpoints);
    ResolveKept(s, h, endpoints);
    ResolveDebt(s, h, endpoints);
    ResolveRecorded(s, h, endpoints);
    HandlerStepSafe(s, ResolveEffect(s, h, endpoints), h);
  }

  /** Rows may be added, and an attempt in progress may get its outcome. */
  lemma RowPut(s: State, d: Id, row: Delivery)
    requires RequeueLocks(s.requeues, s.db.deliveries)
    requires RetriesPublished(s.requeues, s.db.deliveries, s.stream) && QueuedHaveMessages(s.db.deliveries, s.stream)
    requires (d in s.db.deliveries ==> s.db.deliveries[d].status == Delivering) && row.status != Queued
    ensures RetriesPublished(s.requeues, s.db.deliveries[d := row], s.stream)
    ensures QueuedHaveMessages(s.db.deliveries[d := row], s.stream)
    ensures RowsKeptOrPurged(s, WithDeliveries(s, s.db.deliveries[d := row]))
  {
    forall t, x | t in s.requeues && x in s.requeues[t].published ensures x != d {
      assert RequeueTxnOk(s.requeues[t], s.db.deliveries);
    }
  }

  /** What the next endpoint's turn leaves as it was, and the one row it may add. */
  lemma DeliverShape(c: Config, s: State, h: Id)
    requires CanDeliverNext(s, h)
    ensures var t := DeliverNextEffect(c, s, h);
            && h in t.handlers && t.handlers == s.handlers[h := t.handlers[h]]
            && t.stream == s.stream && t.requeues == s.requeues && t.log.resolved == s.log.resolved
            && t.log.purged == s.log.purged && s.nextId <= t.nextId
            && (|| t.db.deliveries == s.db.deliveries
                || (&& s.nextId in t.db.deliveries && t.db.deliveries[s.nextId].status != Queued
                    && t.db.deliveries == s.db.deliveries[s.nextId := t.db.deliveries[s.nextId]]))
  {
  }

  lemma DeliverNextSafe(c: Config, s: State, h: Id)
    requires Safe(s) && EventsKnown(s) && IdsBounded(s) && RequeueLocks(s.requeues, s.db.deliveries) && CanDeliverNext(s, h)
    requires s.handlers[h].message < s.nextId
    ensures Safe(DeliverNextEffect(c, s, h))
  {
    hide DeliverNextEffect, Safe, AckedCovered, HandlersCovered, RetriesPublished, QueuedHaveMessages, HandlerCovered, Recorded;
    hide RequeueLocks, EventsKnown;
    var t, d := DeliverNextEffect(c, s, h), s.nextId;
    SafeParts(s);
    DeliverShape(c, s, h);
    if d in t.db.deliveries {
      RowPut(s, d, t.db.deliveries[d]);
    }
    DeliverRecorded(c, s, h);
    DeliverCovered(c, s, h);
    DeliverKept(c, s, h);
    NoDebtIfSame(s, t);
    HandlerStepSafe(s, t, h);
  }

  /** The handler in question moves through its list. */
  lemma DeliverRecorded(c: Config, s: State, h: Id)
    requires CanDeliverNext(s, h) && Recorded(s.handlers, s.stream, s.log)
    ensures var t := DeliverNextEffect(c, s, h);
            Recorded(t.handlers, t.stream, t.log)
  {
    var t := DeliverNextEffect(c, s, h);
    DeliverShape(c, s, h);
    DeliverPlan(c, s, h);
    SkipIsBound(c, s, h);
    hide DeliverNextEffect, Recorded;
    PlanRecorded(s, t, h);
  }

  /** A handler's list stays as it is or loses its first entry. */
  ghost predicate MovesOn(x: Handler, y: Handler) {
    && y.message == x.message && y.resolved == x.resolved && !y.phase.Starting?
    && (Remaining(y) == Remaining(x) || (Remaining(x) != [] && Remaining(y) == Remaining(x)[1..]))
  }

  lemma DeliverPlan(c: Config, s: State, h: Id)
    requires CanDeliverNext(s, h)
    ensures MovesOn(s.handlers[h], DeliverNextEffect(c, s, h).handlers[h])
  {
    hide LeftAlone;
    assert s.handlers[h].phase.todo == [s.handlers[h].phase.todo[0]] + s.handlers[h].phase.todo[1..];
  }

  lemma PlanRecorded(s: State, t: State, h: Id)
    requires Recorded(s.handlers, s.stream, s.log) && h in s.handlers && h in t.handlers
    requires t.handlers == s.handlers[h := t.handlers[h]] && t.stream == s.stream && t.log.resolved == s.log.resolved
    requires MovesOn(s.handlers[h], t.handlers[h])
    requires forall m, p | (m, p) in t.log.missed :: (m, p) in s.log.missed || BoundFor(s.stream, s.log, m, p)
    ensures Recorded(t.handlers, t.stream, t.log)
  {
    assert HandlerRecorded(s.handlers[h], s.log);
    assert HandlerRecorded(t.handlers[h], t.log);
    forall k | k in t.handlers ensures HandlerRecorded(t.handlers[k], t.log) {
      assert k != h ==> HandlerRecorded(s.handlers[k], s.log);
    }
    forall m | m in t.log.resolved ensures Focused(t.stream, t.log, m) {
      assert Focused(s.stream, s.log, m);
    }
  }

  /** Only an endpoint on the handler's list can be passed over. */
  lemma SkipIsBound(c: Config, s: State, h: Id)
    requires CanDeliverNext(s, h) && Recorded(s.handlers, s.stream, s.log)
    ensures forall m, p | (m, p) in DeliverNextEffect(c, s, h).log.missed :: (m, p) in s.log.missed || BoundFor(s.stream, s.log, m, p)
  {
    hide Covered;
    assert HandlerRecorded(s.handlers[h], s.log);
    assert s.handlers[h].phase.todo[0] in Remaining(s.handlers[h]);
  }

  lemma SkipCovered(c: Config, s: State, h: Id)
    requires CanDeliverNext(s, h) && EventsKnown(s) && IdsBounded(s)
    requires var e, p := EventOf(s, s.handlers[h].message), s.handlers[h].phase.todo[0];
             e !in s.db.events || p !in s.db.endpoints
    ensures var x := s.handlers[h];
            Covered(DeliverNextEffect(c, s, h), EventOf(s, x.message), x.phase.todo[0], x.message)
  {
    var t, m, p := DeliverNextEffect(c, s, h), s.handlers[h].message, s.handlers[h].phase.todo[0];
    if Covered(s, EventOf(s, m), p, m) {
      DeliverKept(c, s, h);
      CoverKept(s, t, EventOf(s, m), p, m);
    } else {
      assert (m, p) in t.log.missed;
      assert MissCovers(t.stream, t.log, m, EventOf(s, m), p, m);
    }
  }

  /** The endpoint whose turn it was is in hand, on record as missed, or has a scheduled retry. */
  lemma TurnCovered(c: Config, s: State, h: Id)
    requires CanDeliverNext(s, h) && s.handlers[h].message < s.nextId && EventsKnown(s) && IdsBounded(s)
    ensures var t, x := DeliverNextEffect(c, s, h), s.handlers[h];
            x.phase.todo[0] in Remaining(t.handlers[h]) || Covered(t, EventOf(s, x.message), x.phase.todo[0], x.message)
  {
    var t, x := DeliverNextEffect(c, s, h), s.handlers[h];
    var e, p := EventOf(s, x.message), x.phase.todo[0];
    if e !in s.db.events || p !in s.db.endpoints {
      SkipCovered(c, s, h);
    } else if p !in Remaining(t.handlers[h]) {
      hide Exempt;
      assert RowCovers(t.db.deliveries, s.nextId, e, p, x.message);
    }
  }

  lemma DeliverCovered(c: Config, s: State, h: Id)
    requires CanDeliverNext(s, h) && HandlersCovered(s) && EventsKnown(s) && IdsBounded(s)
    requires s.handlers[h].message < s.nextId
    ensures HandlerCovered(DeliverNextEffect(c, s, h), DeliverNextEffect(c, s, h).handlers[h])
  {
    hide DeliverNextEffect, Covered, Kept;
    DeliverShape(c, s, h);
    var t := DeliverNextEffect(c, s, h);
    var x, y := s.handlers[h], t.handlers[h];
    assert HandlerCovered(s, x);
    DeliverKept(c, s, h);
    DeliverPlan(c, s, h);
    TurnCovered(c, s, h);
    forall q | q in y.resolved && q !in Remaining(y) ensures Covered(t, EventOf(s, x.message), q, x.message) {
      if q != x.phase.todo[0] {
        assert q !in Remaining(x);
        CoverKept(s, t, EventOf(s, x.message), q, x.message);
      }
    }
  }

  lemma DeliverKept(c: Config, s: State, h: Id)
    requires CanDeliverNext(s, h) && IdsBounded(s)
    ensures Kept(s, DeliverNextEffect(c, s, h))
  {
  }

  lemma RespondSafe(c: Config, s: State, h: Id, reply: Reply, draw: real)
    requires Safe(s) && EventsKnown(s) && CanRespond(s, h)
    ensures Safe(RespondEffect(c, s, h, reply, draw))
  {
    var t := RespondEffect(c, s, h, reply, draw);
    SafeParts(s);
    SamePlan(s, t, h);
    hide Safe, AckedCovered, HandlersCovered, RetriesPublished, QueuedHaveMessages, HandlerCovered, Recorded;
    NoDebtIfSame(s, t);
    HandlerStepSafe(s, t, h);
  }

  /** A handler that moves on without changing what it has yet to do. */
  lemma SamePlan(s: State, t: State, h: Id)
    requires HandlersCovered(s) && Recorded(s.handlers, s.stream, s.log) && h in s.handlers && h in t.handlers && EventsKnown(s)
    requires t.db == s.db && t.stream == s.stream && t.log == s.log && t.handlers == s.handlers[h := t.handlers[h]]
    requires t.handlers[h].message == s.handlers[h].message && t.handlers[h].resolved == s.handlers[h].resolved
    requires Remaining(t.handlers[h]) == Remaining(s.handlers[h]) && !t.handlers[h].phase.Starting?
    ensures HandlerCovered(t, t.handlers[h]) && Recorded(t.handlers, t.stream, t.log)
  {
    assert HandlerCovered(s, s.handlers[h]);
    HandlerKept(s, t, s.handlers[h]);
    PlanRecorded(s, t, h);
  }

  lemma SaveDeliverySafe(s: State, h: Id)
    requires Safe(s) && EventsKnown(s) && RequeueLocks(s.requeues, s.db.deliveries) && CanSaveDelivery(s, h)
    requires HandlersOk(s.handlers, s.stream, s.db.deliveries, s.nextId)
    ensures Safe(SaveDeliveryEffect(s, h))
  {
    var t, phase := SaveDeliveryEffect(s, h), s.handlers[h].phase;
    assert HandlerOk(s.handlers[h], s.stream, s.db.deliveries, s.nextId);
    SafeParts(s);
    RowPut(s, phase.delivery, phase.row);
    SaveRecorded(s, h);
    SaveCovered(s, h);
    hide Safe, AckedCovered, HandlersCovered, RetriesPublished, QueuedHaveMessages, HandlerCovered, Recorded, HandlersOk, RequeueLocks;
    NoDebtIfSame(s, t);
    HandlerStepSafe(s, t, h);
  }

  lemma SaveRecorded(s: State, h: Id)
    requires CanSaveDelivery(s, h) && Recorded(s.handlers, s.stream, s.log)
    ensures var t := SaveDeliveryEffect(s, h);
            Recorded(t.handlers, t.stream, t.log)
  {
    PlanRecorded(s, SaveDeliveryEffect(s, h), h);
  }

  /** The row just saved covers the endpoint it was for. */
  lemma SaveCovered(s: State, h: Id)
    requires CanSaveDelivery(s, h) && HandlersCovered(s) && EventsKnown(s)
    requires HandlerOk(s.handlers[h], s.stream, s.db.deliveries, s.nextId)
    ensures HandlerCovered(SaveDeliveryEffect(s, h), SaveDeliveryEffect(s, h).handlers[h])
  {
    var t := SaveDeliveryEffect(s, h);
    var x, y := s.handlers[h], t.handlers[h];
    var m, e, p := x.message, EventOf(s, x.message), x.phase.endpoint;
    assert HandlerCovered(s, x);
    assert Kept(s, t) by { hide HandlersCovered, HandlerCovered; }
    assert RowCovers(t.db.deliveries, x.phase.delivery, e, p, m);
    forall q | q in y.resolved && q !in Remaining(y) ensures Covered(t, e, q, m) {
      if q != p {
        assert q !in Remaining(x);
        CoverKept(s, t, e, q, m);
      }
    }
  }

  lemma SweepShape(c: Config, s: State)
    ensures var t := RetentionEffect(c, s);
            && t.stream == s.stream && t.handlers == s.handlers && t.requeues == s.requeues
            && t.log.resolved == s.log.resolved && t.log.missed == s.log.missed
  {
    hide Swept, EventsReferenced, PurgedRows;
  }

  lemma RetentionSafe(c: Config, s: State)
    requires Safe(s) && EventsKnown(s) && IdsBounded(s) && RequeueLocks(s.requeues, s.db.deliveries) && CanSweep(c, s)
    ensures Safe(RetentionEffect(c, s))
  {
    hide Safe, AckedCovered, HandlersCovered, RetriesPublished, QueuedHaveMessages, Kept, Recorded, PurgedApart, RetentionEffect;
    hide RequeueLocks, CanSweep, EventsKnown;
    var t := RetentionEffect(c, s);
    SafeParts(s);
    SweepShape(c, s);
    SweepRetries(c, s);
    SweepKept(c, s);
    SweepPurges(c, s);
    SamePairs(s.handlers, s.stream, s.log, t.log);
    NoDebtIfSame(s, t);
    CoverageKept(s, t);
    SafeFromParts(t);
  }

  /** The record of pairs does not speak of removed deliveries. */
  lemma SamePairs(handlers: map<Id, Handler>, stream: Stream, log: History, log': History)
    requires Recorded(handlers, stream, log) && log'.resolved == log.resolved && log'.missed == log.missed
    ensures Recorded(handlers, stream, log')
  {
    forall m | m in log'.resolved ensures Focused(stream, log', m) {
      assert Focused(stream, log, m);
    }
    forall h | h in handlers ensures HandlerRecorded(handlers[h], log') {
      assert HandlerRecorded(handlers[h], log);
    }
  }

  lemma SafeFromParts(t: State)
    requires AckedCovered(t) && HandlersCovered(t) && Recorded(t.handlers, t.stream, t.log) && PurgedApart(t)
    requires RetriesPublished(t.requeues, t.db.deliveries, t.stream) && QueuedHaveMessages(t.db.deliveries, t.stream)
    ensures Safe(t)
  {
  }

  lemma SweepKept(c: Config, s: State)
    requires PurgedApart(s)
    ensures Kept(s, RetentionEffect(c, s))
  {
  }

  lemma SweepPurges(c: Config, s: State)
    requires PurgedApart(s) && forall d | d in s.db.deliveries :: d < s.nextId
    ensures PurgedApart(RetentionEffect(c, s))
  {
  }

  lemma SweepRetries(c: Config, s: State)
    requires RetriesPublished(s.requeues, s.db.deliveries, s.stream) && QueuedHaveMessages(s.db.deliveries, s.stream)
    requires CanSweep(c, s)
    ensures var t := RetentionEffect(c, s);
            RetriesPublished(t.requeues, t.db.deliveries, t.stream) && QueuedHaveMessages(t.db.deliveries, t.stream)
  {
    forall t, d | t in s.requeues && d in s.requeues[t].published ensures d in RetentionEffect(c, s).db.deliveries {
      assert RetryLocked(s.requeues, d);
    }
  }

  // ---- All steps. ----

  predicate MovesWork(step: Step) {
    || step.PublishRow? || step.RequeueRow? || step.RequeueAbort? || step.RequeueCommit? || step.Consume? || step.Claim?
    || step.Resolve? || step.DeliverNext? || step.Respond? || step.SaveDelivery? || step.Acknowledge?
    || step.HandlerDies? || step.Retention?
  }

  lemma ApiRevivesNothing(c: Config, s: State, step: Step, t: State)
    requires ApiNext(c, s, step, t)
    ensures EventsNotRevived(s, t)
  {
  }

  lemma OthersMoveNothing(c: Config, s: State, step: Step, t: State)
    requires !MovesWork(step) && (PublisherNext(c, s, step, t) || SchedulerNext(c, s, step, t))
    ensures t.stream == s.stream && t.handlers == s.handlers && t.db.deliveries == s.db.deliveries && t.log == s.log
    ensures EventsNotRevived(s, t)
  {
  }

  lemma NothingMoves(c: Config, s: State, step: Step, t: State)
    requires Next(c, s, step, t) && !MovesWork(step)
    ensures t.stream == s.stream && t.handlers == s.handlers && t.db.deliveries == s.db.deliveries
    ensures t.log.missed == s.log.missed && t.log.purged == s.log.purged && t.log.resolved == s.log.resolved
    ensures EventsNotRevived(s, t)
  {
    assert !WorkerNext(c, s, step, t);
    hide ApiNext, PublisherNext, SchedulerNext, WorkerNext, EventsNotRevived;
    if ApiNext(c, s, step, t) {
      ApiFrames(c, s, step, t);
      ApiRevivesNothing(c, s, step, t);
    } else {
      OthersMoveNothing(c, s, step, t);
    }
  }

  lemma NewPassesEmpty(c: Config, s: State, step: Step, t: State)
    requires SchedulerNext(c, s, step, t) && !MovesWork(step) && RetriesPublished(s.requeues, s.db.deliveries, s.stream)
    ensures RetriesPublished(t.requeues, s.db.deliveries, s.stream)
  {
  }

  lemma PublishedRetriesStay(c: Config, s: State, step: Step, t: State)
    requires Next(c, s, step, t) && !MovesWork(step) && RetriesPublished(s.requeues, s.db.deliveries, s.stream)
    ensures RetriesPublished(t.requeues, s.db.deliveries, s.stream)
  {
    hide ApiNext, PublisherNext, SchedulerNext, WorkerNext, RetriesPublished;
    if ApiNext(c, s, step, t) {
      ApiFrames(c, s, step, t);
    } else if PublisherNext(c, s, step, t) {
      PublisherFrames(c, s, step, t);
    } else if SchedulerNext(c, s, step, t) {
      NewPassesEmpty(c, s, step, t);
    } else {
      WorkerFrames(c, s, step, t);
    }
  }

  lemma PassSafe(c: Config, s: State, step: Step, t: State)
    requires Sound(s) && EventsKnown(s) && Safe(s) && Next(c, s, step, t) && MovesWork(step) && !WorkerNext(c, s, step, t)
    ensures Safe(t)
  {
    hide Safe, HandlersOk, RequeueLocks, PublishLocks, Refs, IdsBounded, WellFormed, EventsKnown;
    hide PublishRowEffect, RequeueRowEffect, RequeueCommitEffect, RequeueAbortEffect, RetentionEffect;
    match step
    case PublishRow(x, o, result) => PublishRowSafe(s, x, o, result);
    case RequeueRow(x, d) => RequeueRowSafe(s, x, d);
    case RequeueCommit(x) => RequeueCommitSafe(s, x);
    case RequeueAbort(x, lost) => RequeueAbortSafe(s, x, lost);
    case Retention => RetentionSafe(c, s);
    case _ =>
  }

  lemma HandlingSafe(c: Config, s: State, step: Step, t: State)
    requires Sound(s) && EventsKnown(s) && Safe(s) && WorkerNext(c, s, step, t)
    ensures Safe(t)
  {
    hide Safe, HandlersOk, RequeueLocks, PublishLocks, Refs, IdsBounded, WellFormed, EventsKnown;
    hide ConsumeEffect, ClaimEffect, ResolveEffect, DeliverNextEffect, RespondEffect, SaveDeliveryEffect, AcknowledgeEffect;
    match step
    case Consume(m) => ConsumeSafe(s, m);
    case Claim(m) => ClaimSafe(c, s, m);
    case Resolve(h, endpoints) => ResolveSafe(s, h, endpoints);
    case DeliverNext(h) => MessageOld(s, h); DeliverNextSafe(c, s, h);
    case Respond(h, reply, draw) => RespondSafe(c, s, h, reply, draw);
    case SaveDelivery(h) => SaveDeliverySafe(s, h);
    case Acknowledge(h) => AcknowledgeSafe(s, h);
    case HandlerDies(h) => HandlerDiesSafe(s, h);
  }

  lemma MessageOld(s: State, h: Id)
    requires HandlersOk(s.handlers, s.stream, s.db.deliveries, s.nextId) && IdsBounded(s) && h in s.handlers
    ensures s.handlers[h].message < s.nextId
  {
    assert HandlerOk(s.handlers[h], s.stream, s.db.deliveries, s.nextId);
  }

  lemma SafeStep(c: Config, s: State, step: Step, t: State)
    requires Sound(s) && Scoped(s) && Safe(s) && Next(c, s, step, t)
    ensures Safe(t)
  {
    hide Next, Sound, Scoped, Safe, MovesWork, EventsKnown, RetriesPublished, EventsNotRevived, WorkerNext;
    KnownEventsOf(s);
    if WorkerNext(c, s, step, t) {
      HandlingSafe(c, s, step, t);
    } else if MovesWork(step) {
      PassSafe(c, s, step, t);
    } else {
      SafeParts(s);
      NothingMoves(c, s, step, t);
      CounterGrows(c, s, step, t);
      PublishedRetriesStay(c, s, step, t);
      QuietSafe(s, t);
    }
  }

  lemma KnownEventsOf(s: State)
    requires Sound(s) && Scoped(s)
    ensures EventsKnown(s)
  {
    KnownEvents(s);
  }

  lemma {:induction false} AlwaysSafe(c: Config, r: Run, i: nat)
    requires IsHistory(c, r) && i < |r.states|
    ensures Safe(r.states[i])
  {
    hide Safe, Scoped, Sound, Next;
    if i == 0 {
      SafeInit();
    } else {
      AlwaysSafe(c, r, i - 1);
      AlwaysSound(c, r, i - 1);
      AlwaysScoped(c, r, i - 1);
      SafeStep(c, r.states[i - 1], r.steps[i - 1], r.states[i]);
    }
  }

  /**
   * No accepted work is lost: in every state of every run, for every message ever published and every endpoint it is
   * bound for, the message is still unacknowledged, or the pair has a younger delivery that is delivered,
   * dead-lettered or waiting for its retry, or a younger unacknowledged message; unless the event is gone, retention
   * removed a delivery of the pair that is younger than the message, or the message or a younger one passed the endpoint
   * over (see MissedExactly). Earlier misses and removals excuse nothing.
   */
  lemma NoWorkLost(c: Config, r: Run, i: nat, m: Id, p: Id)
    requires IsHistory(c, r) && i < |r.states| && BoundFor(r.states[i].stream, r.states[i].log, m, p)
    ensures Unacked(r.states[i].stream, m) || Covered(r.states[i], EventOf(r.states[i], m), p, m)
  {
    hide Next, Covered, HandlersCovered, Recorded, RetriesPublished, QueuedHaveMessages;
    AlwaysSafe(c, r, i);
  }

  /** In particular a queued delivery, which stays queued for good, is always succeeded by something younger. */
  lemma QueuedIsSucceeded(c: Config, r: Run, i: nat, d: Id)
    requires IsHistory(c, r) && i < |r.states| && d in r.states[i].db.deliveries
    requires r.states[i].db.deliveries[d].status == Queued
    ensures Covered(r.states[i], r.states[i].db.deliveries[d].event, r.states[i].db.deliveries[d].endpoint, d)
  {
    hide Next, AckedCovered, HandlersCovered, Recorded, RetriesPublished;
    AlwaysSafe(c, r, i);
    var s := r.states[i];
    var row := s.db.deliveries[d];
    assert QueuedRetried(s.stream, d, row);
    var m :| RetriedBy(s.stream, d, row, m);
    NoWorkLost(c, r, i, m, row.endpoint);
    if Unacked(s.stream, m) {
      assert MessageCovers(s.stream, s.log, m, row.event, row.endpoint, d);
    } else {
      CoveredEarlier(s, row.event, row.endpoint, m, d);
    }
  }

  // ---- Exactly when a pair is passed over. ----

  /** The step leaves the pair of message and endpoint to no one. */
  ghost predicate PassedOver(s: State, step: Step, m: Id, p: Id) {
    && m in s.stream.entries && !Covered(s, EventOf(s, m), p, m)
    && match step
       case Acknowledge(h) =>
         h in s.handlers && s.handlers[h].message == m && BoundFor(s.stream, s.log, m, p) && p !in s.handlers[h].resolved
       case DeliverNext(h) =>
         && CanDeliverNext(s, h) && s.handlers[h].message == m
         && s.handlers[h].phase.todo[0] == p && p !in s.db.endpoints
       case Resolve(h, endpoints) =>
         && h in s.handlers && s.handlers[h].message == m && !Unacked(s.stream, m)
         && p in endpoints && !BoundFor(s.stream, s.log, m, p)
       case _ => false
  }

  lemma AckMisses(s: State, h: Id, m: Id, p: Id)
    requires CanAcknowledge(s, h)
    ensures (m, p) in AcknowledgeEffect(s, h).log.missed <==> (m, p) in s.log.missed || PassedOver(s, Acknowledge(h), m, p)
  {
    hide Covered;
    assert p in Targets(s.stream, s.log, s.handlers[h].message) <==> BoundFor(s.stream, s.log, s.handlers[h].message, p);
  }

  lemma DeliverMisses(c: Config, s: State, h: Id, m: Id, p: Id)
    requires CanDeliverNext(s, h)
    ensures (m, p) in DeliverNextEffect(c, s, h).log.missed <==> (m, p) in s.log.missed || PassedOver(s, DeliverNext(h), m, p)
  {
    if EventOf(s, s.handlers[h].message) !in s.db.events {
      assert Covered(s, EventOf(s, s.handlers[h].message), s.handlers[h].phase.todo[0], s.handlers[h].message);
    }
    hide Covered;
  }

  lemma ResolveMisses(s: State, h: Id, endpoints: seq<Id>, m: Id, p: Id)
    requires CanResolve(s, h, endpoints)
    ensures (m, p) in ResolveEffect(s, h, endpoints).log.missed <==>
            (m, p) in s.log.missed || PassedOver(s, Resolve(h, endpoints), m, p)
  {
    var x := s.handlers[h].message;
    assert EventOf(s, x) !in s.db.events ==> Covered(s, EventOf(s, x), p, x);
    hide Covered, IsResolution;
    assert p in Targets(s.stream, s.log, x) <==> BoundFor(s.stream, s.log, x, p);
  }

  lemma WorkerMisses(c: Config, s: State, step: Step, t: State, m: Id, p: Id)
    requires WorkerNext(c, s, step, t)
    ensures (m, p) in t.log.missed <==> (m, p) in s.log.missed || PassedOver(s, step, m, p)
  {
    if step.Acknowledge? || step.DeliverNext? || step.Resolve? {
      hide PassedOver, AcknowledgeEffect, DeliverNextEffect, ResolveEffect;
      match step
      case Acknowledge(h) => AckMisses(s, h, m, p);
      case DeliverNext(h) => DeliverMisses(c, s, h, m, p);
      case Resolve(h, endpoints) => ResolveMisses(s, h, endpoints, m, p);
    } else {
      hide Covered;
    }
  }

  lemma MissesStep(c: Config, s: State, step: Step, t: State, m: Id, p: Id)
    requires Next(c, s, step, t)
    ensures (m, p) in t.log.missed <==> (m, p) in s.log.missed || PassedOver(s, step, m, p)
  {
    if WorkerNext(c, s, step, t) {
      WorkerMisses(c, s, step, t, m, p);
    } else {
      OthersPassNothing(c, s, step, t, m, p);
      hide ApiNext, PublisherNext, SchedulerNext, WorkerNext, PassedOver;
      if ApiNext(c, s, step, t) { ApiFrames(c, s, step, t); }
      else if PublisherNext(c, s, step, t) { PublisherFrames(c, s, step, t); }
      else { SchedulerFrames(c, s, step, t); }
    }
  }

  lemma OthersPassNothing(c: Config, s: State, step: Step, t: State, m: Id, p: Id)
    requires ApiNext(c, s, step, t) || PublisherNext(c, s, step, t) || SchedulerNext(c, s, step, t)
    ensures !PassedOver(s, step, m, p)
  {
    hide Covered;
  }

  ghost predicate PassedOverBefore(r: Run, i: nat, m: Id, p: Id)
    requires i <= |r.steps| < |r.states|
  {
    exists j :: 0 <= j < i && PassedOver(r.states[j], r.steps[j], m, p)
  }

  /**
   * The record of misses is exact: in every state of every run, a pair of message and endpoint is on it if and only if an
   * earlier step left the pair to no one. Such a step is an acknowledgement by a handler that had not found the endpoint,
   * the turn of an endpoint that had been deleted, or a find after the acknowledgement; each time with nothing younger
   * than the message to take care of the pair.
   */
  lemma {:induction false} MissedExactly(c: Config, r: Run, i: nat, m: Id, p: Id)
    requires IsHistory(c, r) && i < |r.states|
    ensures (m, p) in r.states[i].log.missed <==> PassedOverBefore(r, i, m, p)
  {
    hide Next, PassedOver;
    if i > 0 {
      MissedExactly(c, r, i - 1, m, p);
      MissesStep(c, r.states[i - 1], r.steps[i - 1], r.states[i], m, p);
      if PassedOverBefore(r, i - 1, m, p) {
        var j :| 0 <= j < i - 1 && PassedOver(r.states[j], r.steps[j], m, p);
        assert PassedOverBefore(r, i, m, p);
      }
    }
  }

  /** The state after an acknowledgement, with the record as it was before. */
  function AckedOnly(s: State, h: Id): State
    requires h in s.handlers && s.handlers[h].message in s.stream.entries
  {
    AcknowledgeEffect(s, h).(log := s.log)
  }

  /**
   * The acknowledging step, exactly: whatever the message was bound for is left without cover if and only if the handler
   * that acknowledges had not found the endpoint and nothing younger covers the pair.
   */
  lemma AckLeavesUncovered(c: Config, r: Run, i: nat, h: Id, p: Id)
    requires IsHistory(c, r) && i < |r.states| && CanAcknowledge(r.states[i], h)
    requires BoundFor(r.states[i].stream, r.states[i].log, r.states[i].handlers[h].message, p)
    ensures var s, x := r.states[i], r.states[i].handlers[h];
            !Covered(AckedOnly(s, h), EventOf(s, x.message), p, x.message) <==>
            p !in x.resolved && !Covered(s, EventOf(s, x.message), p, x.message)
  {
    var s := r.states[i];
    AlwaysSafe(c, r, i);
    SafeParts(s);
    assert HandlerCovered(s, s.handlers[h]);
    hide Next, Safe, AckedCovered, HandlersCovered, Recorded, RetriesPublished, QueuedHaveMessages, Covered, AckedOnly;
    SameYounger(s, h, p);
  }

  lemma SameYounger(s: State, h: Id, p: Id)
    requires CanAcknowledge(s, h)
    ensures var m := s.handlers[h].message;
            Covered(AckedOnly(s, h), EventOf(s, m), p, m) <==> Covered(s, EventOf(s, m), p, m)
  {
    hide LeftAlone;
    var m, t := s.handlers[h].message, AckedOnly(s, h);
    var e := EventOf(s, m);
    if Covered(s, e, p, m) {
      if Exempt(s, e, p, m) { SameExempt(s, t, e, p, m); }
      else if d :| RowCovers(s.db.deliveries, d, e, p, m) { assert RowCovers(t.db.deliveries, d, e, p, m); }
      else {
        var x :| x in s.stream.entries && MessageCovers(s.stream, s.log, x, e, p, m);
        assert MessageCovers(t.stream, t.log, x, e, p, m);
      }
    }
    if Covered(t, e, p, m) {
      if Exempt(t, e, p, m) { SameExempt(t, s, e, p, m); }
      else if d :| RowCovers(t.db.deliveries, d, e, p, m) { assert RowCovers(s.db.deliveries, d, e, p, m); }
      else {
        var x :| x in t.stream.entries && MessageCovers(t.stream, t.log, x, e, p, m);
        assert MessageCovers(s.stream, s.log, x, e, p, m);
      }
    }
  }
}
