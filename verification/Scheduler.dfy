/** The scheduler's two loops (apps/scheduler/eventmesh_scheduler/main.py). */
module Scheduler {
  import opened Common
  import opened Tables
  import opened Pipeline
  import opened Integrity
  import opened Publication
  import opened Retention
  import opened World

  /** A result of the locking query: deliveries whose retry is due and which nobody holds, at most a hundred. */
  ghost predicate IsDueList(s: State, rows: seq<Id>) {
    && |rows| <= REQUEUE_LIMIT
    && Distinct(rows)
    && (forall d | d in rows :: d in s.db.deliveries && Due(s.db.deliveries[d], s.now) && !RetryLocked(s.requeues, d))
  }

  /** Whether and where a publish call of the pass fails, and whether Redis had appended its entry all the same. */
  datatype Failure = NoFailure | FailsAt(index: nat, lost: bool)

  ghost predicate HasEvent(db: Database, d: Id) {
    d in db.deliveries && db.deliveries[d].event in db.events
  }

  /** The retry of a delivery: to its own endpoint, under its event's tenant and type. */
  ghost function RetryOf(db: Database, d: Id): Message
    requires HasEvent(db, d)
  {
    RetryMessage(d, db.deliveries[d], db.events[db.deliveries[d].event])
  }

  ghost function Retries(db: Database, rows: seq<Id>): map<Source, Payload>
    requires forall d | d in rows :: HasEvent(db, d)
  {
    map d | d in rows :: FromRetry(d) := RetryOf(db, d).payload
  }

  lemma RetriesNext(db: Database, rows: seq<Id>, d: Id)
    requires (forall x | x in rows :: HasEvent(db, x)) && HasEvent(db, d) && d !in rows
    ensures FromRetry(d) !in Retries(db, rows)
    ensures Retries(db, rows + [d]) == Retries(db, rows)[FromRetry(d) := RetryOf(db, d).payload]
  {
    hide HasEvent, RetryOf;
  }

  lemma NoRetries(db: Database)
    ensures Retries(db, []) == map[]
  {
  }

  ghost predicate AllHaveEvents(s: State, rows: seq<Id>) {
    && (forall d | d in rows :: HasEvent(s.db, d))
    && Distinct(rows)
  }

  /** What the pass leaves alone until it commits. */
  ghost predicate OnlyPass(s: State, a: State, t: Id) {
    && t in a.requeues && s.nextId <= a.nextId
    && a == s.(requeues := s.requeues[t := a.requeues[t]], stream := s.stream.(entries := a.stream.entries), nextId := a.nextId)
    && (forall m | m in a.stream.entries :: m < a.nextId)
  }

  /** How far the pass has come after `n` rows. */
  ghost predicate PassProgress(s: State, a: State, t: Id, rows: seq<Id>, n: nat)
    requires n <= |rows| && AllHaveEvents(s, rows)
  {
    && OnlyPass(s, a, t)
    && a.requeues[t].todo == Members(rows[n..])
    && a.requeues[t].published.Keys == Members(rows[..n])
    && Appended(s.stream.entries, a.stream.entries, Retries(s.db, rows[..n]))
  }

  lemma PassStarts(c: Config, s: State, rows: seq<Id>)
    requires AllHaveEvents(s, rows) && IdsBounded(s) && CanRequeueOpen(s, Members(rows))
    ensures PassProgress(s, RequeueOpenEffect(s, Members(rows)), s.nextId, rows, 0)
    ensures Next(c, s, RequeueOpen(Members(rows)), RequeueOpenEffect(s, Members(rows)))
  {
    hide Appended, Retries, HasEvent;
    AppendedNothing(s.stream.entries);
    assert rows[0..] == rows && rows[..0] == [];
    NoRetries(s.db);
  }

  /** The next publish call, whether or not its reply arrives. */
  lemma CallAppends(s: State, a: State, t: Id, rows: seq<Id>, n: nat)
    requires n < |rows| && AllHaveEvents(s, rows) && PassProgress(s, a, t, rows, n)
    ensures rows[..n + 1] == rows[..n] + [rows[n]] && a.db == s.db && CanRequeueRow(a, t, rows[n])
    ensures HasEvent(s.db, rows[n])
    ensures Appended(s.stream.entries, a.stream.entries[a.nextId := RetryOf(s.db, rows[n])], Retries(s.db, rows[..n + 1]))
  {
    var d := rows[n];
    assert rows[..n + 1] == rows[..n] + [d] && rows[n..] == [d] + rows[n + 1..];
    assert HasEvent(s.db, d);
    hide Appended, Retries, RetryOf;
    RetriesNext(s.db, rows[..n], d);
    NamesRetry(s.db, d);
    AppendedNext(s.stream.entries, a.stream.entries, Retries(s.db, rows[..n]), a.nextId, RetryOf(s.db, d));
  }

  lemma NamesRetry(db: Database, d: Id)
    requires HasEvent(db, d)
    ensures RetryOf(db, d).source == FromRetry(d)
  {
  }

  lemma PassAdvances(c: Config, s: State, a: State, t: Id, rows: seq<Id>, n: nat)
    requires n < |rows| && AllHaveEvents(s, rows) && PassProgress(s, a, t, rows, n)
    ensures CanRequeueRow(a, t, rows[n]) && PassProgress(s, RequeueRowEffect(a, t, rows[n]), t, rows, n + 1)
    ensures Next(c, a, RequeueRow(t, rows[n]), RequeueRowEffect(a, t, rows[n]))
  {
    CallAppends(s, a, t, rows, n);
    RowMoves(s, a, t, rows, n);
    hide Appended, Retries, OnlyPass, Members, RequeueRowEffect;
    AppendedAt(s, a, t, rows, n);
  }

  /** The transaction moves on by one row. */
  lemma RowMoves(s: State, a: State, t: Id, rows: seq<Id>, n: nat)
    requires n < |rows| && AllHaveEvents(s, rows) && PassProgress(s, a, t, rows, n) && CanRequeueRow(a, t, rows[n])
    ensures var b := RequeueRowEffect(a, t, rows[n]);
            && OnlyPass(s, b, t)
            && b.requeues[t].todo == Members(rows[n + 1..])
            && b.requeues[t].published.Keys == Members(rows[..n + 1])
  {
    hide Appended, Retries;
    var d, b := rows[n], RequeueRowEffect(a, t, rows[n]);
    assert HasEvent(s.db, d);
    assert rows[..n + 1] == rows[..n] + [d] && rows[n..] == [d] + rows[n + 1..];
    assert b.requeues[t].todo == Members(rows[n + 1..]);
    assert b.requeues[t].published.Keys == Members(rows[..n + 1]);
    assert b.requeues == s.requeues[t := b.requeues[t]];
  }

  lemma AppendedAt(s: State, a: State, t: Id, rows: seq<Id>, n: nat)
    requires n < |rows| && CanRequeueRow(a, t, rows[n]) && a.db == s.db && HasEvent(s.db, rows[n])
    ensures RequeueRowEffect(a, t, rows[n]).stream.entries == a.stream.entries[a.nextId := RetryOf(s.db, rows[n])]
  {
  }

  /** Rows whose call reached the stream. */
  function Reached(rows: seq<Id>, failure: Failure): seq<Id> {
    match failure
    case NoFailure => rows
    case FailsAt(k, lost) => if k >= |rows| then rows else if lost then rows[..k + 1] else rows[..k]
  }

  predicate Commits(rows: seq<Id>, failure: Failure) {
    failure.NoFailure? || failure.index >= |rows|
  }

  /** The state after a pass: the rows queued if it committed and untouched if not, and their messages either way. */
  ghost predicate Passed(s: State, a: State, rows: seq<Id>, failure: Failure)
    requires AllHaveEvents(s, rows)
  {
    && s.nextId <= a.nextId
    && (forall d | d in Reached(rows, failure) :: d in rows)
    && a.db == (if Commits(rows, failure) then s.db.(deliveries := Requeued(s.db.deliveries, Members(rows))) else s.db)
    && a == s.(db := a.db, stream := s.stream.(entries := a.stream.entries), nextId := a.nextId)
    && Appended(s.stream.entries, a.stream.entries, Retries(s.db, Reached(rows, failure)))
  }

  lemma CommitPasses(c: Config, s: State, a: State, t: Id, rows: seq<Id>, failure: Failure)
    requires AllHaveEvents(s, rows) && PassProgress(s, a, t, rows, |rows|) && t !in s.requeues && Commits(rows, failure)
    ensures CanRequeueCommit(a, t) && Passed(s, RequeueCommitEffect(a, t), rows, failure)
    ensures Next(c, a, RequeueCommit(t), RequeueCommitEffect(a, t))
  {
    hide Appended, Retries;
    assert rows[..|rows|] == rows && rows[|rows|..] == [];
    assert a.requeues - {t} == s.requeues;
  }

  lemma AbortPasses(c: Config, s: State, a: State, t: Id, rows: seq<Id>, n: nat, lost: bool)
    requires AllHaveEvents(s, rows) && n < |rows| && PassProgress(s, a, t, rows, n) && t !in s.requeues
    ensures var l := if lost then Some(rows[n]) else None;
            && CanRequeueAbort(a, t, l) && Passed(s, RequeueAbortEffect(a, t, l), rows, FailsAt(n, lost))
            && Next(c, a, RequeueAbort(t, l), RequeueAbortEffect(a, t, l))
  {
    CallAppends(s, a, t, rows, n);
    hide Appended, Retries;
    assert a.requeues - {t} == s.requeues;
  }

  lemma ReadyToPass(c: Config, r: Run, s: State, rows: seq<Id>)
    requires IsHistory(c, r) && s == Last(r) && IsDueList(s, rows)
    ensures CanRequeueOpen(s, Members(rows)) && AllHaveEvents(s, rows) && IdsBounded(s) && s.nextId !in s.requeues
  {
    hide Next;
    AlwaysSound(c, r, |r.states| - 1);
    MembersCount(rows);
  }

  /** DELETE FROM a table WHERE a condition holds. */
  function DeleteWhere<K, V>(table: map<K, V>, condition: V -> bool): map<K, V> {
    map k | k in table && !condition(table[k]) :: table[k]
  }

  /** Two deletions from one table amount to one. */
  lemma DeleteTwice<K(!new), V(!new)>(table: map<K, V>, first: V -> bool, second: V -> bool, stays: V -> bool)
    requires forall v :: stays(v) <==> !first(v) && !second(v)
    ensures Keeps(table, DeleteWhere(DeleteWhere(table, first), second), stays)
  {
  }

  lemma KeepsUnique<K(!new), V(!new)>(before: map<K, V>, a: map<K, V>, b: map<K, V>, stays: V -> bool)
    requires Keeps(before, a, stays) && Keeps(before, b, stays)
    ensures a == b
  {
  }

  /** What is left is determined. */
  lemma ExactlyOne(c: Config, before: Database, a: Database, b: Database, now: Time)
    requires ExactlyExpired(c, before, a, now) && ExactlyExpired(c, before, b, now)
    ensures a == b
  {
    hide Keeps;
    KeepsUnique(before.events, a.events, b.events, (e: Event) => e.createdAt >= now - c.keepEvents);
    KeepsUnique(before.outbox, a.outbox, b.outbox, (o: OutboxRow) => o.status != Published || o.createdAt >= now - c.keepEvents);
    KeepsUnique(before.deliveries, a.deliveries, b.deliveries,
                (d: Delivery) => d.createdAt >= now - if d.status == Dlq then c.keepDlq else c.keepDeliveries);
    KeepsUnique(before.keys, a.keys, b.keys, (k: IdempotencyKey) => k.expiresAt >= now);
  }

  /** The five DELETE statements of the pass, one after the other. */
  method DeleteExpired(c: Config, before: Database, now: Time) returns (db: Database)
    ensures ExactlyExpired(c, before, db, now)
  {
    db := before.(keys := DeleteWhere(before.keys, (k: IdempotencyKey) => k.expiresAt < now));
    var settled := (d: Delivery) => d.status != Dlq && d.createdAt < now - c.keepDeliveries;
    db := db.(deliveries := DeleteWhere(db.deliveries, settled));
    var dead := (d: Delivery) => d.status == Dlq && d.createdAt < now - c.keepDlq;
    db := db.(deliveries := DeleteWhere(db.deliveries, dead));
    db := db.(outbox := DeleteWhere(db.outbox, (o: OutboxRow) => o.status == Published && o.createdAt < now - c.keepEvents));
    db := db.(events := DeleteWhere(db.events, (e: Event) => e.createdAt < now - c.keepEvents));
    DeleteTwice(before.deliveries, settled, dead,
                (d: Delivery) => d.createdAt >= now - if d.status == Dlq then c.keepDlq else c.keepDeliveries);
  }

  // ---- What a pass leaves behind, row by row. ----

  /** How many publish calls have reached the stream. */
  function CallsMade(rows: seq<Id>, failure: Failure): (n: nat)
    ensures n <= |rows|
  {
    if failure.NoFailure? || failure.index >= |rows| then |rows| else if failure.lost then failure.index + 1 else failure.index
  }

  /** The rows are queued and otherwise as they were, or nothing has changed if a call failed. */
  ghost predicate RowsQueued(before: Database, after: Database, rows: seq<Id>, committed: bool) {
    && after == before.(deliveries := after.deliveries) && after.deliveries.Keys == before.deliveries.Keys
    && forall d | d in before.deliveries ::
         after.deliveries[d] == if committed && d in rows then before.deliveries[d].(status := Queued) else before.deliveries[d]
  }

  ghost predicate IsRetryMessage(db: Database, m: Message, d: Id) {
    && d in db.deliveries && db.deliveries[d].event in db.events && m.source == FromRetry(d)
    && var row, event := db.deliveries[d], db.events[db.deliveries[d].event];
       m.payload == Payload(row.event, event.tenant, event.etype, Some(row.endpoint))
  }

  /** Each of these rows has exactly one new message, to its own endpoint and under its event's tenant and type. */
  ghost predicate RetriesSent(db: Database, before: map<Id, Message>, after: map<Id, Message>, rows: seq<Id>) {
    && (forall m | m in before :: m in after && after[m] == before[m])
    && (forall m | m in after && m !in before :: exists d :: d in rows && IsRetryMessage(db, after[m], d))
    && (forall d | d in rows :: Gained(before, after, FromRetry(d)) == 1)
  }

  lemma AppendedRetries(db: Database, before: map<Id, Message>, after: map<Id, Message>, rows: seq<Id>)
    requires (forall d | d in rows :: HasEvent(db, d)) && Appended(before, after, Retries(db, rows))
    ensures RetriesSent(db, before, after, rows)
  {
    hide Gained;
    forall m | m in after && m !in before ensures exists d :: d in rows && IsRetryMessage(db, after[m], d) {
      var d :| d in rows && after[m].source == FromRetry(d);
      assert HasEvent(db, d);
      assert IsRetryMessage(db, after[m], d);
    }
  }

  lemma PassedRows(s: State, a: State, rows: seq<Id>, failure: Failure)
    requires AllHaveEvents(s, rows) && Passed(s, a, rows, failure)
    ensures RowsQueued(s.db, a.db, rows, Commits(rows, failure))
    ensures RetriesSent(s.db, s.stream.entries, a.stream.entries, rows[..CallsMade(rows, failure)])
  {
    assert Reached(rows, failure) == rows[..CallsMade(rows, failure)];
    assert forall d | d in rows :: HasEvent(s.db, d);
    hide Appended, RetriesSent, Retries, HasEvent;
    AppendedRetries(s.db, s.stream.entries, a.stream.entries, rows[..CallsMade(rows, failure)]);
  }

  /** SELECT ... WHERE retrying AND next_retry_at <= now LIMIT 100 FOR UPDATE SKIP LOCKED. */
  method SelectDue(s: State) returns (rows: seq<Id>)
    ensures IsDueList(s, rows) && |rows| <= 100
    ensures forall d | d in rows :: && d in s.db.deliveries && s.db.deliveries[d].status == Retrying
                                    && s.db.deliveries[d].nextRetryAt.Some? && s.db.deliveries[d].nextRetryAt.value <= s.now
    ensures |rows| < 100 ==>
              forall d | && d in s.db.deliveries && s.db.deliveries[d].status == Retrying && !RetryLocked(s.requeues, d)
                         && s.db.deliveries[d].nextRetryAt.Some? && s.db.deliveries[d].nextRetryAt.value <= s.now :: d in rows
  {
    rows := [];
    var left := set d | d in s.db.deliveries && Due(s.db.deliveries[d], s.now) && !RetryLocked(s.requeues, d);
    while left != {} && |rows| < REQUEUE_LIMIT
      invariant IsDueList(s, rows) && forall d | d in left :: d !in rows
      invariant forall d | d in left :: d in s.db.deliveries && Due(s.db.deliveries[d], s.now) && !RetryLocked(s.requeues, d)
      invariant forall d | d in s.db.deliveries && Due(s.db.deliveries[d], s.now) && !RetryLocked(s.requeues, d) ::
                  d in left || d in rows
      decreases |left|
    {
      var d :| d in left;
      rows := rows + [d];
      left := left - {d};
    }
  }

  class Scheduler {
    const world: World

    constructor (world: World)
      ensures this.world == world
    {
      this.world := world;
    }

    /**
     * One pass of the retry loop. If every publish call succeeds all rows become queued, each with exactly one message
     * to its own endpoint; if one fails no row changes, but the messages sent until then stay.
     */
    method RequeueRetries(rows: seq<Id>, failure: Failure) returns (committed: bool)
      requires world.Valid() && IsDueList(world.state, rows)
      modifies world
      ensures world.Valid() && old(world.run.steps) <= world.run.steps && committed == Commits(rows, failure)
      ensures AllHaveEvents(old(world.state), rows) && Passed(old(world.state), world.state, rows, failure)
      ensures committed <==> failure.NoFailure? || failure.index >= |rows|
      ensures RowsQueued(old(world.state).db, world.state.db, rows, committed)
      ensures RetriesSent(old(world.state).db, old(world.state).stream.entries, world.state.stream.entries,
                          rows[..CallsMade(rows, failure)])
    {
      hide Next, PassProgress, Passed, RowsQueued, RetriesSent, Members, RequeueRowEffect, RequeueCommitEffect, RequeueAbortEffect;
      ghost var s := world.state;
      var txn := world.state.nextId;
      ReadyToPass(world.config, world.run, s, rows);
      PassStarts(world.config, s, rows);
      world.Take(RequeueOpen(Members(rows)), RequeueOpenEffect(world.state, Members(rows)));
      for i := 0 to |rows|
        invariant world.Valid() && old(world.run.steps) <= world.run.steps
        invariant PassProgress(s, world.state, txn, rows, i) && (failure.FailsAt? ==> i <= failure.index)
      {
        if failure.FailsAt? && failure.index == i {
          AbortPasses(world.config, s, world.state, txn, rows, i, failure.lost);
          var lost := if failure.lost then Some(rows[i]) else None;
          world.Take(RequeueAbort(txn, lost), RequeueAbortEffect(world.state, txn, lost));
          PassedRows(s, world.state, rows, failure);
          return false;
        }
        PassAdvances(world.config, s, world.state, txn, rows, i);
        world.Take(RequeueRow(txn, rows[i]), RequeueRowEffect(world.state, txn, rows[i]));
      }
      CommitPasses(world.config, s, world.state, txn, rows, failure);
      world.Take(RequeueCommit(txn), RequeueCommitEffect(world.state, txn));
      PassedRows(s, world.state, rows, failure);
      committed := true;
    }

    /**
     * One pass of the retention loop: five DELETE statements in a transaction, rolled back as a whole when the last one
     * would leave a row without its event.
     */
    method CleanUp() returns (committed: bool)
      requires world.Valid() && CanSweep(world.config, world.state)
      modifies world
      ensures world.Valid() && world.run.steps == old(world.run.steps) + [Step.Retention]
      ensures committed <==> !Blocked(world.config, old(world.state))
      ensures committed ==> ExactlyExpired(world.config, old(world.state).db, world.state.db, old(world.state).now)
      ensures !committed ==> world.state == old(world.state)
    {
      hide ApiNext, PublisherNext, WorkerNext, ExactlyExpired, Blocked, Swept, EventsReferenced, CanSweep;
      var s, c := world.state, world.config;
      var db := DeleteExpired(c, s.db, s.now);
      SweepIsExact(c, s.db, s.now);
      ExactlyOne(c, s.db, db, Swept(c, s.db, s.now), s.now);
      AlwaysRefs(c, world.run);
      BlockedIffDangling(c, s);
      committed := EventsReferenced(db);
      world.Take(Step.Retention,
                 if committed then s.(db := db, log := s.log.(purged := s.log.purged + PurgedRows(c, s.db, s.now))) else s);
    }
  }

  lemma AlwaysRefs(c: Config, r: Run)
    requires IsHistory(c, r)
    ensures Refs(Last(r).db)
  {
    hide Next;
    AlwaysSound(c, r, |r.states| - 1);
  }
}
