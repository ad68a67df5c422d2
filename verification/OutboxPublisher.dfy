/** The outbox publisher (apps/worker/eventmesh_worker/outbox_publisher.py). */
module OutboxPublisher {
  import opened Common
  import opened Tables
  import opened Pipeline
  import opened Integrity
  import opened Publication
  import opened Drain
  import opened World

  /** How the publish call for each row goes. */
  type Results = map<Id, XaddResult>

  /** A result of the locking query: pending rows nobody holds, each once, at most a batch of them. */
  ghost predicate IsBatch(c: Config, s: State, rows: seq<Id>) {
    && |rows| <= c.batchSize
    && Distinct(rows)
    && (forall o | o in rows :: o in s.db.outbox && s.db.outbox[o].status == Pending && !OutboxLocked(s.publishers, o))
  }

  /** The new values of the rows handled so far. */
  function Handled(outbox: map<Id, OutboxRow>, rows: seq<Id>, results: Results): map<Id, OutboxRow>
    requires forall o | o in rows :: o in outbox && o in results
  {
    map o | o in rows :: HandledRow(outbox[o], results[o])
  }

  /** A row whose event is still waiting to be queued when its message is published. */
  predicate Wakes(db: Database, results: Results, o: Id) {
    && o in db.outbox && o in results && results[o] == XaddOk
    && db.outbox[o].event in db.events && db.events[db.outbox[o].event].status == Received
  }

  function Woken(db: Database, rows: seq<Id>, results: Results): set<Id> {
    set o | o in rows && Wakes(db, results, o) :: db.outbox[o].event
  }

  /** The transaction after the first `n` rows. */
  ghost predicate TxnAt(txn: PublishTxn, db: Database, rows: seq<Id>, results: Results, n: nat)
    requires n <= |rows| && forall o | o in rows :: o in db.outbox && o in results
  {
    && txn.todo == Members(rows[n..])
    && txn.done == Handled(db.outbox, rows[..n], results)
    && txn.wake == Woken(db, rows[..n], results)
  }

  lemma TxnStart(db: Database, rows: seq<Id>, results: Results)
    requires forall o | o in rows :: o in db.outbox && o in results
    ensures TxnAt(PublishTxn(Members(rows), map[], {}), db, rows, results, 0)
  {
    assert rows[0..] == rows && rows[..0] == [];
  }

  lemma TxnNext(s: State, t: Id, rows: seq<Id>, results: Results, n: nat)
    requires n < |rows| && t in s.publishers && forall o | o in rows :: o in s.db.outbox && o in results
    requires Distinct(rows)
    requires TxnAt(s.publishers[t], s.db, rows, results, n)
    ensures rows[n] in s.publishers[t].todo
    ensures TxnAt(PublishRowEffect(s, t, rows[n], results[rows[n]]).publishers[t], s.db, rows, results, n + 1)
  {
    var o, txn := rows[n], s.publishers[t];
    assert rows[n..] == [o] + rows[n + 1..] && rows[..n + 1] == rows[..n] + [o];
    assert txn.todo - {o} == Members(rows[n + 1..]);
    assert txn.done[o := HandledRow(s.db.outbox[o], results[o])] == Handled(s.db.outbox, rows[..n + 1], results);
    WokenNext(s.db, rows[..n], results, o);
  }

  lemma WokenNext(db: Database, rows: seq<Id>, results: Results, o: Id)
    ensures Woken(db, rows + [o], results) ==
            if Wakes(db, results, o) then Woken(db, rows, results) + {db.outbox[o].event} else Woken(db, rows, results)
  {
  }

  /** The messages of the calls that reached the stream. */
  function Sent(outbox: map<Id, OutboxRow>, rows: seq<Id>, results: Results): map<Source, Payload>
    requires forall o | o in rows :: o in outbox && o in results
  {
    map o | o in rows && results[o] != XaddFailed :: FromOutbox(o) := outbox[o].payload
  }

  lemma SentNext(outbox: map<Id, OutboxRow>, rows: seq<Id>, results: Results, o: Id)
    requires (forall x | x in rows :: x in outbox && x in results) && o in outbox && o in results && o !in rows
    ensures FromOutbox(o) !in Sent(outbox, rows, results)
    ensures Sent(outbox, rows + [o], results) ==
            if results[o] == XaddFailed then Sent(outbox, rows, results)
            else Sent(outbox, rows, results)[FromOutbox(o) := outbox[o].payload]
  {
  }

  /** What the loop leaves alone. */
  ghost predicate OnlyTxn(s: State, a: State, t: Id) {
    && t in a.publishers && s.nextId <= a.nextId
    && a == s.(publishers := s.publishers[t := a.publishers[t]], stream := s.stream.(entries := a.stream.entries), nextId := a.nextId)
    && (forall m | m in a.stream.entries :: m < a.nextId)
  }

  lemma OnlyTxnNext(s: State, a: State, t: Id, o: Id, result: XaddResult)
    requires OnlyTxn(s, a, t) && o in a.db.outbox
    ensures OnlyTxn(s, PublishRowEffect(a, t, o, result), t)
  {
    var b := PublishRowEffect(a, t, o, result);
    assert b.publishers == s.publishers[t := b.publishers[t]];
  }

  ghost predicate Complete(s: State, rows: seq<Id>, results: Results) {
    && (forall o | o in rows :: o in s.db.outbox && o in results)
    && Distinct(rows)
  }

  /** How far the loop has come after `n` rows. */
  ghost predicate Progress(s: State, a: State, t: Id, rows: seq<Id>, results: Results, n: nat)
    requires n <= |rows| && Complete(s, rows, results)
  {
    && OnlyTxn(s, a, t)
    && TxnAt(a.publishers[t], s.db, rows, results, n)
    && Appended(s.stream.entries, a.stream.entries, Sent(s.db.outbox, rows[..n], results))
  }

  lemma ProgressStart(c: Config, s: State, rows: seq<Id>, results: Results)
    requires Complete(s, rows, results) && IdsBounded(s) && CanPublishOpen(c, s, Members(rows))
    ensures Next(c, s, PublishOpen(Members(rows)), PublishOpenEffect(s, Members(rows)))
    ensures Progress(s, PublishOpenEffect(s, Members(rows)), s.nextId, rows, results, 0)
  {
    hide TxnAt, Appended;
    TxnStart(s.db, rows, results);
    AppendedNothing(s.stream.entries);
    assert Sent(s.db.outbox, rows[..0], results) == map[];
  }

  lemma ProgressNext(c: Config, s: State, a: State, t: Id, rows: seq<Id>, results: Results, n: nat)
    requires n < |rows| && Complete(s, rows, results) && Progress(s, a, t, rows, results, n)
    ensures CanPublishRow(a, t, rows[n])
    ensures PublisherNext(c, a, PublishRow(t, rows[n], results[rows[n]]), PublishRowEffect(a, t, rows[n], results[rows[n]]))
    ensures Progress(s, PublishRowEffect(a, t, rows[n], results[rows[n]]), t, rows, results, n + 1)
  {
    var o := rows[n];
    assert a.db == s.db && a.nextId !in a.stream.entries;
    assert rows[..n + 1] == rows[..n] + [o];
    hide TxnAt, Appended, Sent;
    TxnNext(a, t, rows, results, n);
    OnlyTxnNext(s, a, t, o, results[o]);
    SentNext(s.db.outbox, rows[..n], results, o);
    if results[o] != XaddFailed {
      AppendedNext(s.stream.entries, a.stream.entries, Sent(s.db.outbox, rows[..n], results), a.nextId,
                   Message(FromOutbox(o), s.db.outbox[o].payload));
    }
  }

  /** The database after a batch: each row settled by its own call, and the events of published rows queued. */
  function AfterBatch(db: Database, rows: seq<Id>, results: Results): Database
    requires forall o | o in rows :: o in db.outbox && o in results
  {
    db.(outbox := db.outbox + Handled(db.outbox, rows, results),
        events := Marked(db.events, Woken(db, rows, results), InStream))
  }

  /** The state after a batch: the database as above, more messages, and nothing else. */
  ghost predicate Batched(s: State, a: State, rows: seq<Id>, results: Results)
    requires forall o | o in rows :: o in s.db.outbox && o in results
  {
    && s.nextId <= a.nextId
    && a == s.(db := AfterBatch(s.db, rows, results), stream := s.stream.(entries := a.stream.entries), nextId := a.nextId)
    && Appended(s.stream.entries, a.stream.entries, Sent(s.db.outbox, rows, results))
  }

  lemma ProgressEnd(c: Config, s: State, a: State, t: Id, rows: seq<Id>, results: Results)
    requires Complete(s, rows, results) && Progress(s, a, t, rows, results, |rows|) && t !in s.publishers
    ensures Next(c, a, PublishCommit(t), PublishCommitEffect(a, t))
    ensures CanPublishCommit(a, t) && Batched(s, PublishCommitEffect(a, t), rows, results)
  {
    hide Appended, Sent;
    assert rows[..|rows|] == rows && rows[|rows|..] == [];
    assert a.publishers - {t} == s.publishers;
  }

  lemma EmptyBatch(s: State, results: Results)
    ensures Batched(s, s, [], results)
  {
    assert Handled(s.db.outbox, [], results) == map[];
    assert Marked(s.db.events, {}, InStream) == s.db.events;
    assert AfterBatch(s.db, [], results) == s.db;
    assert Sent(s.db.outbox, [], results) == map[];
    AppendedNothing(s.stream.entries);
  }

  /** What becomes of a row: published, or one attempt more and given up with the tenth; nothing else about it changes. */
  ghost predicate Settles(row: OutboxRow, after: OutboxRow, result: XaddResult) {
    && after.event == row.event && after.payload == row.payload && after.createdAt == row.createdAt
    && (result == XaddOk ==> after.status == OutboxStatus.Published && after.attempts == row.attempts)
    && (result != XaddOk ==>
          && after.attempts == row.attempts + 1
          && (row.attempts + 1 >= 10 ==> after.status == OutboxStatus.Failed)
          && (row.attempts + 1 < 10 ==> after.status == OutboxStatus.Pending))
  }

  /** A row of the event was published by this batch. */
  ghost predicate PublishedFor(outbox: map<Id, OutboxRow>, rows: seq<Id>, results: Results, e: Id) {
    exists o :: o in rows && o in outbox && o in results && results[o] == XaddOk && outbox[o].event == e
  }

  /** What a batch does to the rows, and to the events that were still waiting to be queued. */
  ghost predicate RowsSettled(before: Database, after: Database, rows: seq<Id>, results: Results)
    requires forall o | o in rows :: o in before.outbox && o in results
  {
    && after.outbox.Keys == before.outbox.Keys && after.events.Keys == before.events.Keys
    && (forall o | o in rows :: Settles(before.outbox[o], after.outbox[o], results[o]))
    && (forall o | o in before.outbox && o !in rows :: after.outbox[o] == before.outbox[o])
    && (forall e | e in before.events ::
          after.events[e] == if before.events[e].status == Received && PublishedFor(before.outbox, rows, results, e)
                             then before.events[e].(status := InStream) else before.events[e])
    && after.deliveries == before.deliveries && after.keys == before.keys && after.endpoints == before.endpoints
  }

  lemma BatchSettles(db: Database, rows: seq<Id>, results: Results)
    requires forall o | o in rows :: o in db.outbox && o in results
    ensures RowsSettled(db, AfterBatch(db, rows, results), rows, results)
  {
    forall e | e in db.events ensures
      e in Woken(db, rows, results) <==> db.events[e].status == Received && PublishedFor(db.outbox, rows, results, e)
    {
    }
  }

  /** Each call that reached the stream has added exactly one message with its row's payload, and nothing else was added. */
  ghost predicate RowsSent(outbox: map<Id, OutboxRow>, before: map<Id, Message>, after: map<Id, Message>, rows: seq<Id>, results: Results)
    requires forall o | o in rows :: o in outbox && o in results
  {
    && (forall m | m in before :: m in after && after[m] == before[m])
    && (forall m | m in after && m !in before :: IsSentRow(outbox, after[m], rows, results))
    && (forall o | o in rows :: Gained(before, after, FromOutbox(o)) == if results[o] == XaddFailed then 0 else 1)
  }

  ghost predicate IsSentRow(outbox: map<Id, OutboxRow>, m: Message, rows: seq<Id>, results: Results) {
    && m.source.FromOutbox? && m.source.row in rows && m.source.row in outbox && m.source.row in results
    && m.payload == outbox[m.source.row].payload && results[m.source.row] != XaddFailed
  }

  lemma SentRows(outbox: map<Id, OutboxRow>, before: map<Id, Message>, after: map<Id, Message>, rows: seq<Id>, results: Results)
    requires forall o | o in rows :: o in outbox && o in results
    requires Appended(before, after, Sent(outbox, rows, results))
    ensures RowsSent(outbox, before, after, rows, results)
  {
    hide Gained;
  }

  lemma BatchedSettles(s: State, t: State, rows: seq<Id>, results: Results)
    requires (forall o | o in rows :: o in s.db.outbox && o in results) && Batched(s, t, rows, results)
    ensures RowsSettled(s.db, t.db, rows, results)
    ensures RowsSent(s.db.outbox, s.stream.entries, t.stream.entries, rows, results)
  {
    hide AfterBatch, RowsSettled, RowsSent, Appended, Sent;
    BatchSettles(s.db, rows, results);
    SentRows(s.db.outbox, s.stream.entries, t.stream.entries, rows, results);
  }

  class OutboxPublisher {
    const world: World

    constructor (world: World)
      ensures this.world == world
    {
      this.world := world;
    }

    /**
     * Publishes a batch. A row whose call went well is published; any other has one attempt more, and is given up with
     * the tenth; a call that failed may still have reached the stream. No other row, and nothing else, changes.
     */
    method PublishBatch(rows: seq<Id>, results: Results) returns (count: nat)
      requires world.Valid() && IsBatch(world.config, world.state, rows) && forall o | o in rows :: o in results
      modifies world
      ensures world.Valid() && old(world.run.steps) <= world.run.steps && count == |rows|
      ensures Batched(old(world.state), world.state, rows, results)
      ensures RowsSettled(old(world.state).db, world.state.db, rows, results)
      ensures RowsSent(old(world.state).db.outbox, old(world.state).stream.entries, world.state.stream.entries, rows, results)
      ensures Backlog(world.state.db.outbox) + |rows| <= Backlog(old(world.state).db.outbox)
    {
      hide ApiNext, PublisherNext, SchedulerNext, WorkerNext, Progress, Batched, Members, Backlog, RowsSettled, RowsSent;
      hide PublishRowEffect, PublishCommitEffect;
      count := |rows|;
      if rows == [] {
        EmptyBatch(world.state, results);
        BatchedSettles(world.state, world.state, rows, results);
        return;
      }
      ghost var s := world.state;
      var txn := world.state.nextId;
      ReadyToOpen(world.config, world.run, s, rows);
      ProgressStart(world.config, s, rows, results);
      world.Take(PublishOpen(Members(rows)), PublishOpenEffect(world.state, Members(rows)));
      for i := 0 to |rows|
        invariant world.Valid() && old(world.run.steps) <= world.run.steps
        invariant Progress(s, world.state, txn, rows, results, i)
      {
        ProgressNext(world.config, s, world.state, txn, rows, results, i);
        world.Take(PublishRow(txn, rows[i], results[rows[i]]), PublishRowEffect(world.state, txn, rows[i], results[rows[i]]));
      }
      ProgressEnd(world.config, s, world.state, txn, rows, results);
      BatchMeasure(world.config, world.run, s, world.state, txn, rows, results);
      world.Take(PublishCommit(txn), PublishCommitEffect(world.state, txn));
      BatchedSettles(s, world.state, rows, results);
    }

    /**
     * The publisher's loop, until a poll finds nothing: it ends whatever the publish calls do, with no row pending but
     * those that other publishers hold, after at most as many row visits as the pending rows had attempts left.
     */
    method PublishAll(outcome: (nat, Id) -> XaddResult) returns (visits: nat)
      requires world.Valid() && world.config.batchSize >= 1
      modifies world
      ensures world.Valid() && old(world.run.steps) <= world.run.steps
      ensures world.state.publishers == old(world.state).publishers
      ensures forall o | o in PendingRows(world.state.db.outbox) :: OutboxLocked(world.state.publishers, o)
      ensures old(world.state).publishers == map[] ==> NoPending(world.state.db.outbox)
      ensures visits <= Backlog(old(world.state).db.outbox)
      ensures visits <= MAX_PUBLISH_ATTEMPTS * |PendingRows(old(world.state).db.outbox)|
    {
      hide Backlog, PendingRows;
      BacklogBound(world.state.db.outbox);
      visits := 0;
      var rows := SelectBatch(world.config, world.state);
      while rows != []
        invariant world.Valid() && old(world.run.steps) <= world.run.steps
        invariant world.state.publishers == old(world.state).publishers
        invariant IsBatch(world.config, world.state, rows) && IsOldest(world.config, world.state, rows)
        invariant visits + Backlog(world.state.db.outbox) <= Backlog(old(world.state).db.outbox)
        decreases Backlog(world.state.db.outbox)
      {
        var results := map o | o in rows :: outcome(visits, o);
        var count := PublishBatch(rows, results);
        visits := visits + count;
        rows := SelectBatch(world.config, world.state);
      }
      NothingLeft(world.config, world.state);
    }
  }

  lemma NothingLeft(c: Config, s: State)
    requires c.batchSize >= 1 && IsOldest(c, s, [])
    ensures forall o | o in PendingRows(s.db.outbox) :: OutboxLocked(s.publishers, o)
    ensures s.publishers == map[] ==> NoPending(s.db.outbox)
  {
    forall o | o in PendingRows(s.db.outbox) ensures OutboxLocked(s.publishers, o) {
      assert o in Candidates(s) ==> o in [];
    }
    if s.publishers == map[] {
      forall o | o in s.db.outbox ensures s.db.outbox[o].status != Pending {
        assert o in PendingRows(s.db.outbox) ==> OutboxLocked(s.publishers, o);
      }
    }
  }

  // ---- The locking query. ----

  /** Pending rows that no transaction holds. */
  function Candidates(s: State): set<Id> {
    set o | o in s.db.outbox && s.db.outbox[o].status == Pending && !OutboxLocked(s.publishers, o)
  }

  ghost predicate Older(s: State, a: Id, b: Id)
    requires a in s.db.outbox && b in s.db.outbox
  {
    s.db.outbox[a].createdAt <= s.db.outbox[b].createdAt
  }

  /** Oldest first, nothing older left out, and nothing at all left out of a batch that is not full. */
  ghost predicate IsOldest(c: Config, s: State, rows: seq<Id>)
    requires forall o | o in rows :: o in s.db.outbox
  {
    && (forall i, j | 0 <= i < j < |rows| :: Older(s, rows[i], rows[j]))
    && (forall i, x | 0 <= i < |rows| && x in Candidates(s) && x !in rows :: Older(s, rows[i], x))
    && (|rows| < c.batchSize ==> forall x | x in Candidates(s) :: x in rows)
  }

  lemma {:induction false} SomeOldest(s: State, ids: set<Id>) returns (o: Id)
    requires ids != {} && forall x | x in ids :: x in s.db.outbox
    ensures o in ids && forall x | x in ids :: Older(s, o, x)
    decreases |ids|
  {
    o :| o in ids;
    var rest := ids - {o};
    if rest != {} {
      var first := SomeOldest(s, rest);
      if !Older(s, o, first) {
        o := first;
      }
      forall x | x in ids ensures Older(s, o, x) {
        assert x in rest ==> Older(s, first, x);
      }
    }
  }

  /** SELECT ... WHERE pending ORDER BY created_at LIMIT batch FOR UPDATE SKIP LOCKED. */
  method SelectBatch(c: Config, s: State) returns (rows: seq<Id>)
    ensures IsBatch(c, s, rows) && IsOldest(c, s, rows)
    ensures forall i, j | 0 <= i < j < |rows| :: s.db.outbox[rows[i]].createdAt <= s.db.outbox[rows[j]].createdAt
    ensures forall x, i | && x in s.db.outbox && s.db.outbox[x].status == Pending && !OutboxLocked(s.publishers, x) && x !in rows
                          && 0 <= i < |rows| :: s.db.outbox[rows[i]].createdAt <= s.db.outbox[x].createdAt
    ensures |rows| < c.batchSize ==>
              forall x | x in s.db.outbox && s.db.outbox[x].status == Pending && !OutboxLocked(s.publishers, x) :: x in rows
  {
    hide Picking, IsBatch, IsOldest, Candidates, OutboxLocked;
    rows := [];
    var left := Candidates(s);
    PickingStarts(c, s);
    while left != {} && |rows| < c.batchSize
      invariant Picking(c, s, rows, left) && |rows| <= c.batchSize
      decreases |left|
    {
      ThereIsAnOldest(c, s, rows, left);
      var o :| o in left && OldestOf(s, left, o);
      PickNext(c, s, rows, left, o);
      rows := rows + [o];
      left := left - {o};
    }
    PickingEnds(c, s, rows, left);
    OldestFirst(c, s, rows);
  }

  /** The rows picked so far and those left are the candidates, and none left is older than one picked. */
  ghost predicate Picking(c: Config, s: State, rows: seq<Id>, left: set<Id>) {
    && Distinct(rows) && left <= Candidates(s)
    && (forall x :: x in Candidates(s) <==> x in left || x in rows)
    && (forall x | x in left :: x !in rows)
    && (forall o | o in rows :: o in s.db.outbox)
    && (forall i, j | 0 <= i < j < |rows| :: Older(s, rows[i], rows[j]))
    && (forall i, x | 0 <= i < |rows| && x in left :: Older(s, rows[i], x))
  }

  lemma PickingStarts(c: Config, s: State)
    ensures Picking(c, s, [], Candidates(s))
  {
    hide OutboxLocked;
  }

  lemma ThereIsAnOldest(c: Config, s: State, rows: seq<Id>, left: set<Id>)
    requires Picking(c, s, rows, left) && left != {}
    ensures exists o :: o in left && OldestOf(s, left, o)
  {
    hide OutboxLocked;
    var o := SomeOldest(s, left);
    assert forall x | x in left && x in s.db.outbox :: Older(s, o, x);
    assert OldestOf(s, left, o);
  }

  predicate OldestOf(s: State, ids: set<Id>, o: Id) {
    o in s.db.outbox && forall x | x in ids && x in s.db.outbox :: s.db.outbox[o].createdAt <= s.db.outbox[x].createdAt
  }

  lemma PickNext(c: Config, s: State, rows: seq<Id>, left: set<Id>, o: Id)
    requires Picking(c, s, rows, left) && o in left && OldestOf(s, left, o)
    ensures Picking(c, s, rows + [o], left - {o})
  {
    hide OutboxLocked;
  }

  lemma PickingEnds(c: Config, s: State, rows: seq<Id>, left: set<Id>)
    requires Picking(c, s, rows, left) && |rows| <= c.batchSize && (left == {} || |rows| == c.batchSize)
    ensures IsBatch(c, s, rows) && IsOldest(c, s, rows)
  {
    hide OutboxLocked;
  }

  lemma OldestFirst(c: Config, s: State, rows: seq<Id>)
    requires IsBatch(c, s, rows) && IsOldest(c, s, rows)
    ensures forall i, j | 0 <= i < j < |rows| :: s.db.outbox[rows[i]].createdAt <= s.db.outbox[rows[j]].createdAt
    ensures forall x, i | && x in s.db.outbox && s.db.outbox[x].status == Pending && !OutboxLocked(s.publishers, x) && x !in rows
                          && 0 <= i < |rows| :: s.db.outbox[rows[i]].createdAt <= s.db.outbox[x].createdAt
    ensures |rows| < c.batchSize ==>
              forall x | x in s.db.outbox && s.db.outbox[x].status == Pending && !OutboxLocked(s.publishers, x) :: x in rows
  {
    hide OutboxLocked;
    forall i, j | 0 <= i < j < |rows| ensures s.db.outbox[rows[i]].createdAt <= s.db.outbox[rows[j]].createdAt {
      assert Older(s, rows[i], rows[j]);
    }
    forall x, i | && x in s.db.outbox && s.db.outbox[x].status == Pending && !OutboxLocked(s.publishers, x) && x !in rows
                  && 0 <= i < |rows|
      ensures s.db.outbox[rows[i]].createdAt <= s.db.outbox[x].createdAt
    {
      assert x in Candidates(s);
      assert Older(s, rows[i], x);
    }
  }

  /** Each row of the batch comes one attempt closer to being settled. */
  lemma BatchMeasure(c: Config, r: Run, s: State, a: State, t: Id, rows: seq<Id>, results: Results)
    requires IsHistory(c, r) && a == Last(r) && Complete(s, rows, results) && Progress(s, a, t, rows, results, |rows|)
    requires CanPublishCommit(a, t)
    ensures Backlog(PublishCommitEffect(a, t).db.outbox) + |rows| <= Backlog(s.db.outbox)
  {
    hide Next, Appended, Backlog, Sent, PublishLocks, Sound, Backed, RowsOk, PublishCommitEffect;
    AlwaysSound(c, r, |r.states| - 1);
    AlwaysBacked(c, r, |r.states| - 1);
    Drainable(a);
    BatchDrains(a, t);
    DoneCount(a.publishers[t], s.db, rows, results);
  }

  lemma Drainable(a: State)
    requires Sound(a) && Backed(a)
    ensures PublishLocks(a.publishers, a.db.outbox) && RowsOk(a.db.outbox)
  {
  }

  lemma DoneCount(txn: PublishTxn, db: Database, rows: seq<Id>, results: Results)
    requires forall o | o in rows :: o in db.outbox && o in results
    requires Distinct(rows)
    requires TxnAt(txn, db, rows, results, |rows|)
    ensures |txn.done| == |rows|
  {
    assert rows[..|rows|] == rows;
    assert txn.done.Keys == Members(rows);
    MembersCount(rows);
  }

  lemma ReadyToOpen(c: Config, r: Run, s: State, rows: seq<Id>)
    requires IsHistory(c, r) && s == Last(r) && IsBatch(c, s, rows) && rows != []
    ensures CanPublishOpen(c, s, Members(rows)) && IdsBounded(s) && s.nextId !in s.publishers
  {
    hide Next;
    AlwaysSound(c, r, |r.states| - 1);
    MembersCount(rows);
  }
}
