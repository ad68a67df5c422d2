/** The outbox drains: a measure that every committed batch lowers by at least the number of rows it handled. */
module Drain {
  import opened Common
  import opened Tables
  import opened Broker
  import opened Pipeline
  import opened Integrity
  import opened Publication

  /** The publish attempts a row has left before it is published or given up. */
  function Left(row: OutboxRow): nat {
    if row.status == Pending && row.attempts < MAX_PUBLISH_ATTEMPTS then MAX_PUBLISH_ATTEMPTS - row.attempts else 0
  }

  /** The sum over all rows. */
  ghost function Backlog(outbox: map<Id, OutboxRow>): nat
    decreases |outbox|
  {
    if outbox == map[] then 0
    else
      var o :| o in outbox;
      Left(outbox[o]) + Backlog(outbox - {o})
  }

  lemma {:induction false} BacklogWithout(outbox: map<Id, OutboxRow>, o: Id)
    requires o in outbox
    ensures Backlog(outbox) == Left(outbox[o]) + Backlog(outbox - {o})
    decreases |outbox|
  {
    var x :| x in outbox && Backlog(outbox) == Left(outbox[x]) + Backlog(outbox - {x});
    if x != o {
      BacklogWithout(outbox - {x}, o);
      BacklogWithout(outbox - {o}, x);
      assert outbox - {x} - {o} == outbox - {o} - {x};
    }
  }

  lemma BacklogUpdate(outbox: map<Id, OutboxRow>, o: Id, row: OutboxRow)
    ensures Backlog(outbox[o := row]) + (if o in outbox then Left(outbox[o]) else 0) == Backlog(outbox) + Left(row)
  {
    BacklogWithout(outbox[o := row], o);
    if o in outbox {
      BacklogWithout(outbox, o);
      assert outbox[o := row] - {o} == outbox - {o};
    } else {
      assert outbox[o := row] - {o} == outbox;
    }
  }

  /** Handling a set of rows, each using up at least one attempt. */
  lemma {:induction false} BacklogMerge(outbox: map<Id, OutboxRow>, done: map<Id, OutboxRow>)
    requires forall o | o in done :: o in outbox && Left(done[o]) + 1 <= Left(outbox[o])
    ensures Backlog(outbox + done) + |done| <= Backlog(outbox)
    decreases |done|
  {
    if done == map[] {
      assert outbox + done == outbox;
    } else {
      var o :| o in done;
      var others := done - {o};
      BacklogMerge(outbox, others);
      BacklogUpdate(outbox + others, o, done[o]);
      assert (outbox + others)[o := done[o]] == outbox + done;
      assert |others| == |done| - 1;
    }
  }

  /** Rows with no attempts left may be removed. */
  lemma {:induction false} BacklogSweep(outbox: map<Id, OutboxRow>, kept: map<Id, OutboxRow>)
    requires forall o | o in kept :: o in outbox && outbox[o] == kept[o]
    requires forall o | o in outbox && o !in kept :: Left(outbox[o]) == 0
    ensures Backlog(outbox) == Backlog(kept)
    decreases |outbox|
  {
    if gone :| gone in outbox && gone !in kept {
      BacklogWithout(outbox, gone);
      BacklogSweep(outbox - {gone}, kept);
    } else {
      assert outbox == kept;
    }
  }

  // ---- Steps. ----

  function Visited(s: State, step: Step): nat {
    if step.PublishCommit? && step.txn in s.publishers then |s.publishers[step.txn].done| else 0
  }

  function Inserts(step: Step): nat {
    if step.IngestCommit? || step.ReplayEvent? || step.ReplayDlq? then 1 else 0
  }

  /** A committed batch lowers the backlog by at least the number of its rows. */
  lemma BatchDrains(s: State, t: Id)
    requires PublishLocks(s.publishers, s.db.outbox) && RowsOk(s.db.outbox) && CanPublishCommit(s, t)
    ensures Backlog(PublishCommitEffect(s, t).db.outbox) + |s.publishers[t].done| <= Backlog(s.db.outbox)
  {
    assert PublishTxnOk(s.publishers[t], s.db.outbox);
    forall o | o in s.publishers[t].done ensures Left(s.publishers[t].done[o]) + 1 <= Left(s.db.outbox[o]) {
      assert AttemptsOk(s.db.outbox[o]);
    }
    BacklogMerge(s.db.outbox, s.publishers[t].done);
  }

  lemma InsertFills(outbox: map<Id, OutboxRow>, o: Id, row: OutboxRow)
    ensures Backlog(outbox[o := row]) <= Backlog(outbox) + MAX_PUBLISH_ATTEMPTS
  {
    BacklogUpdate(outbox, o, row);
  }

  lemma IngestFills(c: Config, s: State, r: Id)
    requires r in s.requests
    ensures Backlog(IngestCommitEffect(c, s, r).db.outbox) <= Backlog(s.db.outbox) + MAX_PUBLISH_ATTEMPTS
  {
    hide Backlog;
    var t, o := IngestCommitEffect(c, s, r), s.nextId + 1;
    if t.nextId != s.nextId {
      InsertFills(s.db.outbox, o, t.db.outbox[o]);
    }
  }

  lemma ReplayEventFills(s: State, tenant: Id, e: Id)
    requires CanReplayEvent(s, tenant, e)
    ensures Backlog(ReplayEventEffect(s, tenant, e).db.outbox) <= Backlog(s.db.outbox) + MAX_PUBLISH_ATTEMPTS
  {
    hide Backlog;
    InsertFills(s.db.outbox, s.nextId, ReplayEventEffect(s, tenant, e).db.outbox[s.nextId]);
  }

  lemma ReplayDlqFills(s: State, tenant: Id, d: Id)
    requires CanReplayDlq(s, tenant, d)
    ensures Backlog(ReplayDlqEffect(s, tenant, d).db.outbox) <= Backlog(s.db.outbox) + MAX_PUBLISH_ATTEMPTS
  {
    hide Backlog;
    InsertFills(s.db.outbox, s.nextId, ReplayDlqEffect(s, tenant, d).db.outbox[s.nextId]);
  }

  lemma SweepKeepsBacklog(c: Config, s: State)
    ensures Backlog(RetentionEffect(c, s).db.outbox) == Backlog(s.db.outbox)
  {
    hide Backlog;
    BacklogSweep(s.db.outbox, RetentionEffect(c, s).db.outbox);
  }

  lemma ApiDrains(c: Config, s: State, step: Step, t: State)
    requires Sound(s) && RowsOk(s.db.outbox) && ApiNext(c, s, step, t)
    ensures Backlog(t.db.outbox) + Visited(s, step) <= Backlog(s.db.outbox) + MAX_PUBLISH_ATTEMPTS * Inserts(step)
  {
    hide Backlog, HandlersOk, RequeueLocks, PublishLocks, Refs, IdsBounded, WellFormed, RowsOk, IngestCommitEffect;
    hide ReplayEventEffect, ReplayDlqEffect;
    match step
    case IngestCommit(r) => IngestFills(c, s, r);
    case ReplayEvent(tenant, e) => ReplayEventFills(s, tenant, e);
    case ReplayDlq(tenant, d) => ReplayDlqFills(s, tenant, d);
    case _ =>
  }

  lemma PublisherDrains(c: Config, s: State, step: Step, t: State)
    requires Sound(s) && RowsOk(s.db.outbox) && PublisherNext(c, s, step, t)
    ensures Backlog(t.db.outbox) + Visited(s, step) <= Backlog(s.db.outbox) + MAX_PUBLISH_ATTEMPTS * Inserts(step)
  {
    hide Backlog, HandlersOk, RequeueLocks, PublishLocks, Refs, IdsBounded, WellFormed, RowsOk;
    hide PublishCommitEffect;
    match step
    case PublishCommit(x) => BatchDrains(s, x);
    case _ =>
  }

  lemma SchedulerDrains(c: Config, s: State, step: Step, t: State)
    requires Sound(s) && RowsOk(s.db.outbox) && SchedulerNext(c, s, step, t)
    ensures Backlog(t.db.outbox) + Visited(s, step) <= Backlog(s.db.outbox) + MAX_PUBLISH_ATTEMPTS * Inserts(step)
  {
    hide Backlog, HandlersOk, RequeueLocks, PublishLocks, Refs, IdsBounded, WellFormed, RowsOk, RetentionEffect;
    match step
    case Retention => SweepKeepsBacklog(c, s);
    case _ =>
  }

  lemma WorkerDrains(c: Config, s: State, step: Step, t: State)
    requires Sound(s) && RowsOk(s.db.outbox) && WorkerNext(c, s, step, t)
    ensures Backlog(t.db.outbox) + Visited(s, step) <= Backlog(s.db.outbox) + MAX_PUBLISH_ATTEMPTS * Inserts(step)
  {
    hide Backlog, HandlersOk, RequeueLocks, PublishLocks, Refs, IdsBounded, WellFormed, RowsOk;
  }

  lemma DrainStep(c: Config, s: State, step: Step, t: State)
    requires Sound(s) && RowsOk(s.db.outbox) && Next(c, s, step, t)
    ensures Backlog(t.db.outbox) + Visited(s, step) <= Backlog(s.db.outbox) + MAX_PUBLISH_ATTEMPTS * Inserts(step)
  {
    hide ApiNext, PublisherNext, SchedulerNext, WorkerNext, Backlog, HandlersOk, RequeueLocks, PublishLocks, Refs;
    hide IdsBounded, WellFormed, RowsOk;
    if ApiNext(c, s, step, t) {
      ApiDrains(c, s, step, t);
    } else if PublisherNext(c, s, step, t) {
      PublisherDrains(c, s, step, t);
    } else if SchedulerNext(c, s, step, t) {
      SchedulerDrains(c, s, step, t);
    } else {
      WorkerDrains(c, s, step, t);
    }
  }

  // ---- Runs. ----

  /** How many rows the committed batches of the first `n` steps handled, counting a row once for each batch. */
  function Visits(r: Run, n: nat): nat
    requires n <= |r.steps| < |r.states|
  {
    if n == 0 then 0 else Visits(r, n - 1) + Visited(r.states[n - 1], r.steps[n - 1])
  }

  /** How many outbox rows the first `n` steps added, at most. */
  function Insertions(r: Run, n: nat): nat
    requires n <= |r.steps|
  {
    if n == 0 then 0 else Insertions(r, n - 1) + Inserts(r.steps[n - 1])
  }

  /**
   * Between any two points of a run the committed batches visit no more rows than the backlog at the first point plus
   * ten for every row added since; what is left over is the backlog at the second.
   */
  lemma {:induction false} BatchesAreBounded(c: Config, r: Run, from: nat, to: nat)
    requires IsHistory(c, r) && from <= to < |r.states|
    ensures Backlog(r.states[to].db.outbox) + Visits(r, to)
         <= Backlog(r.states[from].db.outbox) + Visits(r, from)
            + MAX_PUBLISH_ATTEMPTS * (Insertions(r, to) - Insertions(r, from))
  {
    hide Next, Backlog, Sound, Visited, Inserts;
    if from < to {
      BatchesAreBounded(c, r, from, to - 1);
      AlwaysSound(c, r, to - 1);
      RowsOkAlways(c, r, to - 1);
      DrainStep(c, r.states[to - 1], r.steps[to - 1], r.states[to]);
    }
  }

  lemma RowsOkAlways(c: Config, r: Run, i: nat)
    requires IsHistory(c, r) && i < |r.states|
    ensures RowsOk(r.states[i].db.outbox)
  {
    hide Next, RowsOk;
    AlwaysBacked(c, r, i);
  }

  ghost predicate NoPending(outbox: map<Id, OutboxRow>) {
    forall o | o in outbox :: outbox[o].status != Pending
  }

  lemma {:induction false} EmptyBacklog(outbox: map<Id, OutboxRow>)
    requires RowsOk(outbox)
    ensures Backlog(outbox) == 0 <==> NoPending(outbox)
    decreases |outbox|
  {
    if o :| o in outbox {
      BacklogWithout(outbox, o);
      EmptyBacklog(outbox - {o});
      assert AttemptsOk(outbox[o]);
      assert forall x | x in outbox :: x == o || x in outbox - {o};
    }
  }

  function PendingRows(outbox: map<Id, OutboxRow>): set<Id> {
    set o | o in outbox && outbox[o].status == Pending
  }

  lemma PendingWithout(outbox: map<Id, OutboxRow>, o: Id)
    requires o in outbox
    ensures |PendingRows(outbox)| == |PendingRows(outbox - {o})| + if outbox[o].status == Pending then 1 else 0
  {
    if outbox[o].status == Pending {
      assert PendingRows(outbox) == PendingRows(outbox - {o}) + {o};
    } else {
      assert PendingRows(outbox) == PendingRows(outbox - {o});
    }
  }

  /** Only pending rows count, each with at most ten attempts. */
  lemma {:induction false} BacklogBound(outbox: map<Id, OutboxRow>)
    ensures Backlog(outbox) <= MAX_PUBLISH_ATTEMPTS * |PendingRows(outbox)|
    decreases |outbox|
  {
    if o :| o in outbox {
      hide Backlog, PendingRows;
      BacklogWithout(outbox, o);
      BacklogBound(outbox - {o});
      PendingWithout(outbox, o);
    } else {
      assert outbox == map[];
    }
  }

  /**
   * A fixed backlog takes a bounded effort: while nothing is added, all batches committed since a point, by any number of
   * publishers, visit at most the remaining attempts of the rows pending at that point, ten for each of them; and once
   * they have visited as many, no row is pending any more.
   */
  lemma FixedBacklogBounded(c: Config, r: Run, from: nat, to: nat)
    requires IsHistory(c, r) && from <= to < |r.states| && Insertions(r, to) == Insertions(r, from)
    ensures var backlog := Backlog(r.states[from].db.outbox);
            && Visits(r, to) - Visits(r, from) <= backlog <= MAX_PUBLISH_ATTEMPTS * |PendingRows(r.states[from].db.outbox)|
            && (Visits(r, to) - Visits(r, from) == backlog ==> NoPending(r.states[to].db.outbox))
  {
    hide Next, Backlog, PendingRows;
    BatchesAreBounded(c, r, from, to);
    BacklogBound(r.states[from].db.outbox);
    RowsOkAlways(c, r, to);
    EmptyBacklog(r.states[to].db.outbox);
  }
}
