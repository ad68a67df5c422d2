/**
 * What the attempts of an outbox row count: in every run they number exactly the committed batches in which the publish
 * call for the row failed, so a row that was given up has had ten of them.
 */
module Failures {
  import opened Common
  import opened Tables
  import opened Pipeline
  import opened Frames
  import opened Integrity
  import opened Publication

  /** The batches of the first `n` steps in which the publish call for the row failed, committed or not. */
  function FailedBatches(r: Run, o: Id, n: nat): set<Id>
    requires n <= |r.steps|
  {
    if n == 0 then {} else FailedBatches(r, o, n - 1) + FailedBatch(r.steps[n - 1], o)
  }

  function FailedBatch(step: Step, o: Id): set<Id> {
    if step.PublishRow? && step.row == o && step.result != XaddOk then {step.txn} else {}
  }

  /** How many of those were committed. */
  function FailedVisits(r: Run, o: Id, n: nat): nat
    requires n <= |r.steps|
  {
    if n == 0 then 0
    else FailedVisits(r, o, n - 1) + Bit(r.steps[n - 1].PublishCommit? && r.steps[n - 1].txn in FailedBatches(r, o, n - 1))
  }

  /** The attempts of a row are its visits, and the open batches among `failed` are those that hold a failed value of it. */
  ghost predicate Tallied(s: State, o: Id, failed: set<Id>, visits: nat) {
    && (o in s.db.outbox ==> s.db.outbox[o].attempts == visits)
    && (forall x | x in s.publishers :: x in failed <==> HoldsFailed(s.publishers[x], o))
    && (forall x | x in failed :: x < s.nextId)
    && (failed != {} || visits != 0 ==> o < s.nextId)
  }

  predicate HoldsFailed(txn: PublishTxn, o: Id) {
    o in txn.done && txn.done[o].status != Published
  }

  lemma RowTallied(s: State, x: Id, p: Id, result: XaddResult, o: Id, failed: set<Id>, visits: nat)
    requires Tallied(s, o, failed, visits) && CanPublishRow(s, x, p) && IdsBounded(s)
    requires PublishTxnOk(s.publishers[x], s.db.outbox)
    ensures Tallied(PublishRowEffect(s, x, p, result), o, failed + FailedBatch(PublishRow(x, p, result), o), visits)
  {
    var t := PublishRowEffect(s, x, p, result);
    assert forall y | y in t.publishers && y != x :: t.publishers[y] == s.publishers[y];
  }

  /** The values of an open batch: as published, or with one attempt more. */
  lemma HeldValue(s: State, x: Id, o: Id)
    requires PublishLocks(s.publishers, s.db.outbox) && x in s.publishers && o in s.publishers[x].done
    ensures o in s.db.outbox
    ensures s.publishers[x].done[o].attempts == s.db.outbox[o].attempts + Bit(s.publishers[x].done[o].status != Published)
  {
    assert PublishTxnOk(s.publishers[x], s.db.outbox);
  }

  lemma CommitTallied(s: State, x: Id, o: Id, failed: set<Id>, visits: nat)
    requires Tallied(s, o, failed, visits) && CanPublishCommit(s, x) && PublishLocks(s.publishers, s.db.outbox) && IdsBounded(s)
    ensures Tallied(PublishCommitEffect(s, x), o, failed, visits + Bit(x in failed))
  {
    if o in s.publishers[x].done {
      HeldValue(s, x, o);
    }
    assert x in failed <==> HoldsFailed(s.publishers[x], o);
    hide PublishLocks, IdsBounded;
  }

  lemma PublisherTallied(c: Config, s: State, step: Step, t: State, o: Id, failed: set<Id>, visits: nat)
    requires PublisherNext(c, s, step, t) && Tallied(s, o, failed, visits) && IdsBounded(s)
    requires PublishLocks(s.publishers, s.db.outbox)
    ensures Tallied(t, o, failed + FailedBatch(step, o), visits + Bit(step.PublishCommit? && step.txn in failed))
  {
    hide PublishLocks, PublishRowEffect, PublishCommitEffect, IdsBounded, PublishTxnOk;
    match step
    case PublishRow(x, p, result) =>
      assert PublishTxnOk(s.publishers[x], s.db.outbox) by { TxnOkOf(s.publishers, s.db.outbox, x); }
      RowTallied(s, x, p, result, o, failed, visits);
    case PublishCommit(x) => CommitTallied(s, x, o, failed, visits);
    case PublishOpen(rows) => OpenTallied(s, rows, o, failed, visits);
    case PublishAbort(x) =>
  }

  lemma TxnOkOf(publishers: map<Id, PublishTxn>, outbox: map<Id, OutboxRow>, x: Id)
    requires PublishLocks(publishers, outbox) && x in publishers
    ensures PublishTxnOk(publishers[x], outbox)
  {
  }

  lemma OpenTallied(s: State, rows: set<Id>, o: Id, failed: set<Id>, visits: nat)
    requires Tallied(s, o, failed, visits)
    ensures Tallied(PublishOpenEffect(s, rows), o, failed, visits)
  {
  }

  /** Outside the publisher rows come untried, and go or stay as they are. */
  lemma ApiRowsTallied(c: Config, s: State, step: Step, t: State, o: Id)
    requires ApiNext(c, s, step, t) && o in t.db.outbox
    ensures (o in s.db.outbox && t.db.outbox[o].attempts == s.db.outbox[o].attempts) || (o >= s.nextId && t.db.outbox[o].attempts == 0)
  {
  }

  lemma SchedulerRowsTallied(c: Config, s: State, step: Step, t: State, o: Id)
    requires SchedulerNext(c, s, step, t) && o in t.db.outbox
    ensures o in s.db.outbox && t.db.outbox[o] == s.db.outbox[o] && t.publishers == s.publishers
  {
  }

  lemma QuietTallied(s: State, t: State, o: Id, failed: set<Id>, visits: nat)
    requires Tallied(s, o, failed, visits) && t.publishers == s.publishers && s.nextId <= t.nextId
    requires o in t.db.outbox ==>
               || (o in s.db.outbox && t.db.outbox[o].attempts == s.db.outbox[o].attempts)
               || (o >= s.nextId && t.db.outbox[o].attempts == 0)
    ensures Tallied(t, o, failed, visits)
  {
  }

  lemma OthersTallied(c: Config, s: State, step: Step, t: State, o: Id, failed: set<Id>, visits: nat)
    requires Next(c, s, step, t) && !PublisherNext(c, s, step, t) && Tallied(s, o, failed, visits)
    ensures Tallied(t, o, failed, visits) && FailedBatch(step, o) == {} && !step.PublishCommit?
  {
    hide ApiNext, PublisherNext, SchedulerNext, WorkerNext, Tallied;
    NotPublishing(c, s, step, t);
    if ApiNext(c, s, step, t) {
      ApiFrames(c, s, step, t);
      if o in t.db.outbox {
        ApiRowsTallied(c, s, step, t, o);
      }
    } else if SchedulerNext(c, s, step, t) {
      SchedulerFrames(c, s, step, t);
      if o in t.db.outbox {
        SchedulerRowsTallied(c, s, step, t, o);
      }
    } else {
      WorkerFrames(c, s, step, t);
    }
    QuietTallied(s, t, o, failed, visits);
  }

  lemma NotPublishing(c: Config, s: State, step: Step, t: State)
    requires Next(c, s, step, t) && !PublisherNext(c, s, step, t)
    ensures !step.PublishRow? && !step.PublishCommit?
  {
  }

  lemma {:induction false} AlwaysTallied(c: Config, r: Run, n: nat, o: Id)
    requires IsHistory(c, r) && n < |r.states|
    ensures Tallied(r.states[n], o, FailedBatches(r, o, n), FailedVisits(r, o, n))
  {
    hide Next, Tallied, Sound, FailedBatch;
    if n == 0 {
      assert Tallied(Init, o, {}, 0) by { NothingTallied(o); }
    } else {
      var s, step, t := r.states[n - 1], r.steps[n - 1], r.states[n];
      AlwaysTallied(c, r, n - 1, o);
      AlwaysSound(c, r, n - 1);
      PublisherLocks(s);
      var failed, visits := FailedBatches(r, o, n - 1), FailedVisits(r, o, n - 1);
      if PublisherNext(c, s, step, t) {
        PublisherTallied(c, s, step, t, o, failed, visits);
      } else {
        OthersTallied(c, s, step, t, o, failed, visits);
        assert failed + FailedBatch(step, o) == failed;
      }
    }
  }

  lemma NothingTallied(o: Id)
    ensures Tallied(Init, o, {}, 0)
  {
  }

  lemma PublisherLocks(s: State)
    requires Sound(s)
    ensures IdsBounded(s) && PublishLocks(s.publishers, s.db.outbox)
  {
  }

  /**
   * In every state of every run the attempts of an outbox row are exactly the committed batches that failed to publish it,
   * and it was given up if and only if there were ten of them.
   */
  lemma AttemptsAreFailures(c: Config, r: Run, n: nat, o: Id)
    requires IsHistory(c, r) && n < |r.states| && o in r.states[n].db.outbox
    ensures r.states[n].db.outbox[o].attempts == FailedVisits(r, o, n) <= 10
    ensures r.states[n].db.outbox[o].status == OutboxStatus.Failed <==> FailedVisits(r, o, n) == 10
  {
    hide Next;
    AlwaysTallied(c, r, n, o);
    AlwaysBacked(c, r, n);
    assert AttemptsOk(r.states[n].db.outbox[o]);
  }
}
