/**
 * The retention pass (cleanup_loop, apps/scheduler/eventmesh_scheduler/main.py): one transaction of five DELETE
 * statements, which the foreign keys onto events let through as a whole or not at all.
 */
module Retention {
  import opened Common
  import opened Tables
  import opened Pipeline
  import opened Frames
  import opened Integrity
  import opened Tenancy

  /** The event is older than the retention window. */
  ghost predicate Aged(c: Config, s: State, e: Id) {
    e in s.db.events && s.db.events[e].createdAt < s.now - c.keepEvents
  }

  ghost predicate OutboxExpired(c: Config, s: State, row: OutboxRow) {
    row.status == Published && row.createdAt < s.now - c.keepEvents
  }

  /** Some row that is to stay refers to an event that is to go. */
  ghost predicate Blocked(c: Config, s: State) {
    || (exists o :: o in s.db.outbox && !OutboxExpired(c, s, s.db.outbox[o]) && Aged(c, s, s.db.outbox[o].event))
    || (exists d :: d in s.db.deliveries && !Expired(c, s.db.deliveries[d], s.now) && Aged(c, s, s.db.deliveries[d].event))
    || (exists k :: k in s.db.keys && s.db.keys[k].expiresAt >= s.now && Aged(c, s, s.db.keys[k].event))
  }

  lemma BlockedIffDangling(c: Config, s: State)
    requires Refs(s.db)
    ensures EventsReferenced(Swept(c, s.db, s.now)) <==> !Blocked(c, s)
  {
    var swept := Swept(c, s.db, s.now);
    if EventsReferenced(swept) {
      forall o | o in s.db.outbox && !OutboxExpired(c, s, s.db.outbox[o]) ensures !Aged(c, s, s.db.outbox[o].event) {
        assert o in swept.outbox;
      }
      forall d | d in s.db.deliveries && !Expired(c, s.db.deliveries[d], s.now) ensures !Aged(c, s, s.db.deliveries[d].event) {
        assert d in swept.deliveries;
      }
      forall k | k in s.db.keys && s.db.keys[k].expiresAt >= s.now ensures !Aged(c, s, s.db.keys[k].event) {
        assert k in swept.keys;
      }
    }
  }

  /** `after` is what is left of `before`: the rows that meet the condition, unchanged. */
  ghost predicate Keeps<K(!new), V(!new)>(before: map<K, V>, after: map<K, V>, stays: V -> bool) {
    && (forall k :: k in after <==> k in before && stays(before[k]))
    && (forall k | k in after :: after[k] == before[k])
  }

  /** Precisely the expired rows of the four tables are gone. */
  ghost predicate ExactlyExpired(c: Config, before: Database, after: Database, now: Time) {
    && Keeps(before.events, after.events, (e: Event) => e.createdAt >= now - c.keepEvents)
    && Keeps(before.outbox, after.outbox, (o: OutboxRow) => o.status != Published || o.createdAt >= now - c.keepEvents)
    && Keeps(before.deliveries, after.deliveries,
             (d: Delivery) => d.createdAt >= now - if d.status == Dlq then c.keepDlq else c.keepDeliveries)
    && Keeps(before.keys, after.keys, (k: IdempotencyKey) => k.expiresAt >= now)
    && after.endpoints == before.endpoints
  }

  lemma SweepIsExact(c: Config, db: Database, now: Time)
    ensures ExactlyExpired(c, db, Swept(c, db, now), now)
  {
  }

  /**
   * A pass is exact or void, in every run: if no row that is to stay refers to an event that is to go, precisely the
   * expired rows of all four tables disappear and only the record of them grows; otherwise nothing changes at all.
   */
  lemma PassIsExactOrVoid(c: Config, r: Run, n: nat)
    requires IsHistory(c, r) && n < |r.steps| && r.steps[n] == Step.Retention
    ensures var s, t := r.states[n], r.states[n + 1];
            if Blocked(c, s) then t == s
            else ExactlyExpired(c, s.db, t.db, s.now) && t == s.(db := t.db, log := t.log)
  {
    var s := r.states[n];
    AlwaysSound(c, r, n);
    assert Next(c, s, r.steps[n], r.states[n + 1]);
    assert Refs(s.db);
    hide Next, Sound, Blocked, ExactlyExpired, Refs, Swept, EventsReferenced;
    BlockedIffDangling(c, s);
    SweepIsExact(c, s.db, s.now);
  }

  /** Every child row has its event, in every state of every run. */
  lemma ReferencesAlwaysValid(c: Config, r: Run, i: nat)
    requires IsHistory(c, r) && i < |r.states|
    ensures EventsReferenced(r.states[i].db)
    ensures forall d | d in r.states[i].db.deliveries :: r.states[i].db.deliveries[d].endpoint in r.states[i].db.endpoints
  {
    hide Next, IdsBounded, PublishLocks, RequeueLocks, HandlersOk;
    AlwaysSound(c, r, i);
  }

  /**
   * A dead letter that is to stay longer than its event does the same while it lasts: with the default windows from day 30
   * after the event to day 90 after the delivery, no pass removes anything.
   */
  lemma DeadLetterBlocksRetention(c: Config, r: Run, n: nat, d: Id)
    requires IsHistory(c, r) && n < |r.steps| && r.steps[n] == Step.Retention && d in r.states[n].db.deliveries
    requires var s, row := r.states[n], r.states[n].db.deliveries[d];
             row.status == Dlq && row.createdAt >= s.now - c.keepDlq && Aged(c, s, row.event)
    ensures r.states[n + 1] == r.states[n]
  {
    hide Next;
    assert Blocked(c, r.states[n]);
    PassIsExactOrVoid(c, r, n);
  }

  /** An endpoint can be deleted exactly when that leaves no row without its parent. */
  lemma DeletionIsExact(c: Config, s: State, p: Id)
    requires Refs(s.db)
    ensures (exists t :: Next(c, s, DeleteEndpoint(p), t))
       <==> p in s.db.endpoints && Refs(s.db.(endpoints := s.db.endpoints - {p}))
  {
    var after := s.db.(endpoints := s.db.endpoints - {p});
    if CanDeleteEndpoint(s, p) {
      assert ApiNext(c, s, DeleteEndpoint(p), s.(db := after));
      assert Next(c, s, DeleteEndpoint(p), s.(db := after));
    }
  }

  /** A pass can run as soon as no requeue transaction and no uncommitted outcome is open. */
  lemma PassCanRun(c: Config, s: State)
    requires s.requeues == map[] && forall h | h in s.handlers :: !s.handlers[h].phase.Saving?
    ensures Next(c, s, Step.Retention, RetentionEffect(c, s))
  {
    assert SchedulerNext(c, s, Step.Retention, RetentionEffect(c, s));
  }

  // ---- A row that was given up. ----

  ghost predicate GivenUp(s: State, o: Id, row: OutboxRow) {
    o in s.db.outbox && s.db.outbox[o] == row && row.status == OutboxStatus.Failed
  }

  lemma PublisherKeepsFailed(c: Config, s: State, step: Step, t: State, o: Id, row: OutboxRow)
    requires PublisherNext(c, s, step, t) && PublishLocks(s.publishers, s.db.outbox) && GivenUp(s, o, row)
    ensures GivenUp(t, o, row)
  {
    hide PublishLocks;
    if step.PublishCommit? && o in s.publishers[step.txn].done {
      LockedPending(s.publishers, s.db.outbox, step.txn, o);
    }
  }

  lemma ApiKeepsFailed(c: Config, s: State, step: Step, t: State, o: Id, row: OutboxRow)
    requires ApiNext(c, s, step, t) && o < s.nextId && GivenUp(s, o, row)
    ensures GivenUp(t, o, row) && s.now <= t.now
  {
  }

  lemma SchedulerKeepsFailed(c: Config, s: State, step: Step, t: State, o: Id, row: OutboxRow)
    requires SchedulerNext(c, s, step, t) && GivenUp(s, o, row)
    ensures GivenUp(t, o, row)
  {
  }

  lemma FailedStep(c: Config, s: State, step: Step, t: State, o: Id, row: OutboxRow)
    requires Next(c, s, step, t) && Sound(s) && GivenUp(s, o, row)
    ensures GivenUp(t, o, row) && s.now <= t.now
  {
    assert o < s.nextId;
    hide ApiNext, PublisherNext, SchedulerNext, WorkerNext, HandlersOk, RequeueLocks, PublishLocks, Refs, IdsBounded;
    if ApiNext(c, s, step, t) {
      ApiKeepsFailed(c, s, step, t, o, row);
    } else if PublisherNext(c, s, step, t) {
      PublisherFrames(c, s, step, t);
      PublisherKeepsFailed(c, s, step, t, o, row);
    } else if SchedulerNext(c, s, step, t) {
      SchedulerFrames(c, s, step, t);
      SchedulerKeepsFailed(c, s, step, t, o, row);
    } else {
      WorkerFrames(c, s, step, t);
    }
  }

  /** Events keep their creation time. */
  ghost predicate BirthdaysKept(s: State, t: State) {
    forall e | e in s.db.events && e in t.db.events :: t.db.events[e].createdAt == s.db.events[e].createdAt
  }

  lemma ApiBirthdays(c: Config, s: State, step: Step, t: State)
    requires ApiNext(c, s, step, t) && forall e | e in s.db.events :: e < s.nextId
    ensures BirthdaysKept(s, t)
  {
  }

  lemma OtherBirthdays(c: Config, s: State, step: Step, t: State)
    requires PublisherNext(c, s, step, t) || SchedulerNext(c, s, step, t)
    ensures BirthdaysKept(s, t)
  {
  }

  lemma WorkerBirthdays(c: Config, s: State, step: Step, t: State)
    requires WorkerNext(c, s, step, t)
    ensures BirthdaysKept(s, t)
  {
  }

  lemma BirthdaysStep(c: Config, s: State, step: Step, t: State)
    requires Next(c, s, step, t) && forall e | e in s.db.events :: e < s.nextId
    ensures BirthdaysKept(s, t)
  {
    hide ApiNext, PublisherNext, SchedulerNext, WorkerNext, BirthdaysKept;
    if ApiNext(c, s, step, t) { ApiBirthdays(c, s, step, t); }
    else if WorkerNext(c, s, step, t) { WorkerBirthdays(c, s, step, t); }
    else { OtherBirthdays(c, s, step, t); }
  }

  /** The failed row is still there, and so is its event, as old as ever. */
  lemma {:induction false} FailedRowStays(c: Config, r: Run, i: nat, j: nat, o: Id, row: OutboxRow)
    requires IsHistory(c, r) && i <= j < |r.states| && GivenUp(r.states[i], o, row)
    ensures GivenUp(r.states[j], o, row) && r.states[i].now <= r.states[j].now
    ensures row.event in r.states[i].db.events && row.event in r.states[j].db.events
    ensures r.states[j].db.events[row.event].createdAt == r.states[i].db.events[row.event].createdAt
  {
    hide Next, IdsBounded, PublishLocks, RequeueLocks, HandlersOk, BirthdaysKept;
    AlwaysSound(c, r, i);
    AlwaysSound(c, r, j);
    if i < j {
      var s, t := r.states[j - 1], r.states[j];
      FailedRowStays(c, r, i, j - 1, o, row);
      AlwaysSound(c, r, j - 1);
      FailedStep(c, s, r.steps[j - 1], t, o, row);
      assert forall e | e in s.db.events :: e < s.nextId by { AlwaysScoped(c, r, j - 1); EventsNumbered(s); }
      BirthdaysStep(c, s, r.steps[j - 1], t);
      assert t.db.events[row.event].createdAt == s.db.events[row.event].createdAt by { Birthday(s, t, row.event); }
    }
  }

  lemma Birthday(s: State, t: State, e: Id)
    requires BirthdaysKept(s, t) && e in s.db.events && e in t.db.events
    ensures t.db.events[e].createdAt == s.db.events[e].createdAt
  {
  }

  lemma EventsNumbered(s: State)
    requires IdsBounded(s) && EventsOk(s.db.events, s.log)
    ensures forall e | e in s.db.events :: e < s.nextId
  {
  }

  /**
   * A row the publisher has given up is never removed and never published, so from the moment its event has aged out
   * every retention pass of the run, however much later, removes nothing from any table.
   */
  lemma FailedRowEndsRetention(c: Config, r: Run, i: nat, j: nat, o: Id)
    requires IsHistory(c, r) && i <= j < |r.steps| && r.steps[j] == Step.Retention
    requires o in r.states[i].db.outbox && r.states[i].db.outbox[o].status == OutboxStatus.Failed
    requires Aged(c, r.states[i], r.states[i].db.outbox[o].event)
    ensures r.states[j + 1] == r.states[j]
  {
    hide Next;
    var row := r.states[i].db.outbox[o];
    FailedRowStays(c, r, i, j, o, row);
    assert Aged(c, r.states[j], r.states[j].db.outbox[o].event);
    assert Blocked(c, r.states[j]);
    PassIsExactOrVoid(c, r, j);
  }
}
