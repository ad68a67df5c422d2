/**
 * What the COMPLETED stamp says about the fan-out. A handler leaves a delivery row behind for every endpoint it has
 * passed, so only the endpoints still on the stamping handler's list are in question; and unless the message was reclaimed,
 * each of these has no row on behalf of the message.
 */
module Completions {
  import opened Common
  import opened Tables
  import opened Pipeline
  import opened Integrity
  import opened Tenancy
  import opened NoLoss
  import opened Deliveries
  import opened Traces
  import opened Turns
  import opened Attempts

  /** A delivery of the pair younger than the message, whatever has become of it. */
  ghost predicate RowFor(deliveries: map<Id, Delivery>, d: Id, e: Id, p: Id, k: Id) {
    d in deliveries && k < d && deliveries[d].event == e && deliveries[d].endpoint == p
  }

  /** The endpoint has had its turn since `k`, or there is no one to deliver to any more. */
  ghost predicate Tried(s: State, e: Id, p: Id, k: Id) {
    || Gone(s, e, p)
    || (exists d :: RowFor(s.db.deliveries, d, e, p, k))
    || (exists d :: PurgeCovers(s.log, d, e, p, k))
  }

  /** What a running handler found is on its list, or has had its turn. */
  lemma AlwaysTried(c: Config, r: Run, i: nat, h: Id, p: Id)
    requires IsHistory(c, r) && i < |r.states| && h in r.states[i].handlers && p in r.states[i].handlers[h].resolved
    ensures var s, x := r.states[i], r.states[i].handlers[h];
            && x.message in s.stream.entries
            && (p in Listed(x) || Tried(s, EventOf(s, x.message), p, x.message))
  {
    hide Next;
    var s, x := r.states[i], r.states[i].handlers[h];
    AlwaysTurned(c, r, i, x.message, p);
    assert Turned(s, x, p, RowsMade(r, x.message, p, i));
    if RowsMade(r, x.message, p, i) >= 1 {
      var d := CountedIsMade(r, i, x.message, p);
      MadeIsTraced(c, r, i, d, x.message, p);
      assert RowFor(s.db.deliveries, d, EventOf(s, x.message), p, x.message)
          || PurgeCovers(s.log, d, EventOf(s, x.message), p, x.message);
    }
  }

  // ---- Rows of any message. ----

  /**
   * The endpoint was deleted, a delivery of it younger than the message was removed by retention, or it has one among the
   * given rows.
   */
  ghost predicate Included(s: State, rows: set<Id>, m: Id, e: Id, p: Id) {
    || p !in s.db.endpoints
    || (exists d :: d in rows && RowFor(s.db.deliveries, d, e, p, m))
    || (exists d :: PurgeCovers(s.log, d, e, p, m))
  }

  /** The handler that stamps at this step. */
  ghost function Stamper(s: State, step: Step): Handler
    requires step.Respond? && CanRespond(s, step.handler)
  {
    s.handlers[step.handler]
  }

  /** Every endpoint the stamping handler found. */
  ghost predicate CoversFanOut(s: State, step: Step, e: Id, rows: set<Id>)
    requires step.Respond? && CanRespond(s, step.handler)
  {
    var x := Stamper(s, step);
    forall p | p in x.resolved :: Included(s, rows, x.message, e, p)
  }

  /** Every endpoint still on its list. */
  ghost predicate CoversList(s: State, step: Step, e: Id, rows: set<Id>)
    requires step.Respond? && CanRespond(s, step.handler)
  {
    var x := Stamper(s, step);
    forall p | p in x.phase.rest :: Included(s, rows, x.message, e, p)
  }

  /** The stamp is for the event of the handler's message, and the list is part of what the handler found. */
  lemma StampKnown(c: Config, r: Run, i: nat, e: Id, rows: set<Id>)
    requires IsHistory(c, r) && SawAll(c, r, i, e, rows)
    ensures var s, x := r.states[i], Stamper(r.states[i], r.steps[i]);
            && x.message in s.stream.entries && e == EventOf(s, x.message) && e in s.db.events
            && Listed(x) == x.phase.rest && forall p | p in x.phase.rest :: p in x.resolved
  {
    var s, x := r.states[i], Stamper(r.states[i], r.steps[i]);
    AlwaysSound(c, r, i);
    assert HandlerOk(x, s.stream, s.db.deliveries, s.nextId);
    AlwaysSafe(c, r, i);
    SafeParts(s);
    hide Next, PublishLocks, RequeueLocks, IdsBounded, Safe;
    assert HandlerRecorded(x, s.log);
    assert forall p | p in x.phase.rest :: p in Remaining(x);
  }

  /** The rows the query saw cover the fan-out of the stamping handler if and only if they cover what is left of its list. */
  lemma StampCovers(c: Config, r: Run, i: nat, e: Id, rows: set<Id>)
    requires IsHistory(c, r) && SawAll(c, r, i, e, rows)
    ensures CoversFanOut(r.states[i], r.steps[i], e, rows) <==> CoversList(r.states[i], r.steps[i], e, rows)
  {
    hide Next, Sound, Safe;
    var s, x := r.states[i], Stamper(r.states[i], r.steps[i]);
    StampKnown(c, r, i, e, rows);
    forall p | p in x.resolved && p !in x.phase.rest ensures Included(s, rows, x.message, e, p) {
      AlwaysTried(c, r, i, r.steps[i].handler, p);
      if q :| RowFor(s.db.deliveries, q, e, p, x.message) {
        assert q in rows;
      }
    }
  }

  // ---- Rows on behalf of the message. ----

  /** The endpoint was deleted, or a row made for it on behalf of the message is among the given ones or was removed. */
  ghost predicate OwnRowIncluded(r: Run, i: nat, rows: set<Id>, m: Id, p: Id)
    requires i <= |r.steps| < |r.states|
  {
    || p !in r.states[i].db.endpoints
    || exists d :: MadeFor(r, i, d, m, p) && (d in rows || d in r.states[i].log.purged)
  }

  /** Every endpoint the stamping handler found has had its own row. */
  ghost predicate FanOutDone(r: Run, i: nat, rows: set<Id>)
    requires i < |r.steps| < |r.states| && r.steps[i].Respond? && CanRespond(r.states[i], r.steps[i].handler)
  {
    var x := Stamper(r.states[i], r.steps[i]);
    forall p | p in x.resolved :: OwnRowIncluded(r, i, rows, x.message, p)
  }

  /** Every endpoint still on the stamping handler's list was deleted; in particular an empty list will do. */
  ghost predicate NobodyLeft(s: State, step: Step)
    requires step.Respond? && CanRespond(s, step.handler)
  {
    forall p | p in Stamper(s, step).phase.rest :: p !in s.db.endpoints
  }

  lemma PassedIncluded(c: Config, r: Run, i: nat, e: Id, rows: set<Id>, p: Id)
    requires IsHistory(c, r) && SawAll(c, r, i, e, rows) && p in Stamper(r.states[i], r.steps[i]).resolved
    requires p !in Stamper(r.states[i], r.steps[i]).phase.rest
    ensures OwnRowIncluded(r, i, rows, Stamper(r.states[i], r.steps[i]).message, p)
  {
    hide Next, MadeFor;
    var s, x := r.states[i], Stamper(r.states[i], r.steps[i]);
    StampKnown(c, r, i, e, rows);
    AlwaysTurned(c, r, i, x.message, p);
    assert Turned(s, x, p, RowsMade(r, x.message, p, i));
    if p in s.db.endpoints {
      var d := CountedIsMade(r, i, x.message, p);
      MadeIsTraced(c, r, i, d, x.message, p);
      assert d in rows || d in s.log.purged;
    }
  }

  /** An endpoint on the list of the only handler there ever was has no row yet. */
  lemma ListedHasNoRow(c: Config, r: Run, i: nat, h: Id, p: Id, d: Id)
    requires IsHistory(c, r) && i < |r.states| && h in r.states[i].handlers && p in Listed(r.states[i].handlers[h])
    requires Claims(r, r.states[i].handlers[h].message, i) == 0
    ensures !MadeFor(r, i, d, r.states[i].handlers[h].message, p)
  {
    hide Next;
    var s, m := r.states[i], r.states[i].handlers[h].message;
    RowsWithinHandlers(c, r, i, m, p);
    TakenIsReadOrClaimed(r, m, i);
    ReadOnce(c, r, m, i);
    assert h in Ahead(s, m, p);
    Fewer({h}, Ahead(s, m, p));
    if MadeFor(r, i, d, m, p) {
      MadeIsCounted(r, i, d, m, p);
    }
  }

  /**
   * Exactly when the stamp comes last: if the message has not been reclaimed, every endpoint the stamping handler found
   * has its own row among those the query saw, or had one that retention removed, or was deleted, if and only if each
   * endpoint still on the handler's list was deleted.
   */
  lemma StampIsLast(c: Config, r: Run, i: nat, e: Id, rows: set<Id>)
    requires IsHistory(c, r) && SawAll(c, r, i, e, rows)
    requires Claims(r, Stamper(r.states[i], r.steps[i]).message, i) == 0
    ensures FanOutDone(r, i, rows) <==> NobodyLeft(r.states[i], r.steps[i])
  {
    hide Next, MadeFor, OwnRowIncluded;
    var s, x := r.states[i], Stamper(r.states[i], r.steps[i]);
    StampKnown(c, r, i, e, rows);
    forall p | p in x.resolved && p !in x.phase.rest ensures OwnRowIncluded(r, i, rows, x.message, p) {
      PassedIncluded(c, r, i, e, rows, p);
    }
    forall p | p in x.phase.rest ensures OwnRowIncluded(r, i, rows, x.message, p) <==> p !in s.db.endpoints {
      ListedNotIncluded(c, r, i, r.steps[i].handler, rows, p);
    }
  }

  lemma ListedNotIncluded(c: Config, r: Run, i: nat, h: Id, rows: set<Id>, p: Id)
    requires IsHistory(c, r) && i < |r.states| && h in r.states[i].handlers && p in Listed(r.states[i].handlers[h])
    requires Claims(r, r.states[i].handlers[h].message, i) == 0
    ensures OwnRowIncluded(r, i, rows, r.states[i].handlers[h].message, p) <==> p !in r.states[i].db.endpoints
  {
    hide Next, MadeFor;
    forall d ensures !MadeFor(r, i, d, r.states[i].handlers[h].message, p) {
      ListedHasNoRow(c, r, i, h, p, d);
    }
  }

  /**
   * The stamp and the fan-out: every completion on record goes back to a step at which a handler had a successful answer
   * and saw all rows of the event, every other one delivered or dead-lettered. These cover what that handler had found if
   * and only if they cover what was left of its list; and, counting only rows on behalf of the message and if it had not
   * been reclaimed, if and only if each endpoint that was left had been deleted.
   */
  lemma CompletionCoversFanOut(c: Config, r: Run, n: nat, k: nat) returns (i: nat)
    requires IsHistory(c, r) && n < |r.states| && k < |r.states[n].log.completions|
    ensures var done := r.states[n].log.completions[k];
            && i < n && SawAll(c, r, i, done.event, done.rows)
            && var s, step := r.states[i], r.steps[i];
            && (CoversFanOut(s, step, done.event, done.rows) <==> CoversList(s, step, done.event, done.rows))
            && (Claims(r, Stamper(s, step).message, i) == 0 ==> (FanOutDone(r, i, done.rows) <==> NobodyLeft(s, step)))
  {
    hide Next, CoversFanOut, CoversList, FanOutDone, NobodyLeft;
    i := CompletionSawAll(c, r, n, k);
    var done := r.states[n].log.completions[k];
    StampCovers(c, r, i, done.event, done.rows);
    if Claims(r, Stamper(r.states[i], r.steps[i]).message, i) == 0 {
      StampIsLast(c, r, i, done.event, done.rows);
    }
  }
}
