/** Fixed-window rate limiting (apps/api/eventmesh_api/auth_deps.py) over whole request traces. */
module RateLimit {
  import opened Common

  const WINDOW := 60.0
  const COUNTER_TTL := 90.0
  const FREE_LIMIT: nat := 100

  datatype Plan = Free | Pro | Enterprise | OtherPlan

  function LimitOf(plan: Plan): nat {
    match plan
    case Free => 100
    case Pro => 1000
    case Enterprise => 10000
    case OtherPlan => FREE_LIMIT
  }

  function WindowOf(now: Time): int { (now / WINDOW).Floor }

  /** A Redis counter; it is gone once its expiry has passed. */
  datatype Counter = Counter(count: nat, expiresAt: Option<Time>)

  type Key = (Id, int)

  predicate Live(c: Counter, now: Time) { c.expiresAt.None? || now < c.expiresAt.value }

  /** Redis drops a key as soon as its expiry has passed. */
  function Expire(counters: map<Key, Counter>, now: Time): map<Key, Counter> {
    map key | key in counters && Live(counters[key], now) :: counters[key]
  }

  /** INCR. */
  function Incr(counters: map<Key, Counter>, key: Key): Counter {
    if key in counters then counters[key].(count := counters[key].count + 1) else Counter(1, None)
  }

  /** One request of a tenant at an instant, and the limit of its plan then. */
  datatype Request = Request(tenant: Id, at: Time, limit: nat)

  // ---- The specification: functions of the request trace only. ----

  predicate InWindow(r: Request, tenant: Id, window: int) { r.tenant == tenant && WindowOf(r.at) == window }

  /** How many requests a tenant made in an aligned minute. */
  function Made(trace: seq<Request>, tenant: Id, window: int): nat {
    if trace == [] then 0
    else Made(trace[..|trace| - 1], tenant, window) + if InWindow(trace[|trace| - 1], tenant, window) then 1 else 0
  }

  // ---- The counters. ----

  /** The counters of the current and any later minute are exact; `last` is when the limiter was last called. */
  ghost predicate Tracks(counters: map<Key, Counter>, trace: seq<Request>, last: Time) {
    && (forall key | key in counters :: Made(trace, key.0, key.1) > 0)
    && (forall tenant: Id, window | Made(trace, tenant, window) > 0 && window >= WindowOf(last) ::
          Tracked(counters, trace, tenant, window))
  }

  /** The counter is exact and its expiry lies past the end of its own minute. */
  ghost predicate Tracked(counters: map<Key, Counter>, trace: seq<Request>, tenant: Id, window: int) {
    && (tenant, window) in counters
    && var c := counters[(tenant, window)];
    && c.count == Made(trace, tenant, window)
    && c.expiresAt.Some?
    && c.expiresAt.value >= window as real * WINDOW + COUNTER_TTL
  }

  lemma WindowBounds(now: Time)
    ensures WindowOf(now) as real * 60.0 <= now < WindowOf(now) as real * 60.0 + 60.0
  {
    var w := WindowOf(now);
    assert w as real <= now / WINDOW < w as real + 1.0;
  }

  lemma WindowsAdvance(earlier: Time, later: Time)
    requires earlier <= later
    ensures WindowOf(earlier) <= WindowOf(later)
  {
    WindowBounds(earlier);
    WindowBounds(later);
  }

  /** The 90-second expiry never resets a counter inside its own minute. */
  lemma CounterOutlivesWindow(counters: map<Key, Counter>, trace: seq<Request>, last: Time, tenant: Id, now: Time)
    requires Tracks(counters, trace, last) && last <= now
    ensures Tracks(Expire(counters, now), trace, now)
    ensures Incr(Expire(counters, now), (tenant, WindowOf(now))).count == Made(trace, tenant, WindowOf(now)) + 1
  {
    WindowBounds(now);
    WindowsAdvance(last, now);
    forall t: Id, w | Made(trace, t, w) > 0 && w >= WindowOf(now) ensures Tracked(Expire(counters, now), trace, t, w) {
      assert Tracked(counters, trace, t, w);
      assert w as real * WINDOW >= WindowOf(now) as real * WINDOW;
    }
    var key := (tenant, WindowOf(now));
    if key in Expire(counters, now) {
      assert Tracked(Expire(counters, now), trace, tenant, WindowOf(now));
    } else {
      assert !Tracked(Expire(counters, now), trace, tenant, WindowOf(now));
    }
  }

  lemma TracksNext(before: map<Key, Counter>, after: map<Key, Counter>, trace: seq<Request>, tenant: Id, now: Time, limit: nat)
    requires Tracks(before, trace, now)
    requires Incr(before, (tenant, WindowOf(now))).count == Made(trace, tenant, WindowOf(now)) + 1
    requires var key := (tenant, WindowOf(now));
             var c := Incr(before, key);
             after == before[key := if c.count == 1 then c.(expiresAt := Some(now + COUNTER_TTL)) else c]
    ensures Tracks(after, trace + [Request(tenant, now, limit)], now)
    ensures Made(trace + [Request(tenant, now, limit)], tenant, WindowOf(now)) == Incr(before, (tenant, WindowOf(now))).count
  {
    var key := (tenant, WindowOf(now));
    var trace' := trace + [Request(tenant, now, limit)];
    assert trace'[..|trace|] == trace;
    WindowBounds(now);
    forall t: Id, w | Made(trace', t, w) > 0 && w >= WindowOf(now) ensures Tracked(after, trace', t, w) {
      if (t, w) != key || key in before {
        assert Tracked(before, trace, t, w);
      }
    }
  }

  /** Before the first request any clock reading will do. */
  lemma TracksNothing(counters: map<Key, Counter>, last: Time, now: Time)
    requires Tracks(counters, [], last)
    ensures Tracks(counters, [], now)
  {
  }

  /** The answer the trace calls for: the i-th request is within the limit of its own minute. */
  predicate Answer(trace: seq<Request>, i: nat)
    requires i < |trace|
  {
    Made(trace[..i + 1], trace[i].tenant, WindowOf(trace[i].at)) <= trace[i].limit
  }

  /** These are the answers to these requests. */
  ghost predicate Answers(trace: seq<Request>, answers: seq<bool>) {
    |answers| == |trace| && forall i | 0 <= i < |trace| :: answers[i] <==> Answer(trace, i)
  }

  lemma AnswersNext(trace: seq<Request>, answers: seq<bool>, r: Request, admitted: bool)
    requires Answers(trace, answers) && (admitted <==> Made(trace + [r], r.tenant, WindowOf(r.at)) <= r.limit)
    ensures Answers(trace + [r], answers + [admitted])
  {
    var trace', answers' := trace + [r], answers + [admitted];
    forall i | 0 <= i < |trace'| ensures answers'[i] <==> Answer(trace', i) {
      if i < |trace| {
        assert trace'[..i + 1] == trace[..i + 1];
        assert answers[i] <==> Answer(trace, i);
      } else {
        assert trace'[..i + 1] == trace';
      }
    }
  }

  /** The limiter; `trace` and `answers` are what it was asked and what it said, and take no part in what it does. */
  class RateLimiter {
    var counters: map<Key, Counter>
    ghost var trace: seq<Request>
    ghost var answers: seq<bool>
    ghost var last: Time

    constructor ()
      ensures Valid() && trace == [] && answers == []
    {
      counters, trace, answers, last := map[], [], [], 0.0;
    }

    ghost predicate Valid()
      reads this
    {
      Tracks(counters, trace, last) && Answers(trace, answers)
    }

    /**
     * Counts a request; with a clock that does not run backwards it is admitted exactly when the tenant's requests in
     * this minute, this one included, are within its limit.
     */
    method Enforce(tenant: Id, plan: Plan, now: Time) returns (admitted: bool)
      requires Valid() && (trace != [] ==> last <= now)
      modifies this
      ensures Valid() && last == now
      ensures trace == old(trace)
                       + [Request(tenant, now, if plan == Pro then 1000 else if plan == Enterprise then 10000 else 100)]
      ensures answers == old(answers) + [admitted]
      ensures admitted <==>
                Made(trace, tenant, WindowOf(now)) <= if plan == Pro then 1000 else if plan == Enterprise then 10000 else 100
      ensures Made(trace, tenant, WindowOf(now)) == 1 ==>
                (tenant, WindowOf(now)) in counters && counters[(tenant, WindowOf(now))].expiresAt == Some(now + 90.0)
    {
      hide Tracks, Answers, Made, WindowOf, Expire, Incr;
      if trace == [] {
        TracksNothing(counters, last, now);
        last := now;
      }
      CounterOutlivesWindow(counters, trace, last, tenant, now);
      counters := Expire(counters, now);
      ghost var before := counters;
      var limit := LimitOf(plan);
      var key := (tenant, WindowOf(now));
      var current := Incr(counters, key);
      counters := counters[key := current];
      if current.count == 1 {
        counters := counters[key := current.(expiresAt := Some(now + COUNTER_TTL))];
      }
      TracksNext(before, counters, trace, tenant, now, limit);
      admitted := current.count <= limit;
      AnswersNext(trace, answers, Request(tenant, now, limit), admitted);
      trace, answers, last := trace + [Request(tenant, now, limit)], answers + [admitted], now;
    }

    /** What the object has said keeps to both bounds, for a tenant whose plan has not changed. */
    lemma KeepsToLimit(tenant: Id, limit: nat, window: int, from: Time)
      requires Valid() && FixedLimit(trace, tenant, limit)
      ensures |answers| == |trace|
      ensures Admitted(trace, answers, tenant, window) == Min(Made(trace, tenant, window), limit)
      ensures AdmittedBetween(trace, answers, tenant, from, from + WINDOW) <= 2 * limit
    {
      AdmitsUpToLimit(trace, answers, tenant, window, limit);
      BurstBound(trace, answers, tenant, from, limit);
    }
  }

  // ---- What a whole trace lets through. ----

  /** The tenant's plan does not change. */
  ghost predicate FixedLimit(trace: seq<Request>, tenant: Id, limit: nat) {
    forall i | 0 <= i < |trace| && trace[i].tenant == tenant :: trace[i].limit == limit
  }

  /** How many of a tenant's requests in an aligned minute were answered with yes. */
  function Admitted(trace: seq<Request>, answers: seq<bool>, tenant: Id, window: int): nat
    requires |answers| == |trace|
  {
    if trace == [] then 0
    else
      var n := |trace| - 1;
      Admitted(trace[..n], answers[..n], tenant, window) + if InWindow(trace[n], tenant, window) && answers[n] then 1 else 0
  }

  lemma AnswersBefore(trace: seq<Request>, answers: seq<bool>, n: nat)
    requires Answers(trace, answers) && n <= |trace|
    ensures Answers(trace[..n], answers[..n])
  {
    forall i | 0 <= i < n ensures answers[..n][i] <==> Answer(trace[..n], i) {
      assert trace[..n][..i + 1] == trace[..i + 1];
      assert answers[i] <==> Answer(trace, i);
    }
  }

  /** Of n requests in an aligned minute exactly min(n, limit) are admitted. */
  lemma {:induction false} AdmitsUpToLimit(trace: seq<Request>, answers: seq<bool>, tenant: Id, window: int, limit: nat)
    requires Answers(trace, answers) && FixedLimit(trace, tenant, limit)
    ensures Admitted(trace, answers, tenant, window) == Min(Made(trace, tenant, window), limit)
  {
    if trace != [] {
      var n := |trace| - 1;
      AnswersBefore(trace, answers, n);
      AdmitsUpToLimit(trace[..n], answers[..n], tenant, window, limit);
      assert trace[..n + 1] == trace;
      assert answers[n] <==> Answer(trace, n);
    }
  }

  /** How many of a tenant's requests between two instants were answered with yes. */
  function AdmittedBetween(trace: seq<Request>, answers: seq<bool>, tenant: Id, from: Time, to: Time): nat
    requires |answers| == |trace|
  {
    if trace == [] then 0
    else
      var n := |trace| - 1;
      AdmittedBetween(trace[..n], answers[..n], tenant, from, to) +
      if trace[n].tenant == tenant && from <= trace[n].at <= to && answers[n] then 1 else 0
  }

  lemma {:induction false} TwoWindows(trace: seq<Request>, answers: seq<bool>, tenant: Id, from: Time)
    requires |answers| == |trace|
    ensures AdmittedBetween(trace, answers, tenant, from, from + WINDOW)
         <= Admitted(trace, answers, tenant, WindowOf(from)) + Admitted(trace, answers, tenant, WindowOf(from) + 1)
  {
    if trace != [] {
      var n := |trace| - 1;
      TwoWindows(trace[..n], answers[..n], tenant, from);
      if from <= trace[n].at <= from + WINDOW {
        WindowBounds(from);
        WindowBounds(trace[n].at);
        assert WindowOf(from) <= WindowOf(trace[n].at) <= WindowOf(from) + 1;
      }
    }
  }

  /** Any 60-second interval admits at most twice the limit, both ends included. */
  lemma BurstBound(trace: seq<Request>, answers: seq<bool>, tenant: Id, from: Time, limit: nat)
    requires Answers(trace, answers) && FixedLimit(trace, tenant, limit)
    ensures AdmittedBetween(trace, answers, tenant, from, from + WINDOW) <= 2 * limit
  {
    TwoWindows(trace, answers, tenant, from);
    AdmitsUpToLimit(trace, answers, tenant, WindowOf(from), limit);
    AdmitsUpToLimit(trace, answers, tenant, WindowOf(from) + 1, limit);
  }
}
