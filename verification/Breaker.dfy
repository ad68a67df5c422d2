/**
 * Per-endpoint circuit breaker (packages/common/eventmesh_common/circuit_breaker.py): the object, the history of
 * calls made on it, and what the object answers in terms of that history alone.
 */
module Breaker {
  import opened Common

  datatype CircuitState = Closed | Open | HalfOpen

  /** The fields of CircuitBreakerState. */
  datatype BreakerState = BreakerState(
    state: CircuitState,
    consecutiveFailures: nat,
    openedAt: Option<Time>,
    probeInFlight: bool)

  datatype Limits = Limits(failureThreshold: int, openDuration: Time)

  const Fresh := BreakerState(Closed, 0, None, false)

  function TransitionToOpen(s: BreakerState, now: Time): BreakerState {
    s.(state := Open, openedAt := Some(now), probeInFlight := false)
  }

  /** The object after `allow_request`, and its answer. */
  function AllowRequest(l: Limits, s: BreakerState, now: Time): (BreakerState, bool) {
    match s.state
    case Closed => (s, true)
    case Open =>
      if s.openedAt.Some? && now - s.openedAt.value >= l.openDuration
      then (s.(state := HalfOpen, probeInFlight := true), true)
      else (s, false)
    case HalfOpen =>
      if s.probeInFlight then (s, false) else (s.(probeInFlight := true), true)
  }

  function RecordSuccess(s: BreakerState): BreakerState {
    if s.state == HalfOpen then Fresh
    else s.(consecutiveFailures := 0, state := Closed)
  }

  function RecordFailure(l: Limits, s: BreakerState, now: Time): BreakerState {
    if s.state == HalfOpen then TransitionToOpen(s, now)
    else
      var t := s.(consecutiveFailures := s.consecutiveFailures + 1);
      if t.consecutiveFailures >= l.failureThreshold then TransitionToOpen(t, now) else t
  }

  /** One call, with the clock reading it saw; `Asked` records the answer given. */
  datatype Call = Asked(at: Time, admitted: bool) | Succeeded(at: Time) | Failed(at: Time)

  // ---- The specification: functions of the call history only. ----

  function FailuresSinceSuccess(calls: seq<Call>): nat {
    if calls == [] then 0
    else
      var earlier, last := calls[..|calls| - 1], calls[|calls| - 1];
      if last.Succeeded? then 0
      else FailuresSinceSuccess(earlier) + if last.Failed? then 1 else 0
  }

  /** The clock reading of the most recent failure, if there was one. */
  function LatestFailure(calls: seq<Call>): Option<Time> {
    if calls == [] then None
    else
      var last := calls[|calls| - 1];
      if last.Failed? then Some(last.at) else LatestFailure(calls[..|calls| - 1])
  }

  /** Whether a request was let through after the most recent failure. */
  predicate AdmittedSinceFailure(calls: seq<Call>) {
    calls != [] &&
    var last := calls[|calls| - 1];
    !last.Failed? && ((last.Asked? && last.admitted) || AdmittedSinceFailure(calls[..|calls| - 1]))
  }

  /** A threshold of zero or less acts like one. */
  function Threshold(l: Limits): int {
    if l.failureThreshold < 1 then 1 else l.failureThreshold
  }

  predicate ClosedBy(l: Limits, calls: seq<Call>) {
    FailuresSinceSuccess(calls) < Threshold(l)
  }

  /** The answer the history calls for. */
  predicate Admits(l: Limits, calls: seq<Call>, now: Time) {
    || ClosedBy(l, calls)
    || (&& LatestFailure(calls).Some?
        && now - LatestFailure(calls).value >= l.openDuration
        && !AdmittedSinceFailure(calls))
  }

  // ---- Replaying a history on the object. ----

  /** The object after a history, starting from a new one. */
  function After(l: Limits, calls: seq<Call>): BreakerState {
    if calls == [] then Fresh
    else
      var s, last := After(l, calls[..|calls| - 1]), calls[|calls| - 1];
      match last
      case Asked(at, _) => AllowRequest(l, s, at).0
      case Succeeded(_) => RecordSuccess(s)
      case Failed(at) => RecordFailure(l, s, at)
  }

  /** The recorded answers are the ones the object gave. */
  predicate Genuine(l: Limits, calls: seq<Call>) {
    calls != [] ==>
      var earlier, last := calls[..|calls| - 1], calls[|calls| - 1];
      && Genuine(l, earlier)
      && (last.Asked? ==> last.admitted == AllowRequest(l, After(l, earlier), last.at).1)
  }

  /** How the fields of the object read in terms of the history. */
  ghost predicate Mirrors(l: Limits, s: BreakerState, calls: seq<Call>) {
    && (s.state == Closed <==> ClosedBy(l, calls))
    && (s.state == Closed ==> s.consecutiveFailures == FailuresSinceSuccess(calls))
    && (s.state != Closed ==>
          && s.consecutiveFailures >= Threshold(l)
          && s.openedAt == LatestFailure(calls)
          && s.openedAt.Some?)
    && (s.state == Open ==> !AdmittedSinceFailure(calls))
    && (s.state == HalfOpen ==> s.probeInFlight && AdmittedSinceFailure(calls))
  }

  lemma MirrorsNext(l: Limits, s: BreakerState, calls: seq<Call>, call: Call)
    requires Mirrors(l, s, calls)
    requires call.Asked? ==> call.admitted == AllowRequest(l, s, call.at).1
    ensures call.Asked? ==> call.admitted == Admits(l, calls, call.at)
    ensures call.Asked? ==> Mirrors(l, AllowRequest(l, s, call.at).0, calls + [call])
    ensures call.Succeeded? ==> Mirrors(l, RecordSuccess(s), calls + [call])
    ensures call.Failed? ==> Mirrors(l, RecordFailure(l, s, call.at), calls + [call])
  {
    assert (calls + [call])[..|calls|] == calls;
  }

  lemma {:induction false} AlwaysMirrors(l: Limits, calls: seq<Call>)
    requires Genuine(l, calls)
    ensures Mirrors(l, After(l, calls), calls)
  {
    if calls != [] {
      var earlier, last := calls[..|calls| - 1], calls[|calls| - 1];
      AlwaysMirrors(l, earlier);
      MirrorsNext(l, After(l, earlier), earlier, last);
      assert calls == earlier + [last];
    }
  }

  /**
   * The breaker refines its history: after any sequence of calls, outcomes that arrive late included, it is closed
   * exactly when the failures since the last success are fewer than the threshold, and a request is admitted exactly
   * when the breaker is closed or the open duration has passed since the latest failure with nothing admitted since.
   */
  lemma RefinesHistory(l: Limits, calls: seq<Call>, now: Time)
    requires Genuine(l, calls)
    ensures After(l, calls).state == Closed <==> FailuresSinceSuccess(calls) < Threshold(l)
    ensures AllowRequest(l, After(l, calls), now).1 <==> Admits(l, calls, now)
  {
    AlwaysMirrors(l, calls);
    MirrorsNext(l, After(l, calls), calls, Asked(now, AllowRequest(l, After(l, calls), now).1));
  }

  // ---- How fast a failing endpoint can be probed. ----

  predicate Monotone(calls: seq<Call>) {
    forall i, j | 0 <= i <= j < |calls| :: calls[i].at <= calls[j].at
  }

  /** How many requests the stretch `calls[from..]` let through. */
  function AdmittedFrom(calls: seq<Call>, from: nat): nat
    requires from <= |calls|
  {
    if |calls| == from then 0
    else
      var last := calls[|calls| - 1];
      AdmittedFrom(calls[..|calls| - 1], from) + if last.Asked? && last.admitted then 1 else 0
  }

  /** The call at `from` opened a closed breaker, and no success follows. */
  ghost predicate FailingFrom(l: Limits, calls: seq<Call>, from: nat) {
    && from < |calls|
    && calls[from].Failed?
    && !ClosedBy(l, calls[..from + 1])
    && forall i | from < i < |calls| :: !calls[i].Succeeded?
  }

  /** `t0 + k * d`, as repeated addition (see EarliestIsProduct). */
  function Earliest(t0: Time, d: Time, k: nat): Time {
    if k == 0 then t0 else Earliest(t0, d, k - 1) + d
  }

  lemma {:induction false} EarliestIsProduct(t0: Time, d: Time, k: nat)
    ensures Earliest(t0, d, k) == t0 + k as real * d
  {
    if k != 0 {
      EarliestIsProduct(t0, d, k - 1);
      assert k as real == (k - 1) as real + 1.0;
      assert k as real * d == (k - 1) as real * d + d;
    }
  }

  /** In a failing stretch the breaker stays tripped, and the latest failure keeps pace with the probes. */
  ghost predicate KeepsPace(l: Limits, calls: seq<Call>, from: nat)
    requires from < |calls|
  {
    && !ClosedBy(l, calls)
    && LatestFailure(calls).Some?
    && LatestFailure(calls).value <= calls[|calls| - 1].at
    && var due := Earliest(calls[from].at, l.openDuration, AdmittedFrom(calls, from));
    due <= if AdmittedSinceFailure(calls) then calls[|calls| - 1].at else LatestFailure(calls).value
  }

  lemma {:induction false} ProbesKeepPace(l: Limits, calls: seq<Call>, from: nat)
    requires Genuine(l, calls) && Monotone(calls) && FailingFrom(l, calls, from)
    ensures KeepsPace(l, calls, from)
  {
    var n := |calls| - 1;
    var earlier, last := calls[..n], calls[n];
    if n == from {
      assert calls == calls[..from + 1];
      assert AdmittedFrom(earlier, from) == 0;
    } else {
      assert earlier[..from + 1] == calls[..from + 1];
      ProbesKeepPace(l, earlier, from);
      assert last.Asked? ==> last.admitted == Admits(l, earlier, last.at) by {
        AlwaysMirrors(l, earlier);
        if last.Asked? {
          MirrorsNext(l, After(l, earlier), earlier, last);
        }
      }
      assert earlier[n - 1].at <= last.at;
    }
  }

  /**
   * Probe rate bound: with a clock that never runs backwards, the k-th request admitted after the breaker opened at
   * `t0` comes no earlier than `t0 + k * openDuration`, as long as nothing succeeds.
   */
  lemma ProbeRate(l: Limits, calls: seq<Call>, from: nat, k: nat)
    requires Genuine(l, calls) && Monotone(calls) && FailingFrom(l, calls, from)
    requires calls[|calls| - 1].Asked? && calls[|calls| - 1].admitted && k == AdmittedFrom(calls, from)
    ensures calls[|calls| - 1].at >= calls[from].at + k as real * l.openDuration
  {
    ProbesKeepPace(l, calls, from);
    EarliestIsProduct(calls[from].at, l.openDuration, k);
  }

  // ---- The object itself. ----

  /** The long-lived breaker object; `calls` is its history and takes no part in what it does. */
  class CircuitBreaker {
    const failureThreshold: int
    const openDuration: Time
    var state: CircuitState
    var consecutiveFailures: nat
    var openedAt: Option<Time>
    var halfOpenProbeInFlight: bool
    ghost var calls: seq<Call>

    constructor (failureThreshold: int, openDuration: Time)
      ensures this.failureThreshold == failureThreshold && this.openDuration == openDuration
      ensures Valid() && calls == []
    {
      this.failureThreshold, this.openDuration := failureThreshold, openDuration;
      state, consecutiveFailures, openedAt, halfOpenProbeInFlight := Closed, 0, None, false;
      calls := [];
    }

    ghost function Configured(): Limits { Limits(failureThreshold, openDuration) }

    ghost function Fields(): BreakerState
      reads this
    {
      BreakerState(state, consecutiveFailures, openedAt, halfOpenProbeInFlight)
    }

    /** The fields are what the history makes of a new object. */
    ghost predicate Valid()
      reads this
    {
      Genuine(Configured(), calls) && Fields() == After(Configured(), calls)
    }

    /** Whether a new delivery attempt may be sent; `now` is the clock reading. */
    method AllowRequest(now: Time) returns (admitted: bool)
      requires Valid()
      modifies this
      ensures Valid() && calls == old(calls) + [Asked(now, admitted)]
      ensures admitted <==> Admits(Configured(), old(calls), now)
      ensures state == Closed <==> FailuresSinceSuccess(calls) < Threshold(Configured())
    {
      ghost var history := calls;
      RefinesHistory(Configured(), calls, now);
      if state == Closed {
        admitted := true;
      } else if state == Open {
        if openedAt.Some? && now - openedAt.value >= openDuration {
          TransitionToHalfOpen();
          admitted := Probe();
        } else {
          admitted := false;
        }
      } else {
        admitted := Probe();
      }
      calls := calls + [Asked(now, admitted)];
      assert calls[..|history|] == history;
      RefinesHistory(Configured(), calls, now);
    }

    /** The half-open branch of allow_request, which is reached directly or after the breaker has just half-opened. */
    method Probe() returns (admitted: bool)
      modifies this`halfOpenProbeInFlight
      ensures admitted == !old(halfOpenProbeInFlight) && halfOpenProbeInFlight
    {
      admitted := !halfOpenProbeInFlight;
      halfOpenProbeInFlight := true;
    }

    method RecordSuccess(ghost now: Time)
      requires Valid()
      modifies this
      ensures Valid() && calls == old(calls) + [Succeeded(now)]
      ensures state == Closed && FailuresSinceSuccess(calls) == 0
    {
      ghost var history := calls;
      if state == HalfOpen {
        TransitionToClosed();
      } else {
        consecutiveFailures := 0;
        state := Closed;
      }
      calls := calls + [Succeeded(now)];
      assert calls[..|history|] == history;
    }

    method RecordFailure(now: Time)
      requires Valid()
      modifies this
      ensures Valid() && calls == old(calls) + [Failed(now)]
      ensures state == Closed <==> FailuresSinceSuccess(calls) < Threshold(Configured())
      ensures state != Closed ==> state == Open && openedAt == Some(now)
    {
      ghost var history := calls;
      calls := calls + [Failed(now)];
      assert calls[..|history|] == history;
      AlwaysMirrors(Configured(), history);
      if state == HalfOpen {
        TransitionToOpen(now);
      } else {
        consecutiveFailures := consecutiveFailures + 1;
        if consecutiveFailures >= failureThreshold {
          TransitionToOpen(now);
        }
      }
      RefinesHistory(Configured(), calls, now);
    }

    method TransitionToOpen(now: Time)
      modifies this`state, this`openedAt, this`halfOpenProbeInFlight
      ensures state == Open && openedAt == Some(now) && !halfOpenProbeInFlight
    {
      state, openedAt, halfOpenProbeInFlight := Open, Some(now), false;
    }

    method TransitionToHalfOpen()
      modifies this`state, this`halfOpenProbeInFlight
      ensures state == HalfOpen && !halfOpenProbeInFlight
    {
      state, halfOpenProbeInFlight := HalfOpen, false;
    }

    method TransitionToClosed()
      modifies this`state, this`consecutiveFailures, this`openedAt, this`halfOpenProbeInFlight
      ensures state == Closed && consecutiveFailures == 0 && openedAt == None && !halfOpenProbeInFlight
    {
      state, consecutiveFailures, openedAt, halfOpenProbeInFlight := Closed, 0, None, false;
    }
  }
}
