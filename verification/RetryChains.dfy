/**
 * Chains of `_deliver_to_endpoint` calls (apps/worker/eventmesh_worker/delivery_engine.py) for one event and endpoint,
 * each retry with the next attempt number, as the scheduler asks for (apps/scheduler/eventmesh_scheduler/main.py).
 */
module RetryChains {
  import opened Common
  import opened Tables
  import opened Pipeline
  import Retry

  /** What one call meets: whether the circuit lets it through, and if so what the target does. */
  datatype Turn = Turn(admitted: bool, reply: Reply, draw: real, at: Time)

  /** The delivery row one call leaves behind. */
  function RowAfter(c: Config, event: Id, endpoint: Id, attempt: nat, turn: Turn): Delivery
    requires attempt >= 1
  {
    if turn.admitted
    then Attempted(c, NewDelivery(event, endpoint, Delivering, None, turn.at).(attempt := attempt), turn.reply, turn.draw, turn.at)
    else NewDelivery(event, endpoint, Retrying, Some(turn.at + c.limits.openDuration), turn.at).(attempt := attempt)
  }

  /** The rows of a chain that starts at attempt one. */
  function Rows(c: Config, event: Id, endpoint: Id, turns: seq<Turn>): (rows: seq<Delivery>)
    ensures |rows| == |turns|
  {
    seq(|turns|, k requires 0 <= k < |turns| => RowAfter(c, event, endpoint, k + 1, turns[k]))
  }

  /** Only a row that waits for a retry is followed by another call. */
  ghost predicate IsChain(c: Config, event: Id, endpoint: Id, turns: seq<Turn>) {
    forall k | 0 <= k < |turns| - 1 :: Rows(c, event, endpoint, turns)[k].status == Retrying
  }

  /** A request that actually went out. */
  predicate IsSend(turn: Turn) { turn.admitted && !turn.reply.Rejected? }

  function Sends(turns: seq<Turn>): nat {
    if turns == [] then 0
    else Sends(turns[..|turns| - 1]) + if IsSend(turns[|turns| - 1]) then 1 else 0
  }

  function Deferrals(turns: seq<Turn>): nat {
    if turns == [] then 0
    else Deferrals(turns[..|turns| - 1]) + if turns[|turns| - 1].admitted then 0 else 1
  }

  /** How many calls of a chain may be followed by another send: those before the last allowed attempt. */
  function Spent(policy: Retry.Policy, n: nat): nat {
    Min(n, Max(0, policy.maxAttempts - 1))
  }

  /** A send is retried only below the attempt limit. */
  lemma RetriedSend(c: Config, event: Id, endpoint: Id, attempt: nat, turn: Turn)
    requires attempt >= 1 && turn.admitted && RowAfter(c, event, endpoint, attempt, turn).status == Retrying
    ensures IsSend(turn) && attempt < c.policy.maxAttempts
  {
  }

  /** All calls but the last one of a chain were followed by a retry. */
  lemma EarlierRetried(c: Config, event: Id, endpoint: Id, turns: seq<Turn>, n: nat)
    requires n <= |turns| && forall k | 0 <= k < n :: Rows(c, event, endpoint, turns)[k].status == Retrying
    ensures forall k | 0 <= k < n :: Rows(c, event, endpoint, turns[..n])[k].status == Retrying
  {
    hide RowAfter;
    assert Rows(c, event, endpoint, turns)[..n] == Rows(c, event, endpoint, turns[..n]);
  }

  /** Calls that were all followed by a retry: each one below the limit is a send or a deferral, and no other is a send. */
  lemma {:induction false} RetriedCalls(c: Config, event: Id, endpoint: Id, turns: seq<Turn>)
    requires forall k | 0 <= k < |turns| :: Rows(c, event, endpoint, turns)[k].status == Retrying
    ensures Sends(turns) + Deferrals(turns[..Spent(c.policy, |turns|)]) == Spent(c.policy, |turns|)
  {
    if turns != [] {
      var n := |turns| - 1;
      var earlier, last := turns[..n], turns[n];
      EarlierRetried(c, event, endpoint, turns, n);
      RetriedCalls(c, event, endpoint, earlier);
      assert Rows(c, event, endpoint, turns)[n] == RowAfter(c, event, endpoint, n + 1, last);
      if last.admitted {
        RetriedSend(c, event, endpoint, n + 1, last);
      }
      var k := Spent(c.policy, n + 1);
      if k == n + 1 {
        assert Spent(c.policy, n) == n && turns[..n + 1] == turns && earlier[..n] == earlier;
      } else {
        assert turns[..k] == earlier[..k];
      }
    }
  }

  /**
   * Any chain makes at most as many sends as there are allowed attempts, one at least, however many deferrals come in
   * between; and deferrals count: each one before the last allowed attempt takes the place of a send.
   */
  lemma ChainBound(c: Config, event: Id, endpoint: Id, turns: seq<Turn>)
    requires IsChain(c, event, endpoint, turns)
    ensures Sends(turns) <= Max(1, c.policy.maxAttempts)
    ensures turns != [] ==>
              Sends(turns) + Deferrals(turns[..Spent(c.policy, |turns| - 1)]) <= Spent(c.policy, |turns| - 1) + 1
  {
    hide Rows, IsSend;
    if turns != [] {
      var n := |turns| - 1;
      var earlier := turns[..n];
      EarlierRetried(c, event, endpoint, turns, n);
      RetriedCalls(c, event, endpoint, earlier);
      assert earlier[..Spent(c.policy, n)] == turns[..Spent(c.policy, n)];
    }
  }

  /** A chain that has used up its sends is over: its last row is delivered or dead-lettered. */
  lemma ChainEnds(c: Config, event: Id, endpoint: Id, turns: seq<Turn>)
    requires IsChain(c, event, endpoint, turns) && turns != [] && turns[|turns| - 1].admitted
    requires |turns| >= c.policy.maxAttempts
    ensures Terminal(Rows(c, event, endpoint, turns)[|turns| - 1].status)
  {
    var n := |turns| - 1;
    assert Rows(c, event, endpoint, turns)[n] == RowAfter(c, event, endpoint, n + 1, turns[n]);
  }

  /** A chain of `n` sends that ends dead-lettered. */
  ghost predicate Exhausts(c: Config, event: Id, endpoint: Id, turns: seq<Turn>, n: nat) {
    && IsChain(c, event, endpoint, turns) && Sends(turns) == n == |turns| > 0
    && Rows(c, event, endpoint, turns)[n - 1].status == Dlq
  }

  /** The bound is exact: when every request times out, a chain makes all the allowed sends and ends dead-lettered. */
  lemma BoundIsReached(c: Config, event: Id, endpoint: Id)
    ensures exists turns :: Exhausts(c, event, endpoint, turns, Max(1, c.policy.maxAttempts))
  {
    var n := Max(1, c.policy.maxAttempts);
    var turns := seq(n, k => Turn(true, TimedOut, 0.0, 0.0));
    forall k | 0 <= k < n - 1 ensures Rows(c, event, endpoint, turns)[k].status == Retrying {
      assert Rows(c, event, endpoint, turns)[k] == RowAfter(c, event, endpoint, k + 1, turns[k]);
    }
    assert Rows(c, event, endpoint, turns)[n - 1] == RowAfter(c, event, endpoint, n, turns[n - 1]);
    AllSends(turns);
    assert Exhausts(c, event, endpoint, turns, n);
  }

  lemma {:induction false} AllSends(turns: seq<Turn>)
    requires forall k | 0 <= k < |turns| :: IsSend(turns[k])
    ensures Sends(turns) == |turns|
  {
    if turns != [] {
      AllSends(turns[..|turns| - 1]);
    }
  }
}
