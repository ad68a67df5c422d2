/** Backoff policies (packages/common/eventmesh_common/retry.py), over real numbers. */
module Retry {
  import opened Common

  datatype Policy =
    | Exponential(base: real, cap: real, maxAttempts: int, jitter: real)
    | Fixed(delay: real, maxAttempts: int)
    | Linear(base: real, maxAttempts: int)

  function Pow2(n: nat): real {
    if n == 0 then 1.0 else 2.0 * Pow2(n - 1)
  }

  /** `base * 2^n`, as repeated doubling (see DoublingIsPower). */
  function Doubled(base: real, n: nat): (r: real)
    ensures base >= 0.0 ==> r >= base
  {
    if n == 0 then base else 2.0 * Doubled(base, n - 1)
  }

  /** `n * cap`, as repeated addition (see AddingIsProduct). */
  function Repeated(cap: real, n: nat): real {
    if n == 0 then 0.0 else Repeated(cap, n - 1) + cap
  }

  function RealMin(x: real, y: real): real { if x <= y then x else y }

  function RealMax(x: real, y: real): real { if x <= y then y else x }

  /** The delay before jitter after the given (1-indexed) attempt. */
  function Raw(base: real, cap: real, attempt: nat): real
    requires attempt >= 1
  {
    RealMin(cap, Doubled(base, attempt - 1))
  }

  /** What the random generator may return: a number between the two ends of the jitter band. */
  ghost predicate Drawable(raw: real, ratio: real, draw: real) {
    raw * (1.0 - ratio) <= draw <= raw * (1.0 + ratio)
  }

  function Jittered(raw: real, ratio: real, draw: real): real {
    if ratio <= 0.0 then raw else RealMax(0.0, draw)
  }

  /** `None` means that the attempt that just failed was the last allowed one. */
  function NextDelay(policy: Policy, attempt: nat, draw: real): (r: Option<real>)
    requires attempt >= 1
  {
    if attempt >= policy.maxAttempts then None
    else
      match policy
      case Exponential(base, cap, _, jitter) => Some(Jittered(Raw(base, cap, attempt), jitter, draw))
      case Fixed(delay, _) => Some(delay)
      case Linear(base, _) => Some(base * attempt as real)
  }

  lemma {:induction false} DoublingIsPower(base: real, n: nat)
    ensures Doubled(base, n) == base * Pow2(n)
  {
    if n != 0 {
      DoublingIsPower(base, n - 1);
      Associate(base, Pow2(n - 1));
    }
  }

  lemma {:induction false} AddingIsProduct(cap: real, n: nat)
    ensures Repeated(cap, n) == n as real * cap
  {
    if n != 0 {
      AddingIsProduct(cap, n - 1);
      assert n as real == (n - 1) as real + 1.0;
      Distribute(cap, (n - 1) as real, 1.0);
    }
  }

  lemma MulMono(x: real, a: real, b: real)
    requires x >= 0.0 && a <= b
    ensures x * a <= x * b
  {
    Distribute(x, b, a);
    assert x * (b - a) >= 0.0;
  }

  lemma Distribute(k: real, a: real, b: real)
    ensures k * (a + b) == k * a + k * b
    ensures k * (a - b) == k * a - k * b
  {
  }

  lemma Associate(a: real, b: real)
    ensures a * (2.0 * b) == 2.0 * (a * b)
    ensures (2.0 * a) * b == 2.0 * (a * b)
  {
  }

  /** Every delay lies within the jitter band around the raw delay; a ratio of zero or less means no jitter. */
  lemma JitterBand(raw: real, ratio: real, draw: real, r: real)
    requires raw >= 0.0 && Drawable(raw, ratio, draw) && r == RealMax(0.0, ratio)
    ensures Jittered(raw, ratio, draw) >= 0.0
    ensures raw - raw * r <= Jittered(raw, ratio, draw) <= raw + raw * r
  {
    Distribute(raw, 1.0, ratio);
    MulMono(raw, 0.0, r);
  }

  /** The waiting times after the attempts `1 .. |draws|`. */
  function Delays(policy: Policy, draws: seq<real>): (delays: seq<real>)
    requires |draws| < policy.maxAttempts
    ensures |delays| == |draws|
  {
    seq(|draws|, i requires 0 <= i < |draws| => NextDelay(policy, i + 1, draws[i]).value)
  }

  /** The same without jitter. */
  function Raws(base: real, cap: real, n: nat): (raws: seq<real>)
    ensures |raws| == n
  {
    seq(n, i requires 0 <= i < n => Raw(base, cap, i + 1))
  }

  /** The draw after attempt `i + 1` is one the generator may return. */
  ghost predicate DrawableAt(policy: Policy, draws: seq<real>, i: nat)
    requires policy.Exponential? && i < |draws|
  {
    Drawable(Raw(policy.base, policy.cap, i + 1), policy.jitter, draws[i])
  }

  ghost predicate AllDrawable(policy: Policy, draws: seq<real>)
    requires policy.Exponential?
  {
    forall i: nat | i < |draws| :: DrawableAt(policy, draws, i)
  }

  function Sum(xs: seq<real>): real {
    if xs == [] then 0.0 else Sum(xs[..|xs| - 1]) + xs[|xs| - 1]
  }

  /** Between nothing and the raw delay stretched by the jitter. */
  ghost predicate InBand(delay: real, raw: real, r: real) {
    0.0 <= delay <= raw + raw * r
  }

  lemma {:induction false} SumBound(delays: seq<real>, raws: seq<real>, r: real)
    requires |delays| == |raws|
    requires forall i | 0 <= i < |raws| :: InBand(delays[i], raws[i], r)
    ensures InBand(Sum(delays), Sum(raws), r)
  {
    hide InBand;
    if |raws| == 0 {
      BandOfNothing(r);
    } else {
      var n := |raws| - 1;
      SumBound(delays[..n], raws[..n], r);
      BandsAdd(Sum(delays[..n]), Sum(raws[..n]), delays[n], raws[n], r);
    }
  }

  lemma BandOfNothing(r: real)
    ensures InBand(0.0, 0.0, r)
  {
  }

  lemma BandsAdd(delay: real, raw: real, delay': real, raw': real, r: real)
    requires InBand(delay, raw, r) && InBand(delay', raw', r)
    ensures InBand(delay + delay', raw + raw', r)
  {
    Distribute(r, raw, raw');
  }

  lemma {:induction false} RawsBound(base: real, cap: real, n: nat)
    requires base >= 0.0 && cap >= 0.0
    ensures Sum(Raws(base, cap, n)) <= Repeated(cap, n)
    ensures Sum(Raws(base, cap, n)) <= Doubled(base, n) - base
  {
    if n != 0 {
      RawsBound(base, cap, n - 1);
      assert Raws(base, cap, n)[..n - 1] == Raws(base, cap, n - 1);
    }
  }

  lemma DelaySum(policy: Policy, draws: seq<real>, r: real)
    requires policy.Exponential? && policy.base >= 0.0 && policy.cap >= 0.0 && |draws| < policy.maxAttempts
    requires AllDrawable(policy, draws) && r == RealMax(0.0, policy.jitter)
    ensures InBand(Sum(Delays(policy, draws)), Sum(Raws(policy.base, policy.cap, |draws|)), r)
  {
    hide InBand, Drawable, Jittered, Sum;
    var delays, raws := Delays(policy, draws), Raws(policy.base, policy.cap, |draws|);
    forall i: nat | i < |draws| ensures InBand(delays[i], raws[i], r) {
      assert DrawableAt(policy, draws, i);
      DelayInBand(raws[i], policy.jitter, draws[i], r);
    }
    SumBound(delays, raws, r);
  }

  lemma DelayInBand(raw: real, ratio: real, draw: real, r: real)
    requires raw >= 0.0 && Drawable(raw, ratio, draw) && r == RealMax(0.0, ratio)
    ensures InBand(Jittered(raw, ratio, draw), raw, r)
  {
    JitterBand(raw, ratio, draw, r);
  }

  lemma Stretch(r: real, total: real, raw: real, limit: real)
    requires r >= 0.0 && total <= raw + raw * r && raw <= limit
    ensures total <= (1.0 + r) * limit
  {
    Distribute(raw, 1.0, r);
    MulMono(1.0 + r, raw, limit);
  }

  /**
   * The documented delay after the given attempt: `base * 2^(attempt - 1)` up to the cap, jittered within its band; the
   * fixed delay; or `base * attempt`.
   */
  ghost predicate DocumentedDelay(policy: Policy, attempt: nat, draw: real, delay: real)
    requires attempt >= 1
  {
    match policy
    case Exponential(base, cap, _, jitter) =>
      var raw := if base * Pow2(attempt - 1) <= cap then base * Pow2(attempt - 1) else cap;
      && (jitter <= 0.0 ==> delay == raw)
      && (jitter > 0.0 ==> delay == if draw >= 0.0 then draw else 0.0)
      && (jitter > 0.0 && raw * (1.0 - jitter) <= draw <= raw * (1.0 + jitter) && jitter <= 1.0 && raw >= 0.0 ==>
            raw * (1.0 - jitter) <= delay <= raw * (1.0 + jitter))
    case Fixed(fixed, _) => delay == fixed
    case Linear(base, _) => delay == base * attempt as real
  }

  /** Each single delay is the documented one, and there is none from the last allowed attempt on. */
  lemma DelayIsExact(policy: Policy, attempt: nat, draw: real)
    requires attempt >= 1
    ensures NextDelay(policy, attempt, draw).Some? <==> attempt < policy.maxAttempts
    ensures attempt < policy.maxAttempts ==> DocumentedDelay(policy, attempt, draw, NextDelay(policy, attempt, draw).value)
  {
    if policy.Exponential? {
      DoublingIsPower(policy.base, attempt - 1);
      BandIsPositive(Raw(policy.base, policy.cap, attempt), policy.jitter);
      hide Doubled, Pow2;
    }
  }

  lemma BandIsPositive(raw: real, ratio: real)
    ensures 0.0 < ratio <= 1.0 && raw >= 0.0 ==> raw * (1.0 - ratio) >= 0.0
  {
    if 0.0 < ratio <= 1.0 && raw >= 0.0 {
      MulMono(raw, 0.0, 1.0 - ratio);
    }
  }

  lemma {:induction false} RawsSum(base: real, cap: real, n: nat)
    requires n >= 1 ==> Doubled(base, n - 1) <= cap
    requires base >= 0.0
    ensures Sum(Raws(base, cap, n)) == Doubled(base, n) - base
  {
    if n != 0 {
      RawsSum(base, cap, n - 1);
      assert Raws(base, cap, n)[..n - 1] == Raws(base, cap, n - 1);
    }
  }

  lemma DoubledTotal(policy: Policy, draws: seq<real>)
    requires policy.Exponential? && policy.base >= 0.0 && policy.jitter <= 0.0 && 0 < |draws| < policy.maxAttempts
    requires Doubled(policy.base, |draws| - 1) <= policy.cap
    ensures Sum(Delays(policy, draws)) == Doubled(policy.base, |draws|) - policy.base
  {
    hide Sum, Delays, Raws, Doubled;
    DelaysAreRaws(policy, draws);
    RawsSum(policy.base, policy.cap, |draws|);
  }

  /** Without jitter and below the cap the waiting times add up to exactly `base * 2^n - base`. */
  lemma BackoffTotal(policy: Policy, draws: seq<real>, total: real)
    requires policy.Exponential? && policy.base >= 0.0 && policy.jitter <= 0.0 && 0 < |draws| < policy.maxAttempts
    requires policy.base * Pow2(|draws| - 1) <= policy.cap && total == Sum(Delays(policy, draws))
    ensures total == policy.base * Pow2(|draws|) - policy.base
  {
    hide Sum, Delays, Raws, Doubled, Pow2;
    DoublingIsPower(policy.base, |draws| - 1);
    DoublingIsPower(policy.base, |draws|);
    DoubledTotal(policy, draws);
  }

  lemma DelaysAreRaws(policy: Policy, draws: seq<real>)
    requires policy.Exponential? && policy.jitter <= 0.0 && |draws| < policy.maxAttempts
    ensures Delays(policy, draws) == Raws(policy.base, policy.cap, |draws|)
  {
  }

  /** The smaller of the capped and the uncapped total. */
  function Budget(base: real, cap: real, n: nat): real {
    RealMin(Repeated(cap, n), Doubled(base, n) - base)
  }

  /** Over all retries the waiting time stays below both totals, whatever the random draws. */
  lemma BackoffBudget(policy: Policy, draws: seq<real>, r: real, total: real, budget: real)
    requires policy.Exponential? && policy.base >= 0.0 && policy.cap >= 0.0
    requires |draws| == policy.maxAttempts - 1 && AllDrawable(policy, draws)
    requires r == RealMax(0.0, policy.jitter)
    requires total == Sum(Delays(policy, draws))
    requires budget == Budget(policy.base, policy.cap, |draws|)
    ensures 0.0 <= total <= (1.0 + r) * budget
  {
    DelaySum(policy, draws, r);
    RawsBudget(policy.base, policy.cap, |draws|);
    Stretch(r, total, Sum(Raws(policy.base, policy.cap, |draws|)), budget);
  }

  lemma RawsBudget(base: real, cap: real, n: nat)
    requires base >= 0.0 && cap >= 0.0
    ensures Sum(Raws(base, cap, n)) <= Budget(base, cap, n)
  {
    RawsBound(base, cap, n);
  }

  /** Successive delays do not shrink, for these two draws. */
  ghost predicate InOrder(policy: Policy, attempt: nat, u: real, v: real)
    requires 1 <= attempt && attempt + 1 < policy.maxAttempts
  {
    NextDelay(policy, attempt, u).value <= NextDelay(policy, attempt + 1, v).value
  }

  /**
   * While the raw delay is uncapped, any two successive jittered delays are in order if and only if the jitter ratio
   * is at most one third: above it the largest draw of one attempt exceeds the smallest draw of the next.
   */
  lemma JitterKeepsOrder(policy: Policy, attempt: nat)
    requires policy.Exponential? && policy.base > 0.0 && 1 <= attempt && attempt + 1 < policy.maxAttempts
    requires Doubled(policy.base, attempt) <= policy.cap
    ensures (forall u, v | && Drawable(Raw(policy.base, policy.cap, attempt), policy.jitter, u)
                           && Drawable(Raw(policy.base, policy.cap, attempt + 1), policy.jitter, v) ::
               InOrder(policy, attempt, u, v))
       <==> policy.jitter <= 1.0 / 3.0
  {
    var x, r := Doubled(policy.base, attempt - 1), policy.jitter;
    assert Raw(policy.base, policy.cap, attempt) == x > 0.0;
    assert Raw(policy.base, policy.cap, attempt + 1) == 2.0 * x;
    if r <= 1.0 / 3.0 {
      forall u, v | Drawable(x, r, u) && Drawable(2.0 * x, r, v) ensures InOrder(policy, attempt, u, v) {
        OrderedDraws(x, r, u, v);
      }
    } else {
      var u, v := WideDraws(x, r);
      assert NextDelay(policy, attempt, u).value == u;
      assert NextDelay(policy, attempt + 1, v).value == RealMax(0.0, v);
      assert !InOrder(policy, attempt, u, v);
    }
  }

  /** The ends of the two bands, in terms of the raw delay and its jitter. */
  lemma BandEnds(x: real, ratio: real, spread: real)
    requires spread == x * ratio
    ensures x * (1.0 + ratio) == x + spread
    ensures 2.0 * x * (1.0 - ratio) == 2.0 * x - 2.0 * spread
    ensures 2.0 * x * (1.0 + ratio) == 2.0 * x + 2.0 * spread
    ensures x * (1.0 - ratio) == x - spread
  {
    Distribute(x, 1.0, ratio);
    Distribute(2.0 * x, 1.0, ratio);
    Associate(x, ratio);
  }

  lemma OrderedDraws(x: real, ratio: real, u: real, v: real)
    requires x > 0.0 && ratio <= 1.0 / 3.0 && Drawable(x, ratio, u) && Drawable(2.0 * x, ratio, v)
    ensures Jittered(x, ratio, u) <= Jittered(2.0 * x, ratio, v)
  {
    var spread := x * ratio;
    BandEnds(x, ratio, spread);
    MulMono(x, ratio, 1.0 / 3.0);
    assert 3.0 * spread <= x;
    assert u <= x + spread && 2.0 * x - 2.0 * spread <= v;
  }

  lemma WideDraws(x: real, ratio: real) returns (u: real, v: real)
    requires x > 0.0 && ratio > 1.0 / 3.0
    ensures Drawable(x, ratio, u) && Drawable(2.0 * x, ratio, v)
    ensures u > v && u > 0.0
  {
    var spread := x * ratio;
    u, v := x * (1.0 + ratio), 2.0 * x * (1.0 - ratio);
    BandEnds(x, ratio, spread);
    MulMonoStrict(x, 1.0 / 3.0, ratio);
    assert 3.0 * spread > x;
  }

  lemma MulMonoStrict(x: real, a: real, b: real)
    requires x > 0.0 && a < b
    ensures x * a < x * b
  {
    Distribute(x, b, a);
    assert x * (b - a) > 0.0;
  }
}
