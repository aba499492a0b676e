/** Exponential backoff with jitter around a vendor call. */
module Retry {
  datatype FnResult<+T, +E> = Returns(value: T) | Throws(error: E)

  datatype Policy = Policy(maxRetries: int, initialDelayMs: real, backoffMultiplier: real, maxDelayMs: real, jitterMaxMs: real)

  function Min(a: real, b: real): real {
    if a <= b then a else b
  }

  function Retries(p: Policy): nat {
    if p.maxRetries < 0 then 0 else p.maxRetries
  }

  /** A call after which the loop does not try again whatever the policy says. */
  predicate Settles<T, E>(r: FnResult<T, E>, isRetryable: E -> bool) {
    r.Returns? || !isRetryable(r.error)
  }

  /** How often fn has been called when the loop leaves, `made` calls having failed so far. */
  function CallsMade<T, E>(script: nat -> FnResult<T, E>, isRetryable: E -> bool, maxRetries: int, made: nat): nat
    decreases maxRetries - made
  {
    if Settles(script(made), isRetryable) || made >= maxRetries then made + 1
    else CallsMade(script, isRetryable, maxRetries, made + 1)
  }

  /** The k-th base delay: multiplied and capped k times. */
  function BaseDelay(p: Policy, k: nat): real {
    if k == 0 then p.initialDelayMs else NextDelay(p, BaseDelay(p, k - 1))
  }

  function Grown(p: Policy, delay: real): real {
    delay * p.backoffMultiplier
  }

  function NextDelay(p: Policy, delay: real): real {
    Min(Grown(p, delay), p.maxDelayMs)
  }

  function Jitter(p: Policy, draw: real): real {
    draw * p.jitterMaxMs
  }

  function Jittered(p: Policy, delay: real, draw: real): real {
    Min(delay + Jitter(p, draw), p.maxDelayMs + p.jitterMaxMs)
  }

  function Wait(p: Policy, random: nat -> real, k: nat): real {
    Jittered(p, BaseDelay(p, k), random(k))
  }

  function Sum(s: seq<real>): real {
    if s == [] then 0.0 else Sum(s[..|s| - 1]) + s[|s| - 1]
  }

  /**
   `script(k)` is what the k-th call of fn does and `random(k)` the k-th random
   draw; `calls` and `waits` record what the loop did to the outside.
   */
  method RetryWithBackoff<T, E>(script: nat -> FnResult<T, E>, policy: Policy, isRetryable: E -> bool, random: nat -> real)
    returns (r: FnResult<T, E>, calls: nat, waits: seq<real>)
    ensures 1 <= calls && (calls == 1 || calls <= 1 + policy.maxRetries)
    ensures forall i :: 0 <= i < calls - 1 ==> script(i).Throws? && isRetryable(script(i).error)
    ensures script(calls - 1).Returns? || !isRetryable(script(calls - 1).error) || calls > policy.maxRetries
    ensures r == script(calls - 1)
    ensures calls == CallsMade(script, isRetryable, policy.maxRetries, 0)
    ensures |waits| == calls - 1
    ensures forall i :: 0 <= i < |waits| ==> waits[i] == Wait(policy, random, i)
  {
    hide NextDelay, Jittered;
    var attempt, delay := 0, policy.initialDelayMs;
    calls, waits := 0, [];
    while true
      invariant attempt == calls == |waits| <= Retries(policy)
      invariant forall i :: 0 <= i < calls ==> script(i).Throws? && isRetryable(script(i).error)
      invariant delay == BaseDelay(policy, attempt)
      invariant forall i :: 0 <= i < |waits| ==> waits[i] == Wait(policy, random, i)
      invariant CallsMade(script, isRetryable, policy.maxRetries, 0) == CallsMade(script, isRetryable, policy.maxRetries, calls)
      decreases Retries(policy) - attempt
    {
      r := script(calls);
      calls := calls + 1;
      if r.Returns? {
        return;
      }
      attempt := attempt + 1;
      if attempt > policy.maxRetries || !isRetryable(r.error) {
        return;
      }
      waits := waits + [Jittered(policy, delay, random(attempt - 1))];
      delay := NextDelay(policy, delay);
    }
  }

  /** The loop stops at the first call that returns or throws for good, or when the retries are used up, whichever comes first. */
  lemma {:induction false} CallsMadeClosedForm<T, E>(script: nat -> FnResult<T, E>, isRetryable: E -> bool, p: Policy, made: nat, first: nat)
    requires made <= first && made <= Retries(p)
    requires forall i: nat :: made <= i < first ==> script(i).Throws? && isRetryable(script(i).error)
    requires script(first).Returns? || !isRetryable(script(first).error) || first >= Retries(p)
    ensures CallsMade(script, isRetryable, p.maxRetries, made) == 1 + (if first < Retries(p) then first else Retries(p))
    decreases Retries(p) - made
  {
    if !Settles(script(made), isRetryable) && made < p.maxRetries {
      CallsMadeClosedForm(script, isRetryable, p, made + 1, first);
    }
  }

  function Pow(m: real, k: nat): real {
    if k == 0 then 1.0 else Pow(m, k - 1) * m
  }

  /** What makes it a power. */
  lemma {:induction false} PowerLaws(m: real, j: nat, k: nat)
    ensures Pow(m, 0) == 1.0 && Pow(m, 1) == m
    ensures Pow(m, j + k) == Pow(m, j) * Pow(m, k)
  {
    assert Pow(m, 1) == Pow(m, 0) * m;
    if k > 0 {
      PowerLaws(m, j, k - 1);
      assert Pow(m, j + k) == Pow(m, j) * Pow(m, k - 1) * m;
    }
  }

  lemma GrowsByFactor(d: real, m: real)
    requires d >= 0.0 && m >= 1.0
    ensures d * m >= d
  {
    NonNegative(d, m - 1.0);
    assert d * m == d + d * (m - 1.0);
  }

  /** initial * multiplier^k, the delay before any cap. */
  function Exponential(p: Policy, k: nat): real {
    p.initialDelayMs * Pow(p.backoffMultiplier, k)
  }

  lemma ExponentialStep(p: Policy, k: nat)
    ensures Exponential(p, k + 1) == Grown(p, Exponential(p, k))
  {
    assert Pow(p.backoffMultiplier, k + 1) == Pow(p.backoffMultiplier, k) * p.backoffMultiplier;
  }

  lemma {:induction false} ExponentialGrows(p: Policy, k: nat)
    requires p.backoffMultiplier >= 1.0 && p.initialDelayMs >= 0.0
    ensures Exponential(p, k) >= p.initialDelayMs
    ensures Exponential(p, k + 1) == Grown(p, Exponential(p, k))
  {
    ExponentialStep(p, k);
    if k > 0 {
      ExponentialGrows(p, k - 1);
      hide Exponential, Pow;
      GrowsByFactor(Exponential(p, k - 1), p.backoffMultiplier);
    }
  }

  lemma ExponentialBase(p: Policy)
    ensures Exponential(p, 0) == p.initialDelayMs
  {
    assert Pow(p.backoffMultiplier, 0) == 1.0;
  }

  lemma CapOnce(p: Policy, raw: real)
    requires raw >= 0.0 && p.backoffMultiplier >= 1.0 && p.maxDelayMs >= 0.0
    ensures NextDelay(p, Min(raw, p.maxDelayMs)) == Min(Grown(p, raw), p.maxDelayMs)
  {
    GrowsByFactor(raw, p.backoffMultiplier);
    GrowsByFactor(p.maxDelayMs, p.backoffMultiplier);
  }

  /** Capping at every step equals capping the uncapped exponential once. */
  lemma {:induction false} BaseDelayClosedForm(p: Policy, k: nat)
    requires p.backoffMultiplier >= 1.0 && 0.0 <= p.initialDelayMs <= p.maxDelayMs
    ensures BaseDelay(p, k) == Min(Exponential(p, k), p.maxDelayMs)
  {
    hide NextDelay, Exponential, Grown;
    if k == 0 {
      ExponentialBase(p);
    } else {
      ExponentialGrows(p, k - 1);
      BaseDelayClosedForm(p, k - 1);
      CapOnce(p, Exponential(p, k - 1));
    }
  }

  lemma WaitBounds(p: Policy, random: nat -> real, k: nat)
    requires p.backoffMultiplier >= 1.0 && 0.0 <= p.initialDelayMs <= p.maxDelayMs && p.jitterMaxMs >= 0.0
    requires 0.0 <= random(k) < 1.0
    ensures BaseDelay(p, k) <= Wait(p, random, k) <= BaseDelay(p, k) + p.jitterMaxMs
  {
    hide BaseDelay, Exponential, Jittered;
    BaseDelayClosedForm(p, k);
    JitterBounds(p, BaseDelay(p, k), random(k));
  }

  lemma WaitIsSum(p: Policy, random: nat -> real, k: nat)
    requires p.backoffMultiplier >= 1.0 && 0.0 <= p.initialDelayMs <= p.maxDelayMs && p.jitterMaxMs >= 0.0
    requires 0.0 <= random(k) < 1.0
    ensures Wait(p, random, k) == Min(Exponential(p, k), p.maxDelayMs) + Jitter(p, random(k))
  {
    hide BaseDelay, Jittered, Exponential, Jitter;
    BaseDelayClosedForm(p, k);
    JitterInRange(p, random(k));
    CapNeverActs(p, BaseDelay(p, k), random(k));
  }

  /** The exact sleep before the k-th retry: the capped power, plus the drawn share of the jitter — the outer cap never acts. */
  lemma WaitIsExact(p: Policy, random: nat -> real, k: nat)
    requires p.backoffMultiplier >= 1.0 && 0.0 <= p.initialDelayMs <= p.maxDelayMs && p.jitterMaxMs >= 0.0
    requires 0.0 <= random(k) < 1.0
    ensures var raw := p.initialDelayMs * Pow(p.backoffMultiplier, k);
            Wait(p, random, k) == (if raw <= p.maxDelayMs then raw else p.maxDelayMs) + random(k) * p.jitterMaxMs
  {
    WaitIsSum(p, random, k);
    hide Wait, Pow;
  }

  lemma CapNeverActs(p: Policy, delay: real, draw: real)
    requires delay <= p.maxDelayMs && Jitter(p, draw) <= p.jitterMaxMs
    ensures Jittered(p, delay, draw) == delay + Jitter(p, draw)
  {
    hide Jitter;
  }

  lemma JitterBounds(p: Policy, delay: real, draw: real)
    requires p.jitterMaxMs >= 0.0 && delay <= p.maxDelayMs && 0.0 <= draw < 1.0
    ensures delay <= Jittered(p, delay, draw) <= delay + p.jitterMaxMs
  {
    JitterInRange(p, draw);
    hide Jitter;
  }

  function BaseDelays(p: Policy, n: nat): real {
    if n == 0 then 0.0 else BaseDelays(p, n - 1) + BaseDelay(p, n - 1)
  }

  function JitterBudget(p: Policy, n: nat): real {
    n as real * p.jitterMaxMs
  }

  lemma JitterBudgetStep(p: Policy, n: nat)
    ensures JitterBudget(p, n + 1) == JitterBudget(p, n) + p.jitterMaxMs
  {
    assert (n + 1) as real * p.jitterMaxMs == n as real * p.jitterMaxMs + p.jitterMaxMs;
  }

  /** The total sleep of a call lies between the sum of its base delays and that sum plus the full jitter per retry. */
  lemma {:induction false} TotalWaitBounds(p: Policy, random: nat -> real, waits: seq<real>)
    requires p.backoffMultiplier >= 1.0 && 0.0 <= p.initialDelayMs <= p.maxDelayMs && p.jitterMaxMs >= 0.0
    requires forall k :: 0.0 <= random(k) < 1.0
    requires forall i :: 0 <= i < |waits| ==> waits[i] == Wait(p, random, i)
    ensures BaseDelays(p, |waits|) <= Sum(waits) <= BaseDelays(p, |waits|) + JitterBudget(p, |waits|)
  {
    if waits != [] {
      var n := |waits| - 1;
      TotalWaitBounds(p, random, waits[..n]);
      WaitBounds(p, random, n);
      JitterBudgetStep(p, n);
      hide BaseDelay, Wait, JitterBudget;
    }
  }

  lemma JitterInRange(p: Policy, draw: real)
    requires 0.0 <= draw < 1.0 && p.jitterMaxMs >= 0.0
    ensures 0.0 <= Jitter(p, draw) <= p.jitterMaxMs
  {
    NonNegative(draw, p.jitterMaxMs);
    NonNegative(1.0 - draw, p.jitterMaxMs);
    assert (1.0 - draw) * p.jitterMaxMs == p.jitterMaxMs - draw * p.jitterMaxMs;
  }

  lemma NonNegative(a: real, b: real)
    requires a >= 0.0 && b >= 0.0
    ensures a * b >= 0.0
  {}
}
