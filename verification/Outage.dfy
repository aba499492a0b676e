/**
 A vendor outage seen through the adapters' nesting: every call wraps the retry
 loop inside the breaker, calls are made one at a time, and the vendor fails
 every attempt with a retryable error.
 */
module Outage {
  import opened Common
  import opened CircuitBreaker
  import Retry

  /** One protected call, or a health check between calls. */
  datatype Act = Call(start: int, end: int, later: int) | Check(now: int)

  function Begins(a: Act): int { if a.Call? then a.start else a.now }

  function Ends(a: Act): int { if a.Call? then a.later else a.now }

  /** Each act starts when the one before it is over. */
  predicate Timely(clock: int, acts: seq<Act>)
    decreases acts
  {
    acts == [] ||
    (clock <= Begins(acts[0]) && (acts[0].Call? ==> acts[0].start <= acts[0].end <= acts[0].later) &&
     Timely(Ends(acts[0]), acts[1..]))
  }

  function Admits(c: Config, b: Breaker, a: Act): nat {
    if a.Call? && Begin(c, b, a.start).1.Some? then 1 else 0
  }

  function AfterAct(c: Config, b: Breaker, a: Act): Breaker {
    if a.Check? then GetMode(c, b, a.now)
    else
      var (b, captured) := Begin(c, b, a.start);
      if captured.None? then b else Finish(c, b, captured.value, false, a.end, a.later)
  }

  function AfterActs(c: Config, b: Breaker, acts: seq<Act>): Breaker
    decreases acts
  {
    if acts == [] then b else AfterActs(c, AfterAct(c, b, acts[0]), acts[1..])
  }

  function Admitted(c: Config, b: Breaker, acts: seq<Act>): nat
    decreases acts
  {
    if acts == [] then 0 else Admits(c, b, acts[0]) + Admitted(c, AfterAct(c, b, acts[0]), acts[1..])
  }

  function Calls(acts: seq<Act>): nat {
    if acts == [] then 0 else (if acts[0].Call? then 1 else 0) + Calls(acts[1..])
  }

  /** How often one admitted call reaches the vendor: what the retry loop makes of an endless outage. */
  function HitsPerCall<T, E>(p: Retry.Policy, vendor: nat -> Retry.FnResult<T, E>, isRetryable: E -> bool): nat {
    Retry.CallsMade(vendor, isRetryable, p.maxRetries, 0)
  }

  // ---- Opening ----

  /** The breaker after n failures inside one window that starts at `first`. */
  ghost predicate Failing(b: Breaker, n: nat, first: int) {
    && b.mode == Closed && !b.probing
    && |b.outcomes| == n
    && forall i :: 0 <= i < n ==> !b.outcomes[i].succeeded && b.outcomes[i].at >= first
  }

  lemma {:induction false} NothingPruned(outcomes: seq<Outcome>, cutoff: int)
    requires forall i :: 0 <= i < |outcomes| ==> outcomes[i].at >= cutoff && !outcomes[i].succeeded
    ensures Since(outcomes, cutoff) == outcomes && Failures(outcomes) == |outcomes|
  {
    if outcomes != [] {
      NothingPruned(outcomes[..|outcomes| - 1], cutoff);
    }
  }

  lemma {:induction false} NeverClosesAgain(c: Config, b: Breaker, acts: seq<Act>)
    requires b.mode != Closed
    ensures AfterActs(c, b, acts).mode != Closed
    decreases acts
  {
    if acts != [] {
      NeverClosesAgain(c, AfterAct(c, b, acts[0]), acts[1..]);
    }
  }

  /** One more failure in the window: the breaker opens, or has one failure more. */
  lemma OneMoreFailure(c: Config, b: Breaker, n: nat, first: int, a: Act)
    requires a.Call? && Failing(b, n, first) && first <= a.end <= first + c.rollingWindowMs
    ensures var b' := AfterAct(c, b, a);
            if n + 1 >= c.minimumRequestsInWindow && c.failureThresholdPercent <= 100 then b'.mode != Closed else Failing(b', n + 1, first)
  {
    var failed := b.outcomes + [Outcome(a.end, false)];
    NothingPruned(failed, a.end - c.rollingWindowMs);
    PercentOf(n + 1, c.failureThresholdPercent);
    assert Trips(c, failed) <==> n + 1 >= c.minimumRequestsInWindow && c.failureThresholdPercent <= 100;
    assert Record(c, b, false, a.end).outcomes == failed;
    hide Trips, Since, Failures, Record;
  }

  /**
   With every call inside one window, the breaker is still closed exactly while
   fewer calls than the configured minimum (and at least one) have been made,
   or for ever when the threshold is above 100 percent.
   */
  lemma {:induction false} OpensExactlyAtMinimum(c: Config, b: Breaker, n: nat, first: int, acts: seq<Act>)
    requires Failing(b, n, first) && (n == 0 || n < c.minimumRequestsInWindow || c.failureThresholdPercent > 100)
    requires forall a :: a in acts && a.Call? ==> first <= a.end <= first + c.rollingWindowMs
    ensures AfterActs(c, b, acts).mode == Closed <==>
            (c.failureThresholdPercent > 100 || Calls(acts) == 0 || n + Calls(acts) < c.minimumRequestsInWindow)
    decreases acts
  {
    if acts != [] {
      var a, rest := acts[0], acts[1..];
      var b' := AfterAct(c, b, a);
      if a.Call? {
        OneMoreFailure(c, b, n, first, a);
        hide AfterAct, Failing;
        if n + 1 >= c.minimumRequestsInWindow && c.failureThresholdPercent <= 100 {
          NeverClosesAgain(c, b', rest);
        } else {
          OpensExactlyAtMinimum(c, b', n + 1, first, rest);
        }
      } else {
        OpensExactlyAtMinimum(c, b', n, first, rest);
      }
    }
  }

  lemma PercentOf(n: nat, threshold: int)
    requires n > 0
    ensures n * 100 >= threshold * n <==> threshold <= 100
  {
    if threshold > 100 {
      assert threshold * n == 100 * n + (threshold - 100) * n;
    } else {
      assert 100 * n == threshold * n + (100 - threshold) * n;
    }
  }

  // ---- A call that outlasts the opening ----

  function Minimum(c: Config): nat {
    if c.minimumRequestsInWindow < 1 then 1 else c.minimumRequestsInWindow
  }

  /** One call that stays pending, and k calls that fail, all at time 0. */
  function Burst(k: nat): seq<Action> {
    if k == 0 then [Start(0)] else Burst(k - 1) + [Start(0)] + [End(Closed, false, 0, 0)]
  }

  /** After k failures: still closed below the minimum, opened at it, and the older call is pending throughout. */
  ghost predicate AfterBurst(c: Config, w: World, k: nat) {
    && w.closedPending == 1 && w.probesPending == 0 && w.clock == 0 && !w.b.probing
    && |w.b.outcomes| == k && (forall i :: 0 <= i < k ==> w.b.outcomes[i] == Outcome(0, false))
    && (if k < Minimum(c) then w.b.mode == Closed else w.b.mode == Open && w.b.openedAt == Some(0))
  }

  lemma ClosedStarts(c: Config, w: World)
    requires w.b.mode == Closed
    ensures Enabled(w, Start(w.clock)) && Next(c, w, Start(w.clock)) == w.(closedPending := w.closedPending + 1)
  {}

  /** A failure right now, with everything remembered being a failure right now. */
  lemma ClosedFails(c: Config, w: World, failed: seq<Outcome>)
    requires w.b.mode == Closed && w.closedPending > 0 && failed == w.b.outcomes + [Outcome(w.clock, false)]
    requires Since(failed, w.clock - c.rollingWindowMs) == failed
    ensures var w' := Next(c, w, End(Closed, false, w.clock, w.clock));
            && w'.closedPending == w.closedPending - 1 && w'.probesPending == w.probesPending && w'.clock == w.clock && !w'.b.probing
            && w'.b.outcomes == failed
            && (if Trips(c, failed) then w'.b.mode == Open && w'.b.openedAt == Some(w.clock) else w'.b.mode == Closed)
  {
    hide Trips, Since;
  }

  lemma BurstStep(c: Config, w: World, k: nat)
    requires c.failureThresholdPercent <= 100 && c.rollingWindowMs >= 0 && k < Minimum(c) && AfterBurst(c, w, k)
    ensures Enabled(w, Start(0)) && Enabled(Next(c, w, Start(0)), End(Closed, false, 0, 0))
    ensures AfterBurst(c, Next(c, Next(c, w, Start(0)), End(Closed, false, 0, 0)), k + 1)
  {
    var failed := w.b.outcomes + [Outcome(0, false)];
    NothingPruned(failed, 0 - c.rollingWindowMs);
    PercentOf(k + 1, c.failureThresholdPercent);
    assert Trips(c, failed) <==> k + 1 >= c.minimumRequestsInWindow;
    hide Trips, Since, Failures;
    ClosedStarts(c, w);
    var w1 := Next(c, w, Start(0));
    hide Next;
    ClosedFails(c, w1, failed);
  }

  lemma {:induction false} BurstRuns(c: Config, k: nat)
    requires c.failureThresholdPercent <= 100 && c.rollingWindowMs >= 0 && k <= Minimum(c)
    ensures Possible(c, NewWorld(0), Burst(k)) && AfterBurst(c, Run(c, NewWorld(0), Burst(k)), k)
  {
    if k == 0 {
      assert [Start(0)][1..] == [];
      assert Run(c, Next(c, NewWorld(0), Start(0)), []) == Next(c, NewWorld(0), Start(0));
    } else {
      BurstRuns(c, k - 1);
      BurstStep(c, Run(c, NewWorld(0), Burst(k - 1)), k - 1);
      hide AfterBurst;
      RunSnoc(c, NewWorld(0), Burst(k - 1), Start(0));
      RunSnoc(c, NewWorld(0), Burst(k - 1) + [Start(0)], End(Closed, false, 0, 0));
    }
  }

  /** The run that spoils a probing phase: enough failures while one call is still out, then the timeout — and two probes get through. */
  lemma OlderCallSpoilsProbing(c: Config) returns (before: seq<Action>, phase: seq<Action>)
    requires c.failureThresholdPercent <= 100 && c.rollingWindowMs >= 0 && c.openStateTimeoutMs >= 0
    ensures Possible(c, NewWorld(0), before)
    ensures var w := Run(c, NewWorld(0), before);
            && w.b.mode == HalfOpen && !w.b.probing && w.closedPending == 1 && w.probesPending == 0
            && StaysHalfOpen(c, w, phase) && Possible(c, w, phase) && Run(c, w, phase).probesPending == 2
  {
    var n := Minimum(c);
    BurstRuns(c, n);
    RunSnoc(c, NewWorld(0), Burst(n), Health(c.openStateTimeoutMs));
    before := Burst(n) + [Health(c.openStateTimeoutMs)];
    var w := Run(c, NewWorld(0), before);
    hide Burst, Run, Possible;
    SecondProbeGetsThrough(c, w);
    phase := SecondProbe(w.clock);
  }

  // ---- Staying open ----

  /** Not closed, no probe pending, and HALF_OPEN only once the timeout since the opening is over. */
  predicate HeldOpen(c: Config, b: Breaker, clock: int) {
    b.mode != Closed && b.openedAt.Some? && !b.probing &&
    (b.mode == HalfOpen ==> clock - b.openedAt.value >= c.openStateTimeoutMs)
  }

  /** A call let through comes a whole timeout after the opening, and opens the breaker again. */
  lemma HeldStep(c: Config, b: Breaker, clock: int, a: Act)
    requires HeldOpen(c, b, clock) && b.openedAt.value <= clock <= Begins(a)
    requires a.Call? ==> a.start <= a.end <= a.later
    ensures var b' := AfterAct(c, b, a);
            && HeldOpen(c, b', Ends(a)) && b'.openedAt.value <= Ends(a)
            && (if Admits(c, b, a) == 1 then Begins(a) - b.openedAt.value >= c.openStateTimeoutMs && b'.openedAt.value >= Begins(a)
                else b'.openedAt == b.openedAt)
  {
    hide Trips, Since;
  }

  function Times(n: nat, step: int): int {
    n * step
  }

  lemma TimesNext(n: nat, step: int)
    ensures Times(n + 1, step) == Times(n, step) + step && Times(1, step) == step
  {
    assert (n + 1) * step == n * step + step;
  }

  lemma {:induction false} ProbesTakeTime(c: Config, b: Breaker, clock: int, acts: seq<Act>, until: int)
    requires HeldOpen(c, b, clock) && b.openedAt.value <= clock && Timely(clock, acts)
    requires forall a :: a in acts ==> Begins(a) <= until
    ensures Admitted(c, b, acts) > 0 ==> Times(Admitted(c, b, acts), c.openStateTimeoutMs) <= until - b.openedAt.value
    decreases acts
  {
    hide Times;
    if acts != [] {
      var a, b' := acts[0], AfterAct(c, b, acts[0]);
      HeldStep(c, b, clock, a);
      hide AfterAct, HeldOpen;
      ProbesTakeTime(c, b', Ends(a), acts[1..], until);
      assert a in acts;
      TimesNext(Admitted(c, b', acts[1..]), c.openStateTimeoutMs);
    }
  }

  /** Calls let through before `until`, each a whole timeout after the last opening, fit into the time since then. */
  lemma ProbesAreSpaced(c: Config, b: Breaker, clock: int, acts: seq<Act>, until: int)
    requires HeldOpen(c, b, clock) && b.openedAt.value <= clock && Timely(clock, acts)
    requires forall a :: a in acts ==> Begins(a) <= until
    ensures Admitted(c, b, acts) > 0 ==> Admitted(c, b, acts) * c.openStateTimeoutMs <= until - b.openedAt.value
  {
    ProbesTakeTime(c, b, clock, acts, until);
    hide Admitted, HeldOpen, Timely;
  }

  lemma MultiplyMonotone(a: int, b: int, k: int)
    requires k >= 0
    ensures a <= b ==> a * k <= b * k
  {
    if a <= b {
      assert b * k == a * k + (b - a) * k;
    }
  }

  lemma AtMostQuotient(n: nat, step: int, total: int)
    requires step > 0 && total >= 0 && n * step <= total
    ensures n <= total / step
  {
    var q := total / step;
    assert total < q * step + step;
    assert (q + 1) * step == q * step + step;
    MultiplyMonotone(q + 1, n, step);
  }

  lemma {:induction false} AfterActsSnoc(c: Config, b: Breaker, acts: seq<Act>, last: Act)
    ensures AfterActs(c, b, acts + [last]) == AfterAct(c, AfterActs(c, b, acts), last)
    decreases acts
  {
    if acts == [] {
      assert acts + [last] == [last];
    } else {
      assert (acts + [last])[1..] == acts[1..] + [last];
      AfterActsSnoc(c, AfterAct(c, b, acts[0]), acts[1..], last);
    }
  }

  lemma {:induction false} CallsSnoc(acts: seq<Act>, last: Act)
    ensures Calls(acts + [last]) == Calls(acts) + Calls([last])
  {
    if acts == [] {
      assert acts + [last] == [last];
    } else {
      assert (acts + [last])[1..] == acts[1..] + [last];
      CallsSnoc(acts[1..], last);
    }
  }

  /** The call that completes the minimum opens the breaker, and opens it when it ends. */
  lemma MinimumCallOpens(c: Config, first: int, acts: seq<Act>, last: Act)
    requires c.minimumRequestsInWindow >= 1 && c.failureThresholdPercent <= 100
    requires forall a :: a in acts + [last] && a.Call? ==> first <= a.end <= first + c.rollingWindowMs
    requires last.Call? && Calls(acts) + 1 == c.minimumRequestsInWindow
    ensures AfterActs(c, FRESH, acts).mode == Closed
    ensures var b := AfterActs(c, FRESH, acts + [last]);
            b.mode == Open && b.openedAt == Some(last.later) && !b.probing
  {
    CallsSnoc(acts, last);
    assert forall a :: a in acts ==> a in acts + [last];
    OpensExactlyAtMinimum(c, FRESH, 0, first, acts);
    OpensExactlyAtMinimum(c, FRESH, 0, first, acts + [last]);
    AfterActsSnoc(c, FRESH, acts, last);
    hide Trips, Since;
  }

  /** From an opening on, the vendor is reached at most floor(T / timeout) * (maxRetries + 1) times by calls started within T. */
  lemma HitsWhileOpen<T, E>(c: Config, p: Retry.Policy, vendor: nat -> Retry.FnResult<T, E>, isRetryable: E -> bool,
                            b: Breaker, acts: seq<Act>, t: nat)
    requires forall k :: vendor(k).Throws? && isRetryable(vendor(k).error)
    requires c.openStateTimeoutMs > 0 && p.maxRetries >= 0
    requires b.mode == Open && b.openedAt.Some? && !b.probing
    requires Timely(b.openedAt.value, acts)
    requires forall a :: a in acts ==> Begins(a) <= b.openedAt.value + t
    ensures Admitted(c, b, acts) * HitsPerCall(p, vendor, isRetryable) <= (t / c.openStateTimeoutMs) * (p.maxRetries + 1)
  {
    var n := Admitted(c, b, acts);
    Retry.CallsMadeClosedForm(vendor, isRetryable, p, 0, Retry.Retries(p));
    ProbesAreSpaced(c, b, b.openedAt.value, acts, b.openedAt.value + t);
    if n > 0 {
      AtMostQuotient(n, c.openStateTimeoutMs, t);
    }
    MultiplyMonotone(n, t / c.openStateTimeoutMs, p.maxRetries + 1);
  }

  /**
   The outage bound, on a breaker as constructed: it stays closed for one call
   less than the minimum, opens with the next, and within any time T of that
   opening lets at most floor(T / timeout) * (maxRetries + 1) attempts through.
   */
  lemma OutageBound<T, E>(c: Config, p: Retry.Policy, vendor: nat -> Retry.FnResult<T, E>, isRetryable: E -> bool,
                          first: int, acts: seq<Act>, last: Act, during: seq<Act>, t: nat)
    requires forall k :: vendor(k).Throws? && isRetryable(vendor(k).error)
    requires c.openStateTimeoutMs > 0 && p.maxRetries >= 0
    requires c.minimumRequestsInWindow >= 1 && c.failureThresholdPercent <= 100
    requires forall a :: a in acts + [last] && a.Call? ==> first <= a.end <= first + c.rollingWindowMs
    requires last.Call? && Calls(acts) + 1 == c.minimumRequestsInWindow
    requires Timely(last.later, during)
    requires forall a :: a in during ==> Begins(a) <= last.later + t
    ensures AfterActs(c, FRESH, acts).mode == Closed
    ensures AfterActs(c, FRESH, acts + [last]).mode == Open
    ensures Admitted(c, AfterActs(c, FRESH, acts + [last]), during) * HitsPerCall(p, vendor, isRetryable)
            <= (t / c.openStateTimeoutMs) * (p.maxRetries + 1)
  {
    MinimumCallOpens(c, first, acts, last);
    HitsWhileOpen(c, p, vendor, isRetryable, AfterActs(c, FRESH, acts + [last]), during, t);
  }
}
