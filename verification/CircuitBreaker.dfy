/**
 The per-vendor circuit breaker. A protected call is two atomic steps, `Begin`
 and `Finish`, because other calls run between them; the mode captured by
 `Begin` belongs to the call. Clock readings are parameters and never decrease.
 */
module CircuitBreaker {
  import opened Common

  datatype Mode = Closed | Open | HalfOpen

  datatype Config = Config(failureThresholdPercent: int, rollingWindowMs: int, minimumRequestsInWindow: int, openStateTimeoutMs: int)

  datatype Outcome = Outcome(at: int, succeeded: bool)

  /** What transition listeners are told. */
  datatype Change = Change(from: Mode, to: Mode)

  datatype Breaker = Breaker(mode: Mode, outcomes: seq<Outcome>, openedAt: Option<int>, probing: bool, changes: seq<Change>)

  const FRESH := Breaker(Closed, [], None, false, [])

  function TransitionTo(b: Breaker, m: Mode, now: int): Breaker {
    if b.mode == m then b
    else Breaker(m,
                 if m == Closed then [] else b.outcomes,
                 if m == Open then Some(now) else if m == Closed then None else b.openedAt,
                 b.probing,
                 b.changes + [Change(b.mode, m)])
  }

  function GetMode(c: Config, b: Breaker, now: int): Breaker {
    if b.mode == Open && b.openedAt.Some? && now - b.openedAt.value >= c.openStateTimeoutMs
    then TransitionTo(b, HalfOpen, now) else b
  }

  /** The start of a protected call: `None` when it is short-circuited, else the captured mode. */
  function Begin(c: Config, b: Breaker, now: int): (Breaker, Option<Mode>) {
    var b := GetMode(c, b, now);
    if b.mode == Open || (b.mode == HalfOpen && b.probing) then (b, None)
    else if b.mode == HalfOpen then (b.(probing := true), Some(HalfOpen))
    else (b, Some(Closed))
  }

  /** The outcomes no older than the cutoff, in order. */
  function Since(outcomes: seq<Outcome>, cutoff: int): seq<Outcome> {
    if outcomes == [] then []
    else Since(outcomes[..|outcomes| - 1], cutoff) +
         (if outcomes[|outcomes| - 1].at >= cutoff then outcomes[|outcomes| - 1..] else [])
  }

  function Failures(outcomes: seq<Outcome>): nat {
    if outcomes == [] then 0
    else Failures(outcomes[..|outcomes| - 1]) + (if outcomes[|outcomes| - 1].succeeded then 0 else 1)
  }

  /** Enough requests, and a failure rate at or above the threshold; with no requests the rate is not a number. */
  predicate Trips(c: Config, recent: seq<Outcome>) {
    |recent| >= c.minimumRequestsInWindow && |recent| > 0 &&
    Failures(recent) * 100 >= c.failureThresholdPercent * |recent|
  }

  function Record(c: Config, b: Breaker, ok: bool, now: int): Breaker {
    b.(outcomes := Since(b.outcomes + [Outcome(now, ok)], now - c.rollingWindowMs))
  }

  /** The end of a protected call; `later` is the second clock reading of the same step. */
  function Finish(c: Config, b: Breaker, captured: Mode, ok: bool, now: int, later: int): Breaker {
    var b := Record(c, b, ok, now);
    var b := if captured == HalfOpen then TransitionTo(b, if ok then Closed else Open, later)
             else if !ok && Trips(c, b.outcomes) then TransitionTo(b, Open, later)
             else b;
    b.(probing := false)
  }

  // ---- Interleaved runs ----

  /** The breaker with its pending calls, the latest clock reading, and every outcome recorded since it last closed. */
  datatype World = World(b: Breaker, closedPending: nat, probesPending: nat, clock: int, log: seq<Outcome>)

  datatype Action =
    | Start(now: int)
    | End(captured: Mode, ok: bool, now: int, later: int)
    | Health(now: int)

  predicate Enabled(w: World, a: Action) {
    match a
    case Start(now) => w.clock <= now
    case Health(now) => w.clock <= now
    case End(captured, _, now, later) =>
      w.clock <= now <= later &&
      ((captured == Closed && w.closedPending > 0) || (captured == HalfOpen && w.probesPending > 0))
  }

  function Next(c: Config, w: World, a: Action): World
    requires Enabled(w, a)
  {
    match a
    case Start(now) =>
      var (b, admitted) := Begin(c, w.b, now);
      World(b, w.closedPending + (if admitted == Some(Closed) then 1 else 0),
            w.probesPending + (if admitted == Some(HalfOpen) then 1 else 0), now, w.log)
    case Health(now) => w.(b := GetMode(c, w.b, now), clock := now)
    case End(captured, ok, now, later) =>
      var b := Finish(c, w.b, captured, ok, now, later);
      World(b, w.closedPending - (if captured == Closed then 1 else 0),
            w.probesPending - (if captured == HalfOpen then 1 else 0), later,
            if b.mode == Closed && w.b.mode != Closed then [] else w.log + [Outcome(now, ok)])
  }

  predicate Possible(c: Config, w: World, actions: seq<Action>)
    decreases actions
  {
    actions == [] || (Enabled(w, actions[0]) && Possible(c, Next(c, w, actions[0]), actions[1..]))
  }

  function Run(c: Config, w: World, actions: seq<Action>): World
    requires Possible(c, w, actions)
    decreases actions
  {
    if actions == [] then w else Run(c, Next(c, w, actions[0]), actions[1..])
  }

  function NewWorld(clock: int): World {
    World(FRESH, 0, 0, clock, [])
  }

  // ---- What every interleaving keeps ----

  predicate Linked(from: Mode, changes: seq<Change>, to: Mode) {
    if changes == [] then from == to
    else changes[|changes| - 1].to == to && Linked(from, changes[..|changes| - 1], changes[|changes| - 1].from)
  }

  predicate Ordered(log: seq<Outcome>, clock: int) {
    (forall i :: 0 <= i < |log| ==> log[i].at <= clock) &&
    (forall i, j :: 0 <= i < j < |log| ==> log[i].at <= log[j].at)
  }

  /** CLOSED has no opening time, OPEN and HALF_OPEN have one not in the future; the changes link up; the window is the log, pruned. */
  ghost predicate Sound(c: Config, w: World) {
    && (w.b.mode == Closed <==> w.b.openedAt == None)
    && (w.b.openedAt.Some? ==> w.b.openedAt.value <= w.clock)
    && (w.b.mode == HalfOpen ==> w.clock - w.b.openedAt.value >= c.openStateTimeoutMs)
    && Linked(Closed, w.b.changes, w.b.mode)
    && Ordered(w.log, w.clock)
    && w.b.outcomes == if w.log == [] then [] else Since(w.log, w.log[|w.log| - 1].at - c.rollingWindowMs)
  }

  lemma {:induction false} SincePrune(log: seq<Outcome>, early: int, late: int)
    requires early <= late
    ensures Since(Since(log, early), late) == Since(log, late)
  {
    if log != [] {
      var front, o := log[..|log| - 1], log[|log| - 1];
      SincePrune(front, early, late);
      assert log == front + [o];
      SinceSnoc(front, o, early);
      SinceSnoc(front, o, late);
      SinceSnoc(Since(front, early), o, late);
    }
  }

  lemma SinceSnoc(log: seq<Outcome>, o: Outcome, cutoff: int)
    ensures Since(log + [o], cutoff) == if o.at >= cutoff then Since(log, cutoff) + [o] else Since(log, cutoff)
  {
    assert (log + [o])[..|log|] == log;
    assert (log + [o])[|log|..] == [o];
  }

  /** Pruning at every recording loses nothing the current window still needs. */
  lemma WindowIsPrunedLog(c: Config, w: World, o: Outcome)
    requires Sound(c, w) && w.clock <= o.at
    ensures Since(w.b.outcomes + [o], o.at - c.rollingWindowMs) == Since(w.log + [o], o.at - c.rollingWindowMs)
  {
    var cutoff := o.at - c.rollingWindowMs;
    SinceSnoc(w.b.outcomes, o, cutoff);
    SinceSnoc(w.log, o, cutoff);
    if w.log != [] {
      SincePrune(w.log, w.log[|w.log| - 1].at - c.rollingWindowMs, cutoff);
    }
  }

  lemma LinkedSnoc(from: Mode, changes: seq<Change>, m: Mode, to: Mode)
    requires Linked(from, changes, m)
    ensures Linked(from, changes + [Change(m, to)], to)
  {
    assert (changes + [Change(m, to)])[..|changes|] == changes;
  }

  lemma SoundBegin(c: Config, w: World, a: Action)
    requires Sound(c, w) && Enabled(w, a) && !a.End?
    ensures Sound(c, Next(c, w, a))
  {
    LinkedSnoc(Closed, w.b.changes, w.b.mode, HalfOpen);
    hide Linked, Since;
  }

  /** The mode a finished call asks for. */
  function Wanted(c: Config, b: Breaker, captured: Mode, ok: bool): Mode {
    if captured == HalfOpen then (if ok then Closed else Open) else if !ok && Trips(c, b.outcomes) then Open else b.mode
  }

  lemma FinishIsOneChange(c: Config, b: Breaker, captured: Mode, ok: bool, now: int, later: int)
    ensures var recorded := Record(c, b, ok, now);
            Finish(c, b, captured, ok, now, later) == TransitionTo(recorded, Wanted(c, recorded, captured, ok), later).(probing := false)
  {}

  /** Recording an outcome, with the mode as it is. */
  lemma SoundRecord(c: Config, w: World, ok: bool, now: int, later: int)
    requires Sound(c, w) && w.clock <= now <= later
    ensures Sound(c, w.(b := Record(c, w.b, ok, now), clock := later, log := w.log + [Outcome(now, ok)]))
  {
    var o := Outcome(now, ok);
    var log := w.log + [o];
    WindowIsPrunedLog(c, w, o);
    assert Ordered(log, later);
    assert log[|log| - 1] == o;
    hide Since, Linked, Ordered;
  }

  /** A change of mode; closing starts a new history. */
  lemma SoundChange(c: Config, w: World, m: Mode)
    requires Sound(c, w) && (m == HalfOpen ==> w.b.mode == HalfOpen)
    ensures Sound(c, w.(b := TransitionTo(w.b, m, w.clock), log := if m == Closed && w.b.mode != Closed then [] else w.log))
  {
    LinkedSnoc(Closed, w.b.changes, w.b.mode, m);
    hide Since, Linked;
  }

  lemma PendingCallsDoNotMatter(c: Config, w: World, w': World)
    requires Sound(c, w) && w'.clock == w.clock && w'.log == w.log && w'.b.(probing := w.b.probing) == w.b
    ensures Sound(c, w')
  {
    hide Linked, Ordered, Since;
  }

  lemma SoundEnd(c: Config, w: World, a: Action)
    requires Sound(c, w) && Enabled(w, a) && a.End?
    ensures Sound(c, Next(c, w, a))
  {
    var recorded := w.(b := Record(c, w.b, a.ok, a.now), clock := a.later, log := w.log + [Outcome(a.now, a.ok)]);
    FinishIsOneChange(c, w.b, a.captured, a.ok, a.now, a.later);
    SoundRecord(c, w, a.ok, a.now, a.later);
    var m := Wanted(c, recorded.b, a.captured, a.ok);
    hide Trips;
    assert m == HalfOpen ==> w.b.mode == HalfOpen;
    assert recorded.b.mode == w.b.mode;
    hide Record, Wanted, Finish;
    SoundChange(c, recorded, m);
    var changed := recorded.(b := TransitionTo(recorded.b, m, a.later), log := if m == Closed && w.b.mode != Closed then [] else recorded.log);
    assert changed.b.mode == m;
    hide TransitionTo, Sound;
    PendingCallsDoNotMatter(c, changed, Next(c, w, a));
  }

  lemma SoundStep(c: Config, w: World, a: Action)
    requires Sound(c, w) && Enabled(w, a)
    ensures Sound(c, Next(c, w, a))
  {
    if a.End? {
      SoundEnd(c, w, a);
    } else {
      SoundBegin(c, w, a);
    }
  }

  lemma {:induction false} SoundRun(c: Config, w: World, actions: seq<Action>)
    requires Sound(c, w) && Possible(c, w, actions)
    ensures Sound(c, Run(c, w, actions))
    decreases actions
  {
    if actions != [] {
      SoundStep(c, w, actions[0]);
      SoundRun(c, Next(c, w, actions[0]), actions[1..]);
    }
  }

  /**
   In every run: CLOSED is exactly "no opening time", the announced changes
   form one chain from CLOSED to the current mode, and no call is let through
   until the open timeout has passed.
   */
  lemma BreakerProtocol(c: Config, clock: int, actions: seq<Action>, now: int)
    requires Possible(c, NewWorld(clock), actions)
    ensures var w := Run(c, NewWorld(clock), actions);
            && (w.b.mode == Closed <==> w.b.openedAt == None)
            && Linked(Closed, w.b.changes, w.b.mode)
            && (w.clock <= now && Begin(c, w.b, now).1.Some? && w.b.mode != Closed ==>
                  now - w.b.openedAt.value >= c.openStateTimeoutMs)
  {
    SoundRun(c, NewWorld(clock), actions);
  }

  lemma ClosedEnds(c: Config, recorded: Breaker, ok: bool, later: int)
    ensures var m := Wanted(c, recorded, Closed, ok);
            var b := TransitionTo(recorded, m, later);
            b.outcomes == recorded.outcomes && b.mode == if !ok && Trips(c, recorded.outcomes) then Open else recorded.mode
  {
    hide Trips;
  }

  lemma RecordedWindow(c: Config, w: World, ok: bool, now: int)
    requires Sound(c, w) && w.clock <= now
    ensures Record(c, w.b, ok, now).outcomes == Since(w.log + [Outcome(now, ok)], now - c.rollingWindowMs)
    ensures Record(c, w.b, ok, now).mode == w.b.mode
  {
    WindowIsPrunedLog(c, w, Outcome(now, ok));
    hide Sound, Since;
  }

  lemma ThresholdInSoundWorld(c: Config, w: World, ok: bool, now: int, later: int)
    requires Sound(c, w) && w.clock <= now
    ensures var recent := Since(w.log + [Outcome(now, ok)], now - c.rollingWindowMs);
            var b := Finish(c, w.b, Closed, ok, now, later);
            b.outcomes == recent && b.mode == if !ok && Trips(c, recent) then Open else w.b.mode
  {
    hide Sound, Since, Trips, Record, Finish, Wanted, TransitionTo;
    RecordedWindow(c, w, ok, now);
    FinishIsOneChange(c, w.b, Closed, ok, now, later);
    ClosedEnds(c, Record(c, w.b, ok, now), ok, later);
  }

  /** `Failures` counts exactly the outcomes that did not succeed. */
  lemma {:induction false} FailuresAreCounted(outcomes: seq<Outcome>)
    ensures Failures(outcomes) == |set i | 0 <= i < |outcomes| && !outcomes[i].succeeded|
  {
    if outcomes != [] {
      var front, last := outcomes[..|outcomes| - 1], outcomes[|outcomes| - 1];
      FailuresAreCounted(front);
      var before := set i | 0 <= i < |front| && !front[i].succeeded;
      assert (set i | 0 <= i < |outcomes| && !outcomes[i].succeeded) == before + (if last.succeeded then {} else {|front|});
    }
  }

  lemma {:induction false} WindowLength(outcomes: seq<Outcome>, cutoff: int)
    ensures |Since(outcomes, cutoff)| == |set i | 0 <= i < |outcomes| && outcomes[i].at >= cutoff|
  {
    if outcomes != [] {
      var front, last := outcomes[..|outcomes| - 1], outcomes[|outcomes| - 1];
      WindowLength(front, cutoff);
      var recent := set i | 0 <= i < |front| && front[i].at >= cutoff;
      assert (set i | 0 <= i < |outcomes| && outcomes[i].at >= cutoff) == recent + (if last.at >= cutoff then {|front|} else {});
    }
  }

  lemma FailuresSnoc(outcomes: seq<Outcome>, o: Outcome)
    ensures Failures(outcomes + [o]) == Failures(outcomes) + (if o.succeeded then 0 else 1)
  {
    assert (outcomes + [o])[..|outcomes|] == outcomes;
  }

  lemma {:induction false} WindowFailures(outcomes: seq<Outcome>, cutoff: int)
    ensures Failures(Since(outcomes, cutoff)) == |set i | 0 <= i < |outcomes| && outcomes[i].at >= cutoff && !outcomes[i].succeeded|
  {
    if outcomes != [] {
      var front, last := outcomes[..|outcomes| - 1], outcomes[|outcomes| - 1];
      WindowFailures(front, cutoff);
      SinceSnoc(front, last, cutoff);
      FailuresSnoc(Since(front, cutoff), last);
      assert outcomes == front + [last];
      hide Since, Failures;
      FailedPositions(front, last, cutoff);
    }
  }

  lemma FailedPositions(front: seq<Outcome>, last: Outcome, cutoff: int)
    ensures var outcomes := front + [last];
            |set i | 0 <= i < |outcomes| && outcomes[i].at >= cutoff && !outcomes[i].succeeded|
            == |set i | 0 <= i < |front| && front[i].at >= cutoff && !front[i].succeeded| + (if last.at >= cutoff && !last.succeeded then 1 else 0)
  {
    var outcomes := front + [last];
    var failed := set i | 0 <= i < |front| && front[i].at >= cutoff && !front[i].succeeded;
    var all := set i | 0 <= i < |outcomes| && outcomes[i].at >= cutoff && !outcomes[i].succeeded;
    assert all == failed + (if last.at >= cutoff && !last.succeeded then {|front|} else {});
  }

  /** What is left after pruning, in numbers: the outcomes no older than the cutoff, and the failures among them. */
  lemma WindowIsCounted(outcomes: seq<Outcome>, cutoff: int)
    ensures |Since(outcomes, cutoff)| == |set i | 0 <= i < |outcomes| && outcomes[i].at >= cutoff|
    ensures Failures(Since(outcomes, cutoff)) == |set i | 0 <= i < |outcomes| && outcomes[i].at >= cutoff && !outcomes[i].succeeded|
  {
    WindowLength(outcomes, cutoff);
    WindowFailures(outcomes, cutoff);
  }

  /** Pruning goes through a list piece by piece, keeping the order. */
  lemma {:induction false} SinceConcat(a: seq<Outcome>, b: seq<Outcome>, cutoff: int)
    ensures Since(a + b, cutoff) == Since(a, cutoff) + Since(b, cutoff)
  {
    if b == [] {
      assert a + b == a;
    } else {
      var front, last := b[..|b| - 1], b[|b| - 1];
      assert a + b == (a + front) + [last] && b == front + [last];
      SinceConcat(a, front, cutoff);
      hide Since;
      SinceSnoc(a + front, last, cutoff);
      SinceSnoc(front, last, cutoff);
    }
  }

  lemma TripsIsCounted(c: Config, log: seq<Outcome>, cutoff: int)
    ensures var n := |set i | 0 <= i < |log| && log[i].at >= cutoff|;
            var failed := |set i | 0 <= i < |log| && log[i].at >= cutoff && !log[i].succeeded|;
            && |Since(log, cutoff)| == n
            && (Trips(c, Since(log, cutoff)) <==> n >= c.minimumRequestsInWindow && n > 0 && failed * 100 >= c.failureThresholdPercent * n)
  {
    WindowIsCounted(log, cutoff);
    hide Since, Failures;
  }

  /**
   The end of a call that started CLOSED: if it succeeded the mode stays as it
   is; if it failed, the breaker opens exactly when, of all outcomes recorded
   since it last closed, those within the rolling window are enough and the
   failures among them reach the threshold.
   */
  lemma ThresholdAgreesWithLog(c: Config, clock: int, actions: seq<Action>, ok: bool, now: int, later: int)
    requires Possible(c, NewWorld(clock), actions)
    requires Enabled(Run(c, NewWorld(clock), actions), End(Closed, ok, now, later))
    ensures var w := Run(c, NewWorld(clock), actions);
            var log, cutoff := w.log + [Outcome(now, ok)], now - c.rollingWindowMs;
            var n := |set i | 0 <= i < |log| && log[i].at >= cutoff|;
            var failed := |set i | 0 <= i < |log| && log[i].at >= cutoff && !log[i].succeeded|;
            var w' := Next(c, w, End(Closed, ok, now, later));
            && |w'.b.outcomes| == n
            && w'.b.mode == if !ok && n >= c.minimumRequestsInWindow && n > 0 && failed * 100 >= c.failureThresholdPercent * n
                            then Open else w.b.mode
  {
    SoundRun(c, NewWorld(clock), actions);
    var w := Run(c, NewWorld(clock), actions);
    hide Run, Possible, Sound, Since, Failures, Trips, Finish;
    TripsIsCounted(c, w.log + [Outcome(now, ok)], now - c.rollingWindowMs);
    ThresholdInSoundWorld(c, w, ok, now, later);
  }

  lemma {:induction false} OnlyProbingWhenHalfOpen(c: Config, w: World, actions: seq<Action>)
    requires Possible(c, w, actions) && (w.b.probing ==> w.b.mode == HalfOpen)
    ensures var b := Run(c, w, actions).b;
            b.probing ==> b.mode == HalfOpen
    decreases actions
  {
    if actions != [] {
      OnlyProbingWhenHalfOpen(c, Next(c, w, actions[0]), actions[1..]);
    }
  }

  /**
   Recovery: after any run that left the breaker OPEN, the next call gets
   through exactly when the timeout is over, and its outcome decides — closed
   with an empty window, or open again from that moment.
   */
  lemma RecoveryIff(c: Config, clock: int, actions: seq<Action>, now: int, ok: bool, end: int, later: int)
    requires Possible(c, NewWorld(clock), actions)
    requires Run(c, NewWorld(clock), actions).b.mode == Open
    ensures var w := Run(c, NewWorld(clock), actions);
            var (b, captured) := Begin(c, w.b, now);
            var finished := Finish(c, b, HalfOpen, ok, end, later);
            && w.b.openedAt.Some?
            && (captured.Some? <==> now - w.b.openedAt.value >= c.openStateTimeoutMs)
            && (captured == None ==> b == w.b)
            && (captured.Some? ==>
                  && captured == Some(HalfOpen)
                  && finished.mode == (if ok then Closed else Open)
                  && finished.openedAt == (if ok then None else Some(later))
                  && (ok ==> finished.outcomes == []) && !finished.probing)
  {
    SoundRun(c, NewWorld(clock), actions);
    OnlyProbingWhenHalfOpen(c, NewWorld(clock), actions);
    hide Run, Possible, Since, Linked, Ordered;
  }

  // ---- One probe at a time ----

  const LEGAL: set<Change> := {Change(Closed, Open), Change(Open, HalfOpen), Change(HalfOpen, Closed), Change(HalfOpen, Open)}

  /** No call that started CLOSED is still pending at the moment HALF_OPEN begins. */
  predicate DrainedBeforeProbing(c: Config, w: World, actions: seq<Action>)
    requires Possible(c, w, actions)
    decreases actions
  {
    actions == [] ||
    (var w' := Next(c, w, actions[0]);
     (w.b.mode != HalfOpen && w'.b.mode == HalfOpen ==> w.closedPending == 0) &&
     DrainedBeforeProbing(c, w', actions[1..]))
  }

  ghost predicate OneProbe(w: World) {
    && w.probesPending <= 1
    && (w.b.probing <==> w.probesPending == 1)
    && (w.probesPending == 1 ==> w.b.mode == HalfOpen)
    && (w.b.mode == HalfOpen ==> w.closedPending == 0)
    && (forall ch :: ch in w.b.changes ==> ch in LEGAL)
  }

  lemma {:induction false} OneProbeRun(c: Config, w: World, actions: seq<Action>)
    requires Possible(c, w, actions) && OneProbe(w) && DrainedBeforeProbing(c, w, actions)
    ensures OneProbe(Run(c, w, actions))
    decreases actions
  {
    if actions != [] {
      OneProbeRun(c, Next(c, w, actions[0]), actions[1..]);
    }
  }

  /** With calls drained before each probing phase, at most one probe is in flight and only the four documented changes happen. */
  lemma SingleProbe(c: Config, clock: int, actions: seq<Action>)
    requires Possible(c, NewWorld(clock), actions) && DrainedBeforeProbing(c, NewWorld(clock), actions)
    ensures var w := Run(c, NewWorld(clock), actions);
            w.probesPending <= 1 && forall ch :: ch in w.b.changes ==> ch in LEGAL
  {
    OneProbeRun(c, NewWorld(clock), actions);
  }

  predicate StaysHalfOpen(c: Config, w: World, actions: seq<Action>)
    decreases actions
  {
    w.b.mode == HalfOpen &&
    (actions == [] || (Enabled(w, actions[0]) && StaysHalfOpen(c, Next(c, w, actions[0]), actions[1..])))
  }

  lemma {:induction false} StaysIsPossible(c: Config, w: World, actions: seq<Action>)
    requires StaysHalfOpen(c, w, actions)
    ensures Possible(c, w, actions)
    decreases actions
  {
    if actions != [] {
      StaysIsPossible(c, Next(c, w, actions[0]), actions[1..]);
    }
  }

  lemma {:induction false} ProbingKeepsOneProbe(c: Config, w: World, actions: seq<Action>)
    requires StaysHalfOpen(c, w, actions) && Possible(c, w, actions)
    requires w.closedPending == 0 && w.probesPending <= 1 && (w.b.probing <==> w.probesPending == 1)
    ensures Run(c, w, actions).probesPending <= 1
    decreases actions
  {
    if actions != [] {
      ProbingKeepsOneProbe(c, Next(c, w, actions[0]), actions[1..]);
    }
  }

  /** The two calls with an older one ending between them: both get through as probes. */
  function SecondProbe(clock: int): seq<Action> {
    [Start(clock), End(Closed, true, clock, clock), Start(clock)]
  }

  lemma SecondProbeGetsThrough(c: Config, w: World)
    requires w.b.mode == HalfOpen && !w.b.probing && w.closedPending > 0
    ensures StaysHalfOpen(c, w, SecondProbe(w.clock)) && Possible(c, w, SecondProbe(w.clock))
    ensures Run(c, w, SecondProbe(w.clock)).probesPending == w.probesPending + 2
  {
    var s := SecondProbe(w.clock);
    var w1 := Next(c, w, s[0]);
    var w2 := Next(c, w1, s[1]);
    var w3 := Next(c, w2, s[2]);
    assert s[1..][1..] == [s[2]];
    assert StaysHalfOpen(c, w3, []);
    assert StaysHalfOpen(c, w2, s[1..][1..]);
    assert StaysHalfOpen(c, w1, s[1..]);
    StaysIsPossible(c, w, s);
    assert Run(c, w2, s[1..][1..]) == w3;
  }

  /**
   "Only one probe at a time" holds throughout a probing phase exactly when no
   call from before — a probe of an earlier phase included — is still pending
   as the phase begins: the end of any call clears the probe flag, whichever
   call set it, and a probe still pending from before is not counted by it.
   */
  lemma ProbeExclusiveIff(c: Config, w: World)
    requires w.b.mode == HalfOpen && !w.b.probing
    ensures (forall s :: StaysHalfOpen(c, w, s) && Possible(c, w, s) ==> Run(c, w, s).probesPending <= 1)
            <==> w.closedPending == 0 && w.probesPending == 0
  {
    if w.closedPending == 0 && w.probesPending == 0 {
      forall s | StaysHalfOpen(c, w, s) && Possible(c, w, s)
        ensures Run(c, w, s).probesPending <= 1
      {
        ProbingKeepsOneProbe(c, w, s);
      }
    } else if w.closedPending > 0 {
      SecondProbeGetsThrough(c, w);
    } else {
      var s := [Start(w.clock)];
      assert s[1..] == [];
      assert StaysHalfOpen(c, Next(c, w, s[0]), []);
      assert StaysHalfOpen(c, w, s) && Possible(c, w, s);
      assert Run(c, Next(c, w, s[0]), []).probesPending == w.probesPending + 1;
      assert Run(c, w, s).probesPending == w.probesPending + 1;
    }
  }

  lemma {:induction false} RunSnoc(c: Config, w: World, s: seq<Action>, a: Action)
    requires Possible(c, w, s) && Enabled(Run(c, w, s), a)
    ensures Possible(c, w, s + [a]) && Run(c, w, s + [a]) == Next(c, Run(c, w, s), a)
    decreases s
  {
    if s == [] {
      assert s + [a] == [a] && [a][1..] == [];
      assert Run(c, Next(c, w, a), []) == Next(c, w, a);
    } else {
      assert (s + [a])[1..] == s[1..] + [a];
      RunSnoc(c, Next(c, w, s[0]), s[1..], a);
    }
  }

  // ---- The object ----

  class CircuitBreaker {
    const config: Config
    var mode: Mode
    var outcomes: seq<Outcome>
    var openedAt: Option<int>
    var halfOpenProbeInFlight: bool
    var changes: seq<Change>

    constructor (config: Config)
      ensures this.config == config && State() == FRESH
    {
      this.config := config;
      mode, outcomes, openedAt, halfOpenProbeInFlight, changes := Closed, [], None, false, [];
    }

    function State(): Breaker
      reads this
    {
      Breaker(mode, outcomes, openedAt, halfOpenProbeInFlight, changes)
    }

    method ChangeMode(newMode: Mode, now: int)
      modifies this
      ensures State() == TransitionTo(old(State()), newMode, now)
    {
      var fromMode := mode;
      if fromMode == newMode {
        return;
      }
      mode := newMode;
      if newMode == Open {
        openedAt := Some(now);
      }
      if newMode == Closed {
        openedAt, outcomes := None, [];
      }
      changes := changes + [Change(fromMode, newMode)];
    }

    method GetState(now: int) returns (m: Mode)
      modifies this
      ensures State() == GetMode(config, old(State()), now) && m == mode
      ensures mode == if old(mode) == Open && old(openedAt).Some? && now >= old(openedAt).value + config.openStateTimeoutMs then HalfOpen else old(mode)
    {
      if mode == Open && openedAt.Some? && now - openedAt.value >= config.openStateTimeoutMs {
        ChangeMode(HalfOpen, now);
      }
      return mode;
    }

    /** Up to the vendor call. */
    method BeginCall(now: int) returns (captured: Option<Mode>)
      modifies this
      ensures (State(), captured) == Begin(config, old(State()), now)
      ensures captured == if mode == Open || (mode == HalfOpen && old(halfOpenProbeInFlight)) then None else Some(mode)
      ensures halfOpenProbeInFlight <==> old(halfOpenProbeInFlight) || captured == Some(HalfOpen)
    {
      var current := GetState(now);
      if current == Open {
        return None;
      }
      if current == HalfOpen {
        if halfOpenProbeInFlight {
          return None;
        }
        halfOpenProbeInFlight := true;
      }
      return Some(current);
    }

    /** From the vendor call on, whichever way it ended. */
    method FinishCall(captured: Mode, ok: bool, now: int, later: int)
      modifies this
      ensures State() == Finish(config, old(State()), captured, ok, now, later)
      ensures !halfOpenProbeInFlight
      ensures captured == HalfOpen ==> mode == if ok then Closed else Open
      ensures captured != HalfOpen && ok ==> mode == old(mode) && openedAt == old(openedAt)
      ensures captured != HalfOpen && !ok ==>
                var log, cutoff := old(outcomes) + [Outcome(now, false)], now - config.rollingWindowMs;
                var n := |set i | 0 <= i < |log| && log[i].at >= cutoff|;
                var failed := |set i | 0 <= i < |log| && log[i].at >= cutoff && !log[i].succeeded|;
                mode == if n >= config.minimumRequestsInWindow && n > 0 && failed * 100 >= config.failureThresholdPercent * n
                        then Open else old(mode)
    {
      TripsIsCounted(config, outcomes + [Outcome(now, ok)], now - config.rollingWindowMs);
      hide Since, Failures, Trips;
      RecordOutcome(ok, now);
      if ok {
        if captured == HalfOpen {
          ChangeMode(Closed, later);
        }
      } else if captured == HalfOpen {
        ChangeMode(Open, later);
      } else {
        EvaluateThreshold(later);
      }
      halfOpenProbeInFlight := false;
    }

    method RecordOutcome(ok: bool, now: int)
      modifies this
      ensures State() == Record(config, old(State()), ok, now)
    {
      outcomes := outcomes + [Outcome(now, ok)];
      var kept := [];
      for i := 0 to |outcomes|
        modifies {}
        invariant kept == Since(outcomes[..i], now - config.rollingWindowMs)
      {
        assert outcomes[..i + 1][..i] == outcomes[..i];
        if outcomes[i].at >= now - config.rollingWindowMs {
          kept := kept + [outcomes[i]];
        }
      }
      assert outcomes[..|outcomes|] == outcomes;
      outcomes := kept;
    }

    method EvaluateThreshold(now: int)
      modifies this
      ensures State() == if Trips(config, old(outcomes)) then TransitionTo(old(State()), Open, now) else old(State())
      ensures var n := |old(outcomes)|;
              var failed := |set i | 0 <= i < n && !old(outcomes)[i].succeeded|;
              mode == if n >= config.minimumRequestsInWindow && n > 0 && failed * 100 >= config.failureThresholdPercent * n
                      then Open else old(mode)
    {
      FailuresAreCounted(outcomes);
      if |outcomes| < config.minimumRequestsInWindow {
        return;
      }
      var failures := 0;
      for i := 0 to |outcomes|
        modifies {}
        invariant failures == Failures(outcomes[..i])
      {
        assert outcomes[..i + 1][..i] == outcomes[..i];
        if !outcomes[i].succeeded {
          failures := failures + 1;
        }
      }
      assert outcomes[..|outcomes|] == outcomes;
      if |outcomes| > 0 && failures * 100 >= config.failureThresholdPercent * |outcomes| {
        ChangeMode(Open, now);
      }
    }
  }
}
