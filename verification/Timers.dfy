/** The persisted timers and the service that schedules, cancels and fires them. */
module Timers {
  import opened Common

  datatype TimerType =
    | DocumentUploadExpiry | VendorCallbackTimeout | WorkflowOverallTimeout
    | ReVerificationDue | EddManualReviewDeadline | DataErasureDue

  datatype Timer = Timer(
    timerId: string, customerId: string, requestId: Option<string>, timerType: TimerType,
    fireAt: int, firedAt: Option<int>, cancelledAt: Option<int>, createdAt: int)

  datatype ScheduleError = NoFixedDuration | DurationNotPositive

  const HOUR_MS := 60 * 60 * 1000

  function FixedDuration(t: TimerType): Option<int> {
    match t
    case DocumentUploadExpiry => Some(48 * HOUR_MS)
    case VendorCallbackTimeout => Some(72 * HOUR_MS)
    case EddManualReviewDeadline => Some(30 * 24 * HOUR_MS)
    case WorkflowOverallTimeout => None
    case ReVerificationDue => None
    case DataErasureDue => None
  }

  predicate IsActive(t: Timer) {
    t.firedAt == None && t.cancelledAt == None
  }

  predicate IsDue(t: Timer, now: int) {
    IsActive(t) && t.fireAt <= now
  }

  /** A store in insertion order, one entry per id. */
  predicate UniqueIds(timers: seq<Timer>) {
    forall i, j :: 0 <= i < j < |timers| ==> timers[i].timerId != timers[j].timerId
  }

  predicate HasId(timers: seq<Timer>, id: string) {
    exists i :: 0 <= i < |timers| && timers[i].timerId == id
  }

  function Saved(timers: seq<Timer>, t: Timer): seq<Timer> {
    if HasId(timers, t.timerId)
    then seq(|timers|, i requires 0 <= i < |timers| => if timers[i].timerId == t.timerId then t else timers[i])
    else timers + [t]
  }

  function MarkedFired(timers: seq<Timer>, id: string, now: int): seq<Timer> {
    seq(|timers|, i requires 0 <= i < |timers| => if timers[i].timerId == id then timers[i].(firedAt := Some(now)) else timers[i])
  }

  function MarkedCancelled(timers: seq<Timer>, id: string, now: int): seq<Timer> {
    seq(|timers|, i requires 0 <= i < |timers| => if timers[i].timerId == id then timers[i].(cancelledAt := Some(now)) else timers[i])
  }

  /** The due timers, in insertion order. */
  function Due(timers: seq<Timer>, now: int): seq<Timer> {
    if timers == [] then []
    else Due(timers[..|timers| - 1], now) + (if IsDue(timers[|timers| - 1], now) then timers[|timers| - 1..] else [])
  }

  /** Every active timer of the type and customer, cancelled. */
  function AllCancelled(timers: seq<Timer>, customerId: string, timerType: TimerType, now: int): seq<Timer> {
    seq(|timers|, i requires 0 <= i < |timers| =>
      if timers[i].customerId == customerId && timers[i].timerType == timerType && IsActive(timers[i])
      then timers[i].(cancelledAt := Some(now)) else timers[i])
  }

  // ---- What a poll does ----

  /** How many of the due timers are handled before one throws. */
  function Handled(due: seq<Timer>, handlerWorks: Timer -> bool): (n: nat)
    ensures n <= |due|
    ensures forall i :: 0 <= i < n ==> handlerWorks(due[i])
    ensures n < |due| ==> !handlerWorks(due[n])
  {
    if due == [] || !handlerWorks(due[0]) then 0 else 1 + Handled(due[1..], handlerWorks)
  }

  predicate AmongFirst(due: seq<Timer>, n: nat, id: string)
    requires n <= |due|
  {
    exists i :: 0 <= i < n && due[i].timerId == id
  }

  /** The store with the first n due timers fired and nothing else changed. */
  function FirstFired(timers: seq<Timer>, due: seq<Timer>, n: nat, now: int): seq<Timer>
    requires n <= |due|
  {
    seq(|timers|, i requires 0 <= i < |timers| =>
      if AmongFirst(due, n, timers[i].timerId) then timers[i].(firedAt := Some(now)) else timers[i])
  }

  function AfterPoll(timers: seq<Timer>, handlerWorks: Timer -> bool, now: int): seq<Timer> {
    FirstFired(timers, Due(timers, now), Handled(Due(timers, now), handlerWorks), now)
  }

  lemma {:induction false} DueIsFilter(timers: seq<Timer>, now: int)
    ensures forall t :: t in Due(timers, now) <==> t in timers && IsDue(t, now)
  {
    if timers != [] {
      var front, last := timers[..|timers| - 1], timers[|timers| - 1];
      DueIsFilter(front, now);
      DueSnoc(front, last, now);
      assert timers == front + [last];
    }
  }

  lemma {:induction false} DueIdsUnique(timers: seq<Timer>, now: int)
    requires UniqueIds(timers)
    ensures UniqueIds(Due(timers, now))
  {
    if timers != [] {
      var front, last := timers[..|timers| - 1], timers[|timers| - 1];
      DueIdsUnique(front, now);
      DueIsFilter(front, now);
      DueSnoc(front, last, now);
      assert timers == front + [last];
      forall i | 0 <= i < |Due(front, now)| ensures Due(front, now)[i].timerId != last.timerId {
        assert Due(front, now)[i] in front;
      }
    }
  }

  /** The active timers of the type and customer. */
  function ActiveFor(timers: seq<Timer>, customerId: string, timerType: TimerType): seq<Timer> {
    if timers == [] then []
    else
      var t := timers[|timers| - 1];
      ActiveFor(timers[..|timers| - 1], customerId, timerType) +
      (if t.customerId == customerId && t.timerType == timerType && IsActive(t) then [t] else [])
  }

  lemma DueSnoc(timers: seq<Timer>, t: Timer, now: int)
    ensures Due(timers + [t], now) == if IsDue(t, now) then Due(timers, now) + [t] else Due(timers, now)
  {
    assert (timers + [t])[..|timers|] == timers;
    assert (timers + [t])[|timers|..] == [t];
  }

  // ---- Runs ----

  datatype Op =
    | Schedule(timer: Timer)
    | Cancel(timerId: string, now: int)
    | CancelAll(customerId: string, timerType: TimerType, now: int)
    | Poll(handlerWorks: Timer -> bool, now: int)

  /** The store, and the ids of the timers whose handler has completed, in order. */
  datatype History = History(timers: seq<Timer>, completed: seq<string>)

  function Ids(timers: seq<Timer>): seq<string> {
    seq(|timers|, i requires 0 <= i < |timers| => timers[i].timerId)
  }

  function Perform(h: History, op: Op): History {
    match op
    case Schedule(t) => h.(timers := Saved(h.timers, t))
    case Cancel(id, now) => h.(timers := MarkedCancelled(h.timers, id, now))
    case CancelAll(c, t, now) => h.(timers := AllCancelled(h.timers, c, t, now))
    case Poll(works, now) =>
      History(AfterPoll(h.timers, works, now),
              h.completed + Ids(Due(h.timers, now)[..Handled(Due(h.timers, now), works)]))
  }

  function PerformAll(h: History, ops: seq<Op>): History {
    if ops == [] then h else Perform(PerformAll(h, ops[..|ops| - 1]), ops[|ops| - 1])
  }

  /** Every scheduled timer is new: active, with an id not used before. */
  ghost predicate FreshlyScheduled(h: History, ops: seq<Op>) {
    ops == [] ||
    (FreshlyScheduled(h, ops[..|ops| - 1]) &&
     (ops[|ops| - 1].Schedule? ==>
        IsActive(ops[|ops| - 1].timer) && !HasId(PerformAll(h, ops[..|ops| - 1]).timers, ops[|ops| - 1].timer.timerId)))
  }

  predicate Distinct(ids: seq<string>) {
    forall i, j :: 0 <= i < j < |ids| ==> ids[i] != ids[j]
  }

  ghost predicate FiredOnce(h: History) {
    && UniqueIds(h.timers)
    && Distinct(h.completed)
    && (forall i :: 0 <= i < |h.timers| ==> (h.timers[i].timerId in h.completed <==> h.timers[i].firedAt.Some?))
    && (forall id :: id in h.completed ==> HasId(h.timers, id))
  }

  /** The timers a poll completes: each once, none completed before, all in the store. */
  lemma PolledIds(h: History, now: int, n: nat)
    requires FiredOnce(h) && n <= |Due(h.timers, now)|
    ensures var done := Ids(Due(h.timers, now)[..n]);
            Distinct(done) && forall id :: id in done ==> id !in h.completed && HasId(h.timers, id)
  {
    var due := Due(h.timers, now);
    DueIsFilter(h.timers, now);
    DueIdsUnique(h.timers, now);
    hide Due;
    forall i | 0 <= i < n ensures due[i].timerId !in h.completed && HasId(h.timers, due[i].timerId) {
      assert due[i] in h.timers;
    }
  }

  lemma FirstAreDone(due: seq<Timer>, n: nat, id: string)
    requires n <= |due|
    ensures AmongFirst(due, n, id) <==> id in Ids(due[..n])
  {
    if AmongFirst(due, n, id) {
      var k :| 0 <= k < n && due[k].timerId == id;
      assert Ids(due[..n])[k] == id;
    }
  }

  lemma FiredOncePoll(h: History, works: Timer -> bool, now: int)
    requires FiredOnce(h)
    ensures FiredOnce(Perform(h, Poll(works, now)))
  {
    var due := Due(h.timers, now);
    var n := Handled(due, works);
    var done, timers := Ids(due[..n]), FirstFired(h.timers, due, n, now);
    PolledIds(h, now, n);
    assert Perform(h, Poll(works, now)) == History(timers, h.completed + done);
    hide Due, Handled, Perform, Ids;
    forall i | 0 <= i < |h.timers| ensures timers[i].timerId == h.timers[i].timerId
                                   ensures timers[i].firedAt.Some? <==> h.timers[i].firedAt.Some? || h.timers[i].timerId in done {
      FirstAreDone(due, n, h.timers[i].timerId);
    }
    hide FirstFired, AmongFirst, FiredOnce;
    MoreFired(h, timers, done);
  }

  lemma MoreFired(h: History, timers: seq<Timer>, done: seq<string>)
    requires FiredOnce(h) && |timers| == |h.timers|
    requires forall i :: 0 <= i < |timers| ==> timers[i].timerId == h.timers[i].timerId
                                               && (timers[i].firedAt.Some? <==> h.timers[i].firedAt.Some? || h.timers[i].timerId in done)
    requires Distinct(done) && forall id :: id in done ==> id !in h.completed && HasId(h.timers, id)
    ensures FiredOnce(History(timers, h.completed + done))
  {
    var completed := h.completed + done;
    SameIds(h.timers, timers);
    forall i, j | 0 <= i < j < |completed| ensures completed[i] != completed[j] {
      if i < |h.completed| <= j {
        assert completed[j] == done[j - |h.completed|] && completed[j] in done;
      }
    }
    assert forall id :: id in completed <==> id in h.completed || id in done;
  }

  lemma SameIds(before: seq<Timer>, after: seq<Timer>)
    requires |after| == |before| && forall i :: 0 <= i < |before| ==> after[i].timerId == before[i].timerId
    ensures forall id :: HasId(before, id) ==> HasId(after, id)
  {
    forall id | HasId(before, id) ensures HasId(after, id) {
      var i :| 0 <= i < |before| && before[i].timerId == id;
      assert after[i].timerId == id;
    }
  }

  lemma SameIdsKeepFiredOnce(h: History, timers: seq<Timer>)
    requires FiredOnce(h) && |timers| == |h.timers|
    requires forall i :: 0 <= i < |timers| ==> timers[i].timerId == h.timers[i].timerId && timers[i].firedAt == h.timers[i].firedAt
    ensures FiredOnce(h.(timers := timers))
  {
    forall id | HasId(h.timers, id) ensures HasId(timers, id) {
      var i :| 0 <= i < |h.timers| && h.timers[i].timerId == id;
      assert timers[i].timerId == id;
    }
  }

  lemma FiredOnceSchedule(h: History, t: Timer)
    requires FiredOnce(h) && IsActive(t) && !HasId(h.timers, t.timerId)
    ensures FiredOnce(h.(timers := Saved(h.timers, t)))
  {
    forall id | HasId(h.timers, id) ensures HasId(h.timers + [t], id) {
      var i :| 0 <= i < |h.timers| && h.timers[i].timerId == id;
      assert (h.timers + [t])[i].timerId == id;
    }
  }

  lemma {:induction false} FiredOnceRun(ops: seq<Op>)
    requires FreshlyScheduled(History([], []), ops)
    ensures FiredOnce(PerformAll(History([], []), ops))
  {
    if ops != [] {
      var h := PerformAll(History([], []), ops[..|ops| - 1]);
      FiredOnceRun(ops[..|ops| - 1]);
      match ops[|ops| - 1]
      case Schedule(t) => FiredOnceSchedule(h, t);
      case Cancel(id, now) => SameIdsKeepFiredOnce(h, MarkedCancelled(h.timers, id, now));
      case CancelAll(c, t, now) => SameIdsKeepFiredOnce(h, AllCancelled(h.timers, c, t, now));
      case Poll(works, now) => FiredOncePoll(h, works, now);
    }
  }

  /** Over any run of schedules, cancellations and polls — handlers throwing where they like — no handler completes twice for one timer. */
  lemma NoTimerCompletesTwice(ops: seq<Op>)
    requires FreshlyScheduled(History([], []), ops)
    ensures Distinct(PerformAll(History([], []), ops).completed)
  {
    FiredOnceRun(ops);
  }

  /** A throwing handler holds up its own timer and every due timer stored after it, but nothing stored before. */
  lemma ThrowingHandlerBlocks(timers: seq<Timer>, handlerWorks: Timer -> bool, now: int, k: nat)
    requires UniqueIds(timers) && k < |timers| && !handlerWorks(timers[k])
    requires timers[k].fireAt <= now && timers[k].firedAt == None && timers[k].cancelledAt == None
    requires forall i :: 0 <= i < k && timers[i].fireAt <= now && timers[i].firedAt == None && timers[i].cancelledAt == None ==> handlerWorks(timers[i])
    ensures forall i :: 0 <= i < |timers| ==>
              AfterPoll(timers, handlerWorks, now)[i] ==
              if i < k && timers[i].fireAt <= now && timers[i].firedAt == None && timers[i].cancelledAt == None
              then timers[i].(firedAt := Some(now)) else timers[i]
  {
    var due := Due(timers, now);
    DueSplits(timers, now, k);
    var before, after := Due(timers[..k], now), Due(timers[k + 1..], now);
    DueIsFilter(timers[..k], now);
    DueIsFilter(timers, now);
    var n := |before|;
    assert due == before + [timers[k]] + after;
    forall i | 0 <= i < n ensures handlerWorks(due[i]) {
      assert due[i] == before[i] && before[i] in timers[..k];
    }
    HandledUpTo(due, handlerWorks, n);
    forall i | 0 <= i < |timers| ensures AmongFirst(due, n, timers[i].timerId) <==> i < k && IsDue(timers[i], now) {
      if i < k && IsDue(timers[i], now) {
        assert timers[i] in timers[..k];
        var j :| 0 <= j < |before| && before[j] == timers[i];
        assert due[j] == timers[i];
      }
      if AmongFirst(due, n, timers[i].timerId) {
        var j :| 0 <= j < n && due[j].timerId == timers[i].timerId;
        assert due[j] == before[j] && before[j] in timers[..k];
        var m :| 0 <= m < k && timers[m] == before[j];
        assert m == i;
      }
    }
  }

  lemma {:induction false} HandledUpTo(due: seq<Timer>, handlerWorks: Timer -> bool, n: nat)
    requires n < |due| && !handlerWorks(due[n]) && forall i :: 0 <= i < n ==> handlerWorks(due[i])
    ensures Handled(due, handlerWorks) == n
  {
    if n > 0 {
      HandledUpTo(due[1..], handlerWorks, n - 1);
    }
  }

  lemma {:induction false} DueConcat(s: seq<Timer>, t: seq<Timer>, now: int)
    ensures Due(s + t, now) == Due(s, now) + Due(t, now)
  {
    if t == [] {
      assert s + t == s;
    } else {
      var front, last := t[..|t| - 1], t[|t| - 1];
      assert s + t == (s + front) + [last] && t == front + [last];
      DueConcat(s, front, now);
      DueSnoc(s + front, last, now);
      DueSnoc(front, last, now);
    }
  }

  lemma DueSplits(timers: seq<Timer>, now: int, k: nat)
    requires k < |timers| && IsDue(timers[k], now)
    ensures Due(timers, now) == Due(timers[..k], now) + [timers[k]] + Due(timers[k + 1..], now)
  {
    assert timers == timers[..k] + [timers[k]] + timers[k + 1..];
    DueConcat(timers[..k] + [timers[k]], timers[k + 1..], now);
    DueSnoc(timers[..k], timers[k], now);
  }

  /** With every handler working, exactly the due timers are fired. */
  lemma AllDueFire(timers: seq<Timer>, handlerWorks: Timer -> bool, now: int)
    requires UniqueIds(timers)
    requires forall t :: t in timers && t.fireAt <= now && t.firedAt == None && t.cancelledAt == None ==> handlerWorks(t)
    ensures |AfterPoll(timers, handlerWorks, now)| == |timers| && forall i :: 0 <= i < |timers| ==>
              AfterPoll(timers, handlerWorks, now)[i] ==
              if timers[i].fireAt <= now && timers[i].firedAt == None && timers[i].cancelledAt == None
              then timers[i].(firedAt := Some(now)) else timers[i]
  {
    var due := Due(timers, now);
    DueIsFilter(timers, now);
    var n := Handled(due, handlerWorks);
    forall i | 0 <= i < |due| ensures handlerWorks(due[i]) {
      assert due[i] in due;
    }
    forall i | 0 <= i < |timers| ensures AmongFirst(due, |due|, timers[i].timerId) <==> IsDue(timers[i], now) {
      if IsDue(timers[i], now) {
        assert timers[i] in due;
        var j :| 0 <= j < |due| && due[j] == timers[i];
      }
      if AmongFirst(due, |due|, timers[i].timerId) {
        var j :| 0 <= j < |due| && due[j].timerId == timers[i].timerId;
        assert due[j] in timers;
      }
    }
  }

  lemma SavedIsThere(timers: seq<Timer>, t: Timer)
    ensures t in Saved(timers, t)
    ensures forall u :: u in timers && u.timerId != t.timerId ==> u in Saved(timers, t)
    ensures (forall u :: u in timers ==> u.timerId != t.timerId) ==> Saved(timers, t) == timers + [t]
  {
    if HasId(timers, t.timerId) {
      var i :| 0 <= i < |timers| && timers[i].timerId == t.timerId;
      assert timers[i] in timers && Saved(timers, t)[i] == t;
      forall u | u in timers && u.timerId != t.timerId ensures u in Saved(timers, t) {
        var j :| 0 <= j < |timers| && timers[j] == u;
        assert Saved(timers, t)[j] == u;
      }
    }
  }

  predicate Concerns(t: Timer, customerId: string, timerType: TimerType) {
    t.customerId == customerId && t.timerType == timerType && IsActive(t)
  }

  lemma {:induction false} ActivePositions(timers: seq<Timer>, customerId: string, timerType: TimerType)
    ensures |ActiveFor(timers, customerId, timerType)| == |set i | 0 <= i < |timers| && Concerns(timers[i], customerId, timerType)|
  {
    if timers != [] {
      var front, t := timers[..|timers| - 1], timers[|timers| - 1];
      ActivePositions(front, customerId, timerType);
      assert timers == front + [t];
      ActiveForSnoc(front, t, customerId, timerType);
      hide ActiveFor;
      PositionsSnoc(front, t, customerId, timerType);
    }
  }

  lemma PositionsSnoc(front: seq<Timer>, t: Timer, customerId: string, timerType: TimerType)
    ensures var timers := front + [t];
            |set i | 0 <= i < |timers| && Concerns(timers[i], customerId, timerType)|
            == |set i | 0 <= i < |front| && Concerns(front[i], customerId, timerType)| + (if Concerns(t, customerId, timerType) then 1 else 0)
  {
    hide Concerns;
    PositionsWith(front, t, customerId, timerType);
  }

  lemma PositionsWith(front: seq<Timer>, t: Timer, customerId: string, timerType: TimerType)
    ensures var timers := front + [t];
            (set i | 0 <= i < |timers| && Concerns(timers[i], customerId, timerType))
            == (set i | 0 <= i < |front| && Concerns(front[i], customerId, timerType)) + (if Concerns(t, customerId, timerType) then {|front|} else {})
  {
    hide Concerns;
    var timers := front + [t];
    forall i | 0 <= i < |front| ensures timers[i] == front[i] {}
    assert timers[|front|] == t;
  }

  lemma ActiveAreCounted(timers: seq<Timer>, customerId: string, timerType: TimerType)
    ensures |ActiveFor(timers, customerId, timerType)|
            == |set i | 0 <= i < |timers| && timers[i].customerId == customerId && timers[i].timerType == timerType
                        && timers[i].firedAt == None && timers[i].cancelledAt == None|
  {
    ActivePositions(timers, customerId, timerType);
    var some := set i | 0 <= i < |timers| && timers[i].customerId == customerId && timers[i].timerType == timerType
                        && timers[i].firedAt == None && timers[i].cancelledAt == None;
    assert some == set i | 0 <= i < |timers| && Concerns(timers[i], customerId, timerType);
    hide ActiveFor;
  }

  lemma AllCancelledAt(timers: seq<Timer>, customerId: string, timerType: TimerType, now: int)
    ensures var after := AllCancelled(timers, customerId, timerType, now);
            |after| == |timers| && forall i :: 0 <= i < |timers| ==>
              after[i] == if timers[i].customerId == customerId && timers[i].timerType == timerType
                             && timers[i].firedAt == None && timers[i].cancelledAt == None
                          then timers[i].(cancelledAt := Some(now)) else timers[i]
  {}

  // ---- The objects ----

  class TimerRepository {
    var timers: seq<Timer>

    constructor ()
      ensures timers == []
    {
      timers := [];
    }

    method Save(t: Timer)
      modifies this
      ensures timers == Saved(old(timers), t)
      ensures t in timers && forall u :: u in old(timers) && u.timerId != t.timerId ==> u in timers
      ensures (forall u :: u in old(timers) ==> u.timerId != t.timerId) ==> timers == old(timers) + [t]
    {
      SavedIsThere(timers, t);
      timers := Saved(timers, t);
    }

    method FindDue(asOf: int) returns (due: seq<Timer>)
      ensures due == Due(timers, asOf)
      ensures forall t :: t in due <==> t in timers && t.fireAt <= asOf && t.firedAt == None && t.cancelledAt == None
    {
      DueIsFilter(timers, asOf);
      due := [];
      for i := 0 to |timers|
        invariant due == Due(timers[..i], asOf)
      {
        DueSnoc(timers[..i], timers[i], asOf);
        assert timers[..i + 1] == timers[..i] + [timers[i]];
        if IsDue(timers[i], asOf) {
          due := due + [timers[i]];
        }
      }
      assert timers[..|timers|] == timers;
    }

    method MarkFired(timerId: string, firedAt: int)
      modifies this
      ensures timers == MarkedFired(old(timers), timerId, firedAt)
    {
      timers := MarkedFired(timers, timerId, firedAt);
    }

    method MarkCancelled(timerId: string, cancelledAt: int)
      modifies this
      ensures timers == MarkedCancelled(old(timers), timerId, cancelledAt)
    {
      timers := MarkedCancelled(timers, timerId, cancelledAt);
    }
  }

  class TimerService {
    const repository: TimerRepository

    constructor (repository: TimerRepository)
      ensures this.repository == repository
    {
      this.repository := repository;
    }

    method ScheduleFixedTimer(timerType: TimerType, customerId: string, requestId: Option<string>, timerId: string, now: int)
      returns (r: Result<Timer, ScheduleError>)
      modifies repository
      ensures r.Err? <==> timerType in {WorkflowOverallTimeout, ReVerificationDue, DataErasureDue}
      ensures r.Err? ==> r == Err(NoFixedDuration) && repository.timers == old(repository.timers)
      ensures r.Ok? ==>
                var hours := if timerType == DocumentUploadExpiry then 48 else if timerType == VendorCallbackTimeout then 72 else 30 * 24;
                && r == Ok(Timer(timerId, customerId, requestId, timerType, now + hours * 3600 * 1000, None, None, now))
                && repository.timers == Saved(old(repository.timers), r.value)
    {
      var duration := FixedDuration(timerType);
      if duration == None {
        return Err(NoFixedDuration);
      }
      var t := Timer(timerId, customerId, requestId, timerType, now + duration.value, None, None, now);
      repository.Save(t);
      return Ok(t);
    }

    method ScheduleCustomDurationTimer(timerType: TimerType, durationMs: int, customerId: string, requestId: Option<string>, timerId: string, now: int)
      returns (r: Result<Timer, ScheduleError>)
      modifies repository
      ensures durationMs <= 0 ==> r == Err(DurationNotPositive) && repository.timers == old(repository.timers)
      ensures durationMs > 0 ==>
                r == Ok(Timer(timerId, customerId, requestId, timerType, now + durationMs, None, None, now))
                && repository.timers == Saved(old(repository.timers), r.value)
    {
      if durationMs <= 0 {
        return Err(DurationNotPositive);
      }
      var t := Timer(timerId, customerId, requestId, timerType, now + durationMs, None, None, now);
      repository.Save(t);
      return Ok(t);
    }

    method CancelAllForCustomer(customerId: string, timerType: TimerType, now: int) returns (count: nat)
      requires UniqueIds(repository.timers)
      modifies repository
      ensures repository.timers == AllCancelled(old(repository.timers), customerId, timerType, now)
      ensures count == |ActiveFor(old(repository.timers), customerId, timerType)|
      ensures UniqueIds(repository.timers)
    {
      ghost var before := repository.timers;
      hide MarkedCancelled, AllCancelled, CancelledUpTo, ActiveFor, UniqueIds;
      var timers := repository.timers;
      count := 0;
      NoneCancelled(before, customerId, timerType, now);
      NoneActive(customerId, timerType);
      for i := 0 to |timers|
        invariant count == |ActiveFor(before[..i], customerId, timerType)|
        invariant repository.timers == CancelledUpTo(before, i, customerId, timerType, now)
      {
        var t := timers[i];
        if t.customerId == customerId && t.timerType == timerType && t.firedAt == None && t.cancelledAt == None {
          repository.MarkCancelled(t.timerId, now);
          count := count + 1;
        }
        ActiveNext(before, i, customerId, timerType);
        CancelNext(before, i, customerId, timerType, now);
      }
      CancelledThrough(before, customerId, timerType, now);
    }

    /**
     Fires what is due, stopping at the first handler that throws: exactly the
     due timers before it are marked, everything else is as it was.
     */
    method PollAndFireDue(handlerWorks: Timer -> bool, now: int) returns (fired: seq<Timer>, threw: bool)
      requires UniqueIds(repository.timers)
      modifies repository
      ensures repository.timers == AfterPoll(old(repository.timers), handlerWorks, now)
      ensures threw <==> exists t :: t in old(repository.timers) && t.fireAt <= now && t.firedAt == None && t.cancelledAt == None && !handlerWorks(t)
      ensures !threw ==> |fired| == |Due(old(repository.timers), now)|
                         && forall i :: 0 <= i < |fired| ==> fired[i] == Due(old(repository.timers), now)[i].(firedAt := Some(now))
    {
      ghost var before := repository.timers;
      var due := repository.FindDue(now);
      DueIdsUnique(before, now);
      ThrowsIff(before, handlerWorks, now);
      NoneFired(before, due, now);
      PolledUpTo(before, handlerWorks, now);
      hide Due, Handled, AfterPoll, AmongFirst, IsDue, FirstFired, MarkedFired, UniqueIds, AsFired;
      AsFiredNone(due, now);
      fired := [];
      for i := 0 to |due|
        invariant i <= Handled(due, handlerWorks)
        invariant repository.timers == FirstFired(before, due, i, now)
        invariant |fired| == i && AsFired(fired, due, now)
      {
        if !handlerWorks(due[i]) {
          return fired, true;
        }
        repository.MarkFired(due[i].timerId, now);
        AsFiredSnoc(fired, due, now);
        fired := fired + [due[i].(firedAt := Some(now))];
        FireNext(before, due, i, now);
      }
      AsFiredThrough(fired, due, now);
      threw := false;
    }
  }

  function CancelledUpTo(timers: seq<Timer>, n: nat, customerId: string, timerType: TimerType, now: int): seq<Timer>
    requires n <= |timers|
  {
    AllCancelled(timers[..n], customerId, timerType, now) + timers[n..]
  }

  lemma NoneActive(customerId: string, timerType: TimerType)
    ensures ActiveFor([], customerId, timerType) == []
  {}

  lemma ActiveNext(timers: seq<Timer>, n: nat, customerId: string, timerType: TimerType)
    requires n < |timers|
    ensures |ActiveFor(timers[..n + 1], customerId, timerType)| == |ActiveFor(timers[..n], customerId, timerType)| +
            (if timers[n].customerId == customerId && timers[n].timerType == timerType && IsActive(timers[n]) then 1 else 0)
  {
    assert timers[..n + 1] == timers[..n] + [timers[n]];
    ActiveForSnoc(timers[..n], timers[n], customerId, timerType);
    hide ActiveFor;
  }

  lemma ActiveForSnoc(timers: seq<Timer>, t: Timer, customerId: string, timerType: TimerType)
    ensures ActiveFor(timers + [t], customerId, timerType) ==
            if t.customerId == customerId && t.timerType == timerType && IsActive(t)
            then ActiveFor(timers, customerId, timerType) + [t] else ActiveFor(timers, customerId, timerType)
  {
    assert (timers + [t])[..|timers|] == timers;
  }

  lemma NoneCancelled(timers: seq<Timer>, customerId: string, timerType: TimerType, now: int)
    ensures CancelledUpTo(timers, 0, customerId, timerType, now) == timers
  {}

  lemma CancelledThrough(timers: seq<Timer>, customerId: string, timerType: TimerType, now: int)
    ensures timers[..|timers|] == timers
    ensures CancelledUpTo(timers, |timers|, customerId, timerType, now) == AllCancelled(timers, customerId, timerType, now)
    ensures UniqueIds(timers) ==> UniqueIds(AllCancelled(timers, customerId, timerType, now))
  {
    assert timers[..|timers|] == timers;
  }

  lemma CancelNext(timers: seq<Timer>, n: nat, customerId: string, timerType: TimerType, now: int)
    requires n < |timers| && UniqueIds(timers)
    ensures CancelledUpTo(timers, n + 1, customerId, timerType, now) ==
            if timers[n].customerId == customerId && timers[n].timerType == timerType && IsActive(timers[n])
            then MarkedCancelled(CancelledUpTo(timers, n, customerId, timerType, now), timers[n].timerId, now)
            else CancelledUpTo(timers, n, customerId, timerType, now)
  {
    var current, next := CancelledUpTo(timers, n, customerId, timerType, now), CancelledUpTo(timers, n + 1, customerId, timerType, now);
    forall i | 0 <= i < |timers| && i != n ensures current[i].timerId != timers[n].timerId && next[i] == current[i] {}
  }

  /** The first of the due timers, as they are once fired. */
  predicate AsFired(fired: seq<Timer>, due: seq<Timer>, now: int) {
    |fired| <= |due| && forall k :: 0 <= k < |fired| ==> fired[k] == due[k].(firedAt := Some(now))
  }

  lemma AsFiredNone(due: seq<Timer>, now: int)
    ensures AsFired([], due, now)
  {}

  lemma AsFiredSnoc(fired: seq<Timer>, due: seq<Timer>, now: int)
    requires AsFired(fired, due, now) && |fired| < |due|
    ensures AsFired(fired + [due[|fired|].(firedAt := Some(now))], due, now)
  {}

  lemma AsFiredThrough(fired: seq<Timer>, due: seq<Timer>, now: int)
    requires AsFired(fired, due, now) && |fired| == |due|
    ensures forall k :: 0 <= k < |due| ==> fired[k] == due[k].(firedAt := Some(now))
  {}

  lemma PolledUpTo(timers: seq<Timer>, handlerWorks: Timer -> bool, now: int)
    ensures AfterPoll(timers, handlerWorks, now) == FirstFired(timers, Due(timers, now), Handled(Due(timers, now), handlerWorks), now)
  {}

  lemma NoneFired(timers: seq<Timer>, due: seq<Timer>, now: int)
    ensures FirstFired(timers, due, 0, now) == timers
  {}

  lemma ThrowsIff(timers: seq<Timer>, handlerWorks: Timer -> bool, now: int)
    ensures Handled(Due(timers, now), handlerWorks) < |Due(timers, now)| <==>
            exists t :: t in timers && t.fireAt <= now && t.firedAt == None && t.cancelledAt == None && !handlerWorks(t)
    ensures forall t :: t in Due(timers, now) ==> t.firedAt == None
  {
    DueIsFilter(timers, now);
    var due := Due(timers, now);
    hide Due;
    if Handled(due, handlerWorks) < |due| {
      assert due[Handled(due, handlerWorks)] in due;
    }
    if t :| t in timers && t.fireAt <= now && t.firedAt == None && t.cancelledAt == None && !handlerWorks(t) {
      assert IsDue(t, now) && t in due;
      var i :| 0 <= i < |due| && due[i] == t;
    }
  }

  lemma FireNext(timers: seq<Timer>, due: seq<Timer>, i: nat, now: int)
    requires i < |due| && UniqueIds(due) && (forall t :: t in due ==> t.firedAt == None)
    ensures MarkedFired(FirstFired(timers, due, i, now), due[i].timerId, now) == FirstFired(timers, due, i + 1, now)
  {
    forall k | 0 <= k < |timers|
      ensures AmongFirst(due, i + 1, timers[k].timerId) <==> AmongFirst(due, i, timers[k].timerId) || due[i].timerId == timers[k].timerId
    {}
  }
}
