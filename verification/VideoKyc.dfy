/** Video sessions and the webhooks that settle them: at-least-once deliveries with exactly-once effects. */
module VideoKyc {
  import opened Common

  // ---- Sessions ----

  datatype SessionStatus = Pending | Completed | Failed

  datatype SessionResult = SessionResult(livenessScore: real, faceMatchConfidence: real, recordingUrl: Option<string>)

  datatype Session = Session(customerId: string, status: SessionStatus, result: Option<SessionResult>, errorCode: Option<string>)

  type Sessions = map<string, Session>

  /** Webhook event kinds; an unknown kind is acknowledged without effect. */
  datatype Kind = SessionCompleted | SessionFailed | SessionExpired | SessionStarted | UnknownKind

  datatype Body = Body(kind: Kind, sessionId: string, livenessScore: Option<real>, faceMatchConfidence: Option<real>,
                       recordingUrl: Option<string>, errorCode: Option<string>)

  /** `body == None` stands for bytes that are not JSON; `signed` for the outcome of the HMAC comparison. */
  datatype Webhook = Webhook(eventId: string, signed: bool, body: Option<Body>)

  datatype CallbackError = InvalidSignature | MalformedBody | UnknownSession

  datatype Callback = Callback(wasDuplicate: bool, success: bool)

  function OrZero(x: Option<real>): real {
    if x.Some? then x.value else 0.0
  }

  function Settled(s: Session, b: Body): Session {
    match b.kind
    case SessionCompleted =>
      s.(status := Completed, result := Some(SessionResult(OrZero(b.livenessScore), OrZero(b.faceMatchConfidence), b.recordingUrl)))
    case SessionFailed => s.(status := Failed, errorCode := Some(if b.errorCode.Some? then b.errorCode.value else "session.failed"))
    case SessionExpired => s.(status := Failed, errorCode := Some(if b.errorCode.Some? then b.errorCode.value else "session.expired"))
    case SessionStarted => s
    case UnknownKind => s
  }

  /** The effect of a delivery that is not a duplicate. */
  function Effect(sessions: Sessions, w: Webhook): Result<Sessions, CallbackError> {
    if w.body == None then Err(MalformedBody)
    else if w.body.value.sessionId !in sessions then Err(UnknownSession)
    else Ok(sessions[w.body.value.sessionId := Settled(sessions[w.body.value.sessionId], w.body.value)])
  }

  // ---- The adapter with its expiring memory of events ----

  const DEDUP_TTL_MS := 72 * 60 * 60 * 1000

  /** `seen` maps an event id to the time its memory expires. */
  datatype Adapter = Adapter(sessions: Sessions, seen: map<string, int>)

  function Remembered(seen: map<string, int>, eventId: string, now: int): bool {
    eventId in seen && now <= seen[eventId]
  }

  function Forget(seen: map<string, int>, eventId: string, now: int): map<string, int> {
    if eventId in seen && now > seen[eventId] then seen - {eventId} else seen
  }

  /** One delivery; `later` is the clock when the event is marked. */
  function Deliver(a: Adapter, w: Webhook, now: int, later: int): (Adapter, Result<Callback, CallbackError>) {
    if !w.signed then (a, Err(InvalidSignature))
    else
      var a := a.(seen := Forget(a.seen, w.eventId, now));
      if Remembered(a.seen, w.eventId, now) then (a, Ok(Callback(true, false)))
      else
        match Effect(a.sessions, w)
        case Err(e) => (a, Err(e))
        case Ok(sessions) =>
          (Adapter(sessions, a.seen[w.eventId := later + DEDUP_TTL_MS]),
           Ok(Callback(false, sessions[w.body.value.sessionId].status == Completed)))
  }

  datatype Op =
    | Create(sessionId: string, customerId: string)
    | Delivery(webhook: Webhook, now: int, later: int)

  function Created(sessions: Sessions, sessionId: string, customerId: string): Sessions {
    sessions[sessionId := Session(customerId, Pending, None, None)]
  }

  function Perform(a: Adapter, op: Op): Adapter {
    match op
    case Create(id, c) => a.(sessions := Created(a.sessions, id, c))
    case Delivery(w, now, later) => Deliver(a, w, now, later).0
  }

  function PerformAll(a: Adapter, ops: seq<Op>): Adapter
    decreases ops
  {
    if ops == [] then a else PerformAll(Perform(a, ops[0]), ops[1..])
  }

  // ---- Exactly once ----

  /** The delivery is neither forged, nor a repeat of an accepted one, nor failing. */
  predicate Counts(sessions: Sessions, accepted: set<string>, w: Webhook) {
    w.signed && w.eventId !in accepted && Effect(sessions, w).Ok?
  }

  /** The operations with every delivery dropped but the first accepted one of each event id. */
  function Once(sessions: Sessions, accepted: set<string>, ops: seq<Op>): seq<Op>
    decreases ops
  {
    if ops == [] then []
    else
      match ops[0]
      case Create(id, c) => [ops[0]] + Once(Created(sessions, id, c), accepted, ops[1..])
      case Delivery(w, _, _) =>
        if Counts(sessions, accepted, w)
        then [ops[0]] + Once(Effect(sessions, w).value, accepted + {w.eventId}, ops[1..])
        else Once(sessions, accepted, ops[1..])
  }

  /** The sessions after operations performed without any memory of events. */
  function Replay(sessions: Sessions, ops: seq<Op>): Sessions
    decreases ops
  {
    if ops == [] then sessions
    else
      match ops[0]
      case Create(id, c) => Replay(Created(sessions, id, c), ops[1..])
      case Delivery(w, _, _) => Replay(if Effect(sessions, w).Ok? then Effect(sessions, w).value else sessions, ops[1..])
  }

  /** Every delivery arrives within 72 hours of the start. */
  predicate WithinSpan(ops: seq<Op>, start: int) {
    forall i :: 0 <= i < |ops| && ops[i].Delivery? ==> start <= ops[i].now <= ops[i].later && ops[i].now <= start + DEDUP_TTL_MS
  }

  /** The memory holds the accepted events, and none of them expires within the span. */
  predicate Remembers(a: Adapter, accepted: set<string>, start: int) {
    a.seen.Keys == accepted && forall id :: id in a.seen ==> a.seen[id] >= start + DEDUP_TTL_MS
  }

  lemma {:induction false} RememberedRun(a: Adapter, accepted: set<string>, ops: seq<Op>, start: int)
    requires WithinSpan(ops, start) && Remembers(a, accepted, start)
    ensures PerformAll(a, ops).sessions == Replay(a.sessions, Once(a.sessions, accepted, ops))
    decreases ops
  {
    if ops != [] {
      var op, rest := ops[0], ops[1..];
      var a' := Perform(a, op);
      assert WithinSpan(rest, start);
      var kept := op.Create? || Counts(a.sessions, accepted, op.webhook);
      var accepted' := if op.Delivery? && kept then accepted + {op.webhook.eventId} else accepted;
      assert Remembers(a', accepted', start);
      RememberedRun(a', accepted', rest, start);
      if kept {
        assert ([op] + Once(a'.sessions, accepted', rest))[1..] == Once(a'.sessions, accepted', rest);
      }
    }
  }

  /**
   Deliveries inside 72 hours, with any repeats, forgeries and failures mixed
   in, leave the sessions as if only the first accepted delivery of each event
   had ever arrived, and nothing remembered.
   */
  lemma ExactlyOnce(sessions: Sessions, ops: seq<Op>, start: int)
    requires WithinSpan(ops, start)
    ensures PerformAll(Adapter(sessions, map[]), ops).sessions == Replay(sessions, Once(sessions, {}, ops))
  {
    RememberedRun(Adapter(sessions, map[]), {}, ops, start);
  }

  predicate EventIdsDistinct(ops: seq<Op>) {
    forall i, j :: 0 <= i < j < |ops| && ops[i].Delivery? && ops[j].Delivery? ==> ops[i].webhook.eventId != ops[j].webhook.eventId
  }

  /** What `Once` keeps has no repeats and no forgery. */
  lemma {:induction false} OnceHasNoRepeats(sessions: Sessions, accepted: set<string>, ops: seq<Op>)
    ensures var kept := Once(sessions, accepted, ops);
            EventIdsDistinct(kept) &&
            forall i :: 0 <= i < |kept| && kept[i].Delivery? ==> kept[i].webhook.signed && kept[i].webhook.eventId !in accepted
    decreases ops
  {
    if ops != [] {
      match ops[0]
      case Create(id, c) => OnceHasNoRepeats(Created(sessions, id, c), accepted, ops[1..]);
      case Delivery(w, _, _) =>
        if Counts(sessions, accepted, w) {
          OnceHasNoRepeats(Effect(sessions, w).value, accepted + {w.eventId}, ops[1..]);
        } else {
          OnceHasNoRepeats(sessions, accepted, ops[1..]);
        }
    }
  }

  predicate Delivers(op: Op, eventId: string) {
    op.Delivery? && op.webhook.eventId == eventId
  }

  lemma {:induction false} MemoryStands(a: Adapter, ops: seq<Op>, eventId: string, expiry: int)
    requires eventId in a.seen && a.seen[eventId] == expiry
    requires forall op :: op in ops && Delivers(op, eventId) ==> op.now <= expiry
    ensures var seen := PerformAll(a, ops).seen;
            eventId in seen && seen[eventId] == expiry
    decreases ops
  {
    if ops != [] {
      assert ops[0] in ops;
      MemoryStands(Perform(a, ops[0]), ops[1..], eventId, expiry);
    }
  }

  /**
   Once an event is accepted, a repeat of it is recognised exactly until its 72
   hours are over — whatever else, earlier repeats included, arrives in between.
   */
  lemma RepeatRecognisedIff(a: Adapter, w: Webhook, now: int, later: int, ops: seq<Op>, again: Webhook, at: int, later': int)
    requires Deliver(a, w, now, later).1.Ok? && !Deliver(a, w, now, later).1.value.wasDuplicate
    requires forall op :: op in ops && Delivers(op, w.eventId) ==> op.now <= later + DEDUP_TTL_MS
    requires again.eventId == w.eventId && again.signed
    ensures var then' := PerformAll(Deliver(a, w, now, later).0, ops);
            Deliver(then', again, at, later').1 == Ok(Callback(true, false)) <==> at <= later + 72 * 60 * 60 * 1000
  {
    MemoryStands(Deliver(a, w, now, later).0, ops, w.eventId, later + DEDUP_TTL_MS);
  }

  lemma {:induction false} StaysUnseen(a: Adapter, ops: seq<Op>, eventId: string)
    requires eventId !in a.seen && forall op :: op in ops ==> !Delivers(op, eventId)
    ensures eventId !in PerformAll(a, ops).seen
    decreases ops
  {
    if ops != [] {
      assert !Delivers(ops[0], eventId);
      StaysUnseen(Perform(a, ops[0]), ops[1..], eventId);
    }
  }

  /**
   A genuine delivery that throws changes no session and is not remembered:
   repeated after anything else has happened, it takes effect exactly if it can
   by then — as when its session has been created in the meantime.
   */
  lemma FailedDeliveryCanBeRetried(a: Adapter, w: Webhook, now: int, later: int, ops: seq<Op>, again: Webhook, at: int, later': int)
    requires w.signed && Deliver(a, w, now, later).1.Err?
    requires forall op :: op in ops ==> !Delivers(op, w.eventId)
    requires again.eventId == w.eventId && again.signed
    ensures Deliver(a, w, now, later).0.sessions == a.sessions
    ensures var then' := PerformAll(Deliver(a, w, now, later).0, ops);
            var (retried, answer) := Deliver(then', again, at, later');
            && (answer.Ok? <==> Effect(then'.sessions, again).Ok?)
            && (answer.Ok? ==> !answer.value.wasDuplicate && retried.sessions == Effect(then'.sessions, again).value)
  {
    StaysUnseen(Deliver(a, w, now, later).0, ops, w.eventId);
  }

  /** COMPLETED comes with a result and FAILED with an error code. */
  predicate Complete(sessions: Sessions) {
    forall id :: id in sessions ==>
      (sessions[id].status == Completed ==> sessions[id].result.Some?) && (sessions[id].status == Failed ==> sessions[id].errorCode.Some?)
  }

  lemma {:induction false} SessionsStayComplete(a: Adapter, ops: seq<Op>)
    requires Complete(a.sessions)
    ensures Complete(PerformAll(a, ops).sessions)
    decreases ops
  {
    if ops != [] {
      SessionsStayComplete(Perform(a, ops[0]), ops[1..]);
    }
  }

  predicate Settles(k: Kind) {
    k == SessionCompleted || k == SessionFailed || k == SessionExpired
  }

  /** What the operations, taken at face value, say last about a session. */
  function LastWord(ops: seq<Op>, id: string): SessionStatus {
    if ops == [] then Pending
    else
      match ops[|ops| - 1]
      case Create(other, _) => if other == id then Pending else LastWord(ops[..|ops| - 1], id)
      case Delivery(w, _, _) =>
        if w.body.Some? && w.body.value.sessionId == id && Settles(w.body.value.kind)
        then (if w.body.value.kind == SessionCompleted then Completed else Failed)
        else LastWord(ops[..|ops| - 1], id)
  }

  lemma {:induction false} ReplaySnoc(sessions: Sessions, ops: seq<Op>, op: Op)
    ensures Replay(sessions, ops + [op]) == Replay(Replay(sessions, ops), [op])
    decreases ops
  {
    if ops == [] {
      assert ops + [op] == [op];
    } else {
      assert (ops + [op])[1..] == ops[1..] + [op];
      match ops[0]
      case Create(id, c) => ReplaySnoc(Created(sessions, id, c), ops[1..], op);
      case Delivery(w, _, _) => ReplaySnoc(if Effect(sessions, w).Ok? then Effect(sessions, w).value else sessions, ops[1..], op);
    }
  }

  lemma {:induction false} ReplayedStatus(ops: seq<Op>, id: string)
    ensures id in Replay(map[], ops) ==> Replay(map[], ops)[id].status == LastWord(ops, id)
    decreases |ops|
  {
    if ops != [] {
      var front, last := ops[..|ops| - 1], ops[|ops| - 1];
      assert ops == front + [last];
      ReplayedStatus(front, id);
      ReplaySnoc(map[], front, last);
      assert [last][1..] == [];
    }
  }

  /** Within 72 hours a session's status is the last word of the accepted operations, each event counted once. */
  lemma StatusIsLastWord(ops: seq<Op>, start: int, id: string)
    requires WithinSpan(ops, start) && id in PerformAll(Adapter(map[], map[]), ops).sessions
    ensures PerformAll(Adapter(map[], map[]), ops).sessions[id].status == LastWord(Once(map[], {}, ops), id)
  {
    ExactlyOnce(map[], ops, start);
    ReplayedStatus(Once(map[], {}, ops), id);
  }

  /** The operation neither creates the session anew nor brings a webhook that would settle it. */
  predicate LeavesAlone(op: Op, id: string) {
    match op
    case Create(other, _) => other != id
    case Delivery(w, _, _) => w.body.Some? && w.body.value.sessionId == id ==> !Settles(w.body.value.kind)
  }

  lemma {:induction false} SessionStands(a: Adapter, ops: seq<Op>, id: string)
    requires id in a.sessions && forall op :: op in ops ==> LeavesAlone(op, id)
    ensures id in PerformAll(a, ops).sessions && PerformAll(a, ops).sessions[id] == a.sessions[id]
    decreases ops
  {
    if ops != [] {
      assert LeavesAlone(ops[0], id);
      SessionStands(Perform(a, ops[0]), ops[1..], id);
    }
  }

  /**
   The last accepted settling webhook decides: whatever else arrives for the
   session or for others, it keeps the scores or the error code that webhook
   carried — and a later failure overturns a completion.
   */
  lemma LastVerdictStands(a: Adapter, w: Webhook, now: int, later: int, ops: seq<Op>)
    requires Deliver(a, w, now, later).1.Ok? && !Deliver(a, w, now, later).1.value.wasDuplicate && Settles(w.body.value.kind)
    requires forall op :: op in ops ==> LeavesAlone(op, w.body.value.sessionId)
    ensures var b := w.body.value;
            && b.sessionId in PerformAll(Deliver(a, w, now, later).0, ops).sessions
            && var session := PerformAll(Deliver(a, w, now, later).0, ops).sessions[b.sessionId];
            && (session.status == Completed <==> b.kind == SessionCompleted)
            && (session.status == Failed <==> b.kind != SessionCompleted)
            && (b.kind == SessionCompleted ==>
                  session.result == Some(SessionResult(if b.livenessScore.Some? then b.livenessScore.value else 0.0,
                                                       if b.faceMatchConfidence.Some? then b.faceMatchConfidence.value else 0.0,
                                                       b.recordingUrl)))
            && (b.kind != SessionCompleted && b.errorCode.Some? ==> session.errorCode == b.errorCode)
            && (b.kind == SessionFailed && b.errorCode == None ==> session.errorCode == Some("session.failed"))
            && (b.kind == SessionExpired && b.errorCode == None ==> session.errorCode == Some("session.expired"))
  {
    SessionStands(Deliver(a, w, now, later).0, ops, w.body.value.sessionId);
  }

  // ---- The objects ----

  class InMemoryWebhookDeduplication {
    var seen: map<string, int>

    constructor ()
      ensures seen == map[]
    {
      seen := map[];
    }

    method HasBeenProcessed(eventId: string, now: int) returns (r: bool)
      modifies this
      ensures seen == Forget(old(seen), eventId, now)
      ensures r <==> eventId in old(seen) && now <= old(seen)[eventId]
      ensures seen == if eventId in old(seen) && !r then old(seen) - {eventId} else old(seen)
    {
      if eventId !in seen {
        return false;
      }
      if now > seen[eventId] {
        seen := seen - {eventId};
        return false;
      }
      return true;
    }

    method MarkProcessed(eventId: string, ttlSeconds: int, now: int)
      modifies this
      ensures seen == old(seen)[eventId := now + ttlSeconds * 1000]
    {
      seen := seen[eventId := now + ttlSeconds * 1000];
    }
  }

  datatype FetchError = SessionNotFound | StillPending

  datatype Verdict = Passed(result: SessionResult) | NotPassed(errorCode: Option<string>)

  class VideoKycAdapter {
    const dedup: InMemoryWebhookDeduplication
    var sessions: Sessions

    constructor (dedup: InMemoryWebhookDeduplication)
      ensures this.dedup == dedup && sessions == map[]
    {
      this.dedup := dedup;
      sessions := map[];
    }

    function State(): Adapter
      reads this, dedup
    {
      Adapter(sessions, dedup.seen)
    }

    /** After the vendor has created the session. */
    method SessionCreated(sessionId: string, customerId: string)
      modifies this
      ensures sessions == Created(old(sessions), sessionId, customerId)
      ensures sessions == old(sessions)[sessionId := Session(customerId, Pending, None, None)]
    {
      sessions := sessions[sessionId := Session(customerId, Pending, None, None)];
    }

    method HandleCallback(w: Webhook, now: int, later: int) returns (r: Result<Callback, CallbackError>)
      modifies this, dedup
      ensures (State(), r) == Deliver(old(State()), w, now, later)
      ensures !w.signed ==> r == Err(InvalidSignature) && State() == old(State())
      ensures var known := w.eventId in old(dedup.seen) && now <= old(dedup.seen)[w.eventId];
              && (w.signed && known ==> r == Ok(Callback(true, false)) && State() == old(State()))
              && (w.signed && !known && w.body == None ==> r == Err(MalformedBody) && sessions == old(sessions))
              && (w.signed && !known && w.body.Some? && w.body.value.sessionId !in old(sessions) ==>
                    r == Err(UnknownSession) && sessions == old(sessions))
              && (w.signed && !known && w.body.Some? && w.body.value.sessionId in old(sessions) ==>
                    && r == Ok(Callback(false, w.body.value.sessionId in sessions && sessions[w.body.value.sessionId].status == Completed))
                    && sessions.Keys == old(sessions).Keys
                    && (forall id :: id in sessions && id != w.body.value.sessionId ==> sessions[id] == old(sessions)[id])
                    && w.eventId in dedup.seen && dedup.seen[w.eventId] == later + 72 * 60 * 60 * 1000)
    {
      if !w.signed {
        return Err(InvalidSignature);
      }
      var alreadyProcessed := dedup.HasBeenProcessed(w.eventId, now);
      if alreadyProcessed {
        return Ok(Callback(true, false));
      }
      if w.body == None {
        return Err(MalformedBody);
      }
      var body := w.body.value;
      if body.sessionId !in sessions {
        return Err(UnknownSession);
      }
      var session := sessions[body.sessionId];
      match body.kind {
        case SessionCompleted =>
          session := session.(status := Completed,
                              result := Some(SessionResult(OrZero(body.livenessScore), OrZero(body.faceMatchConfidence), body.recordingUrl)));
        case SessionFailed =>
          session := session.(status := Failed, errorCode := Some(if body.errorCode.Some? then body.errorCode.value else "session.failed"));
        case SessionExpired =>
          session := session.(status := Failed, errorCode := Some(if body.errorCode.Some? then body.errorCode.value else "session.expired"));
        case SessionStarted =>
        case UnknownKind =>
      }
      sessions := sessions[body.sessionId := session];
      dedup.MarkProcessed(w.eventId, 72 * 60 * 60, later);
      return Ok(Callback(false, session.status == Completed));
    }

    /** A settled session has what its verdict needs. */
    method FetchResult(referenceId: string) returns (r: Result<Verdict, FetchError>)
      requires Complete(sessions)
      ensures r == Err(SessionNotFound) <==> referenceId !in sessions
      ensures r == Err(StillPending) <==> referenceId in sessions && sessions[referenceId].status == Pending
      ensures r.Ok? && r.value.Passed? ==> sessions[referenceId].result == Some(r.value.result) && sessions[referenceId].status == Completed
      ensures r.Ok? && r.value.NotPassed? ==> r.value.errorCode.Some? && r.value.errorCode == sessions[referenceId].errorCode
                                              && sessions[referenceId].status == Failed
    {
      if referenceId !in sessions {
        return Err(SessionNotFound);
      }
      var session := sessions[referenceId];
      match session.status
      case Pending => return Err(StillPending);
      case Failed => return Ok(NotPassed(session.errorCode));
      case Completed => return Ok(Passed(session.result.value));
    }
  }
}
