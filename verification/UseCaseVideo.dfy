/** A video session's webhooks as the webhook use case sees them. */
module UseCaseVideo {
  import opened Common
  import opened VerificationStateMachine
  import opened UseCases
  import opened UseCaseInvariants
  import VideoKyc

  const NO_SESSIONS := VideoKyc.Adapter(map[], map[])

  /** The delivery is genuine, new, and about a session the adapter knows. */
  predicate IsNews(a: VideoKyc.Adapter, d: VideoKyc.Webhook, now: int) {
    d.signed && !VideoKyc.Remembered(a.seen, d.eventId, now) && d.body.Some? && d.body.value.sessionId in a.sessions
  }

  function Received(requestId: string, a: VideoKyc.Adapter, d: VideoKyc.Webhook, vendors: Vendors, now: int, later: int): Command {
    ProcessWebhook(requestId, VideoKyc.Deliver(a, d, now, later).1, vendors, now)
  }

  /**
   After any history of sessions and deliveries, a new webhook rejects a
   waiting request on the spot — without a pass — exactly when it reports a
   failure or an expiry, or settles nothing while the accepted webhooks so far
   have not last reported the session completed.
   */
  lemma VideoWebhookRejectsIff(provider: Provider, w: World, requestId: string, history: seq<VideoKyc.Op>, start: int,
                               d: VideoKyc.Webhook, vendors: Vendors, now: int, later: int)
    requires requestId in w.requests && w.requests[requestId].customerId in w.customers && w.requests[requestId].status == CallbackAwaited
    requires VideoKyc.WithinSpan(history, start) && IsNews(VideoKyc.PerformAll(NO_SESSIONS, history), d, now)
    ensures var kind := d.body.value.kind;
            var c := Received(requestId, VideoKyc.PerformAll(NO_SESSIONS, history), d, vendors, now, later);
            var settled := VideoKyc.LastWord(VideoKyc.Once(map[], {}, history), d.body.value.sessionId);
            && (!Resumes(w, c) <==> kind in {VideoKyc.SessionFailed, VideoKyc.SessionExpired}
                                    || (!VideoKyc.Settles(kind) && settled != VideoKyc.Completed))
            && (!Resumes(w, c) ==> Perform(provider, w, c).1 == Ok(Some(Rejected)))
  {
    var a := VideoKyc.PerformAll(NO_SESSIONS, history);
    VideoKyc.StatusIsLastWord(history, start, d.body.value.sessionId);
    var c := Received(requestId, a, d, vendors, now, later);
    WebhookCases(provider, w, c);
    hide Perform, PassFor, VideoKyc.PerformAll, VideoKyc.Once, VideoKyc.LastWord;
  }

  /** The very first webhook of a session, which only says that it has started, rejects the request. */
  lemma StartedSessionRejects(provider: Provider, w: World, requestId: string, sessionId: string, customerId: string,
                              eventId: string, vendors: Vendors, now: int, later: int)
    requires requestId in w.requests && w.requests[requestId].customerId in w.customers && w.requests[requestId].status == CallbackAwaited
    ensures var a := VideoKyc.PerformAll(NO_SESSIONS, [VideoKyc.Create(sessionId, customerId)]);
            var started := VideoKyc.Webhook(eventId, true, Some(VideoKyc.Body(VideoKyc.SessionStarted, sessionId, None, None, None, None)));
            IsNews(a, started, now) && Perform(provider, w, Received(requestId, a, started, vendors, now, later)).1 == Ok(Some(Rejected))
  {
    var history := [VideoKyc.Create(sessionId, customerId)];
    assert history[1..] == [] && history[..0] == [];
    var a := VideoKyc.PerformAll(NO_SESSIONS, history);
    assert a == VideoKyc.PerformAll(VideoKyc.Perform(NO_SESSIONS, history[0]), []);
    var started := VideoKyc.Webhook(eventId, true, Some(VideoKyc.Body(VideoKyc.SessionStarted, sessionId, None, None, None, None)));
    assert VideoKyc.Once(map[], {}, history) == history + VideoKyc.Once(VideoKyc.Created(map[], sessionId, customerId), {}, []);
    assert VideoKyc.Once(map[], {}, history) == history;
    hide Perform;
    VideoWebhookRejectsIff(provider, w, requestId, history, now, started, vendors, now, later);
  }
}
