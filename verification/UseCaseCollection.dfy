/** Document collection: which documents count, when a request leaves it, and what one initiation per customer would mean. */
module UseCaseCollection {
  import opened Common
  import opened VerificationStateMachine
  import opened UseCases
  import opened UseCaseInvariants
  import opened UseCaseOutcomes
  import Timers
  import Risk

  predicate Collecting(s: Status) {
    s == DocumentsPending || s == DocumentsReceived
  }

  predicate GotPast(w: World, r: string, tier: Risk.Tier) {
    r in w.requests && w.requests[r].tier == tier && !Collecting(w.requests[r].status)
  }

  // ---- The documents of a history ----

  /** The upload gets as far as storing its document, whatever becomes of it then. */
  predicate Stores(w: World, c: Command) {
    c.UploadDocument? && c.requestId in w.requests && c.customerId in w.customers && c.stored
  }

  /** The types stored for a customer over a run: under any request, by accepted and rejected uploads alike. */
  function StoredTypes(provider: Provider, w: World, cs: seq<Command>, customerId: string): set<string>
    decreases cs
  {
    if cs == [] then {}
    else (if Stores(w, cs[0]) && cs[0].customerId == customerId then {cs[0].documentType} else {})
         + StoredTypes(provider, Perform(provider, w, cs[0]).0, cs[1..], customerId)
  }

  lemma StoresOne(provider: Provider, w: World, c: Command, customerId: string)
    ensures DocumentsOf(Perform(provider, w, c).0, customerId)
            == DocumentsOf(w, customerId) + (if Stores(w, c) && c.customerId == customerId then {c.documentType} else {})
  {
    hide PassFor, TimersAfterPass, MandatoryTypes;
    if Stores(w, c) {
      UploadCases(provider, w, c);
    }
    hide Step, Definition, Guard, UploadVerdict, WebhookVerdict, Fire;
  }

  lemma {:induction false} DocumentsAreHistory(provider: Provider, w: World, cs: seq<Command>, customerId: string)
    ensures DocumentsOf(PerformAll(provider, w, cs), customerId) == DocumentsOf(w, customerId) + StoredTypes(provider, w, cs, customerId)
    decreases cs
  {
    hide Perform, Stores;
    if cs != [] {
      StoresOne(provider, w, cs[0], customerId);
      DocumentsAreHistory(provider, Perform(provider, w, cs[0]).0, cs[1..], customerId);
    }
  }

  // ---- Leaving collection ----

  lemma {:induction false} PastStaysPast(provider: Provider, w: World, cs: seq<Command>, r: string, tier: Risk.Tier)
    requires GotPast(w, r, tier) && forall c :: c in cs ==> OpensOther(c, r)
    ensures GotPast(PerformAll(provider, w, cs), r, tier)
    decreases cs
  {
    hide Perform;
    if cs != [] {
      assert OpensOther(cs[0], r);
      PastStaysOnce(provider, w, cs[0], r, tier);
      PastStaysPast(provider, Perform(provider, w, cs[0]).0, cs[1..], r, tier);
    }
  }

  lemma PastStaysOnce(provider: Provider, w: World, c: Command, r: string, tier: Risk.Tier)
    requires GotPast(w, r, tier) && OpensOther(c, r)
    ensures GotPast(Perform(provider, w, c).0, r, tier)
  {
    hide Perform;
    match c
    case Initiate(_, _, _) => InitiateCases(provider, w, c);
    case UploadDocument(_, _, _, _, _, _, _) => PastStaysOnUpload(provider, w, c, r, tier);
    case ProcessWebhook(_, _, _, _) => PastStaysOnWebhook(provider, w, c, r, tier);
  }

  lemma PastStaysOnUpload(provider: Provider, w: World, c: Command, r: string, tier: Risk.Tier)
    requires GotPast(w, r, tier) && c.UploadDocument?
    ensures GotPast(Perform(provider, w, c).0, r, tier)
  {
    hide PassFor, MandatoryTypes, TimersAfterPass;
    if Stores(w, c) {
      hide Perform, PerformUpload;
      UploadCases(provider, w, c);
    }
  }

  lemma PastStaysOnWebhook(provider: Provider, w: World, c: Command, r: string, tier: Risk.Tier)
    requires GotPast(w, r, tier) && c.ProcessWebhook?
    ensures GotPast(Perform(provider, w, c).0, r, tier)
  {
    hide PassFor, Timers.AllCancelled;
    if c.requestId in w.requests && w.requests[c.requestId].customerId in w.customers && c.callback.Ok? && !c.callback.value.wasDuplicate {
      hide Perform, PerformWebhook;
      WebhookCases(provider, w, c);
    }
  }

  lemma UploadLeavesIff(provider: Provider, w: World, c: Command)
    requires Stores(w, c) && w.requests[c.requestId].status == DocumentsPending
    requires PassFor(provider(w.requests[c.requestId].tier), c.vendors).Ok?
    ensures var w', tier := Perform(provider, w, c).0, w.requests[c.requestId].tier;
            && c.requestId in w'.requests
            && (if MandatoryTypes(provider(tier)) <= DocumentsOf(w, c.customerId) + {c.documentType}
                then GotPast(w', c.requestId, tier) else w'.requests[c.requestId].status == DocumentsReceived)
  {
    UploadCases(provider, w, c);
    hide PassFor, Perform, MandatoryTypes, TimersAfterPass;
  }

  /**
   A request takes one upload. After any history and before any future, that
   upload gets it past document collection exactly when the documents stored
   for the named customer so far — under whatever request, and by uploads that
   were themselves rejected — together with the new one cover the mandatory types.
   */
  lemma LeavesCollectionIff(provider: Provider, w: World, history: seq<Command>, c: Command, future: seq<Command>)
    requires Untouched(w) && forall f :: f in future ==> OpensOther(f, c.requestId)
    requires var now := PerformAll(provider, w, history);
             && Stores(now, c) && now.requests[c.requestId].status == DocumentsPending
             && Serves(provider, now, c.requestId, c.vendors) && !CanThrow(provider, now.requests[c.requestId].tier)
    ensures var tier := PerformAll(provider, w, history).requests[c.requestId].tier;
            GotPast(PerformAll(provider, w, history + [c] + future), c.requestId, tier)
            <==> forall d :: d in provider(tier).requiredDocuments && d.mandatory ==>
                   d.documentType in StoredTypes(provider, w, history, c.customerId) || d.documentType == c.documentType
  {
    var now := PerformAll(provider, w, history);
    var tier := now.requests[c.requestId].tier;
    DocumentsAreHistory(provider, w, history, c.customerId);
    CoveredMeansMandatory(provider(tier), StoredTypes(provider, w, history, c.customerId), c.documentType);
    SafePass(provider, tier, c.vendors);
    PerformAllSnoc(provider, w, history, c);
    PerformAllConcat(provider, w, history + [c], future);
    UploadLeavesIff(provider, now, c);
    hide Perform, PerformAll, PassFor, MandatoryTypes, StoredTypes;
    var next := Perform(provider, now, c).0;
    if GotPast(next, c.requestId, tier) {
      PastStaysPast(provider, next, future, c.requestId, tier);
    } else {
      SettledForEver(provider, next, future, c.requestId);
    }
  }

  // ---- If every customer were initiated once ----

  ghost predicate NeedsSeveral(provider: Provider, tier: Risk.Tier) {
    |MandatoryTypes(provider(tier))| >= 2
  }

  /** A request of a tier with several mandatory types is still collecting, and has no document while it may receive one. */
  ghost predicate StuckAt(provider: Provider, w: World, r: string)
    requires r in w.requests
  {
    NeedsSeveral(provider, w.requests[r].tier) ==>
      && Collecting(w.requests[r].status)
      && (w.requests[r].status == DocumentsPending ==> DocumentsOf(w, w.requests[r].customerId) == {})
  }

  ghost predicate Stuck(provider: Provider, w: World) {
    && OneRequestEach(w)
    && (forall c :: c in w.documents && w.documents[c] != {} ==> HasRequest(w, c))
    && (forall r :: r in w.requests ==> StuckAt(provider, w, r))
  }

  lemma OneIsNotEnough(s: set<string>, t: string)
    requires |s| >= 2
    ensures !(s <= {t})
  {
    if s <= {t} {
      SubsetSize(s, {t});
    }
  }

  lemma {:induction false} SubsetSize(s: set<string>, t: set<string>)
    requires s <= t
    ensures |s| <= |t|
  {
    if x :| x in s {
      SubsetSize(s - {x}, t - {x});
    }
  }

  /** Only the named request may have changed, and only in status and completion time. */
  predicate Touches(w: World, w': World, r: string)
    requires r in w.requests
  {
    && w'.requests.Keys == w.requests.Keys
    && (forall s :: s in w.requests && s != r ==> w'.requests[s] == w.requests[s])
    && w'.requests[r].customerId == w.requests[r].customerId && w'.requests[r].tier == w.requests[r].tier
  }

  lemma TouchedRequestsStayKnown(w: World, w': World, r: string, customerId: string)
    requires r in w.requests && Touches(w, w', r) && HasRequest(w, customerId)
    ensures HasRequest(w', customerId)
  {
    var s :| s in w.requests && w.requests[s].customerId == customerId;
    assert w'.requests[s].customerId == customerId;
  }

  lemma UploadTouches(provider: Provider, w: World, c: Command)
    requires c.UploadDocument? && c.requestId in w.requests && c.customerId in w.customers && c.stored
    requires c.customerId == w.requests[c.requestId].customerId && StuckAt(provider, w, c.requestId)
    ensures var w' := Perform(provider, w, c).0;
            Touches(w, w', c.requestId) && StuckAt(provider, w', c.requestId) && w'.documents == WithDocument(w, c).documents
  {
    hide PassFor, MandatoryTypes, TimersAfterPass;
    var tier := w.requests[c.requestId].tier;
    if NeedsSeveral(provider, tier) && w.requests[c.requestId].status == DocumentsPending {
      assert DocumentsOf(WithDocument(w, c), c.customerId) == {c.documentType};
      OneIsNotEnough(MandatoryTypes(provider(tier)), c.documentType);
    }
    hide Perform, NeedsSeveral;
    UploadCases(provider, w, c);
  }

  lemma TouchedStaysStuck(provider: Provider, w: World, w': World, r: string)
    requires Stuck(provider, w) && r in w.requests && Touches(w, w', r) && StuckAt(provider, w', r)
    requires forall d :: d in w'.documents && d != w.requests[r].customerId ==> d in w.documents && w'.documents[d] == w.documents[d]
    requires forall d :: d in w.documents ==> d in w'.documents
    ensures Stuck(provider, w')
  {
    hide NeedsSeveral;
    forall s | s in w'.requests ensures StuckAt(provider, w', s) {
      assert StuckAt(provider, w, s);
    }
    hide StuckAt;
    assert HasRequest(w, w.requests[r].customerId);
    forall d | d in w'.documents && w'.documents[d] != {} ensures HasRequest(w', d) {
      TouchedRequestsStayKnown(w, w', r, d);
    }
  }

  lemma UploadKeepsStuck(provider: Provider, w: World, c: Command)
    requires Stuck(provider, w) && c.UploadDocument? && Considerate(w, c)
    requires c.requestId in w.requests && c.customerId in w.customers && c.stored
    ensures Stuck(provider, Perform(provider, w, c).0)
  {
    UploadTouches(provider, w, c);
    TouchedStaysStuck(provider, w, Perform(provider, w, c).0, c.requestId);
  }

  lemma WebhookTouches(provider: Provider, w: World, c: Command)
    requires c.ProcessWebhook? && c.requestId in w.requests && w.requests[c.requestId].customerId in w.customers
    requires c.callback.Ok? && !c.callback.value.wasDuplicate && StuckAt(provider, w, c.requestId)
    ensures var w' := Perform(provider, w, c).0;
            Touches(w, w', c.requestId) && StuckAt(provider, w', c.requestId) && w'.documents == w.documents
  {
    WebhookCases(provider, w, c);
    hide PassFor, Perform, NeedsSeveral, DocumentsOf, Timers.AllCancelled;
  }

  lemma WebhookKeepsStuck(provider: Provider, w: World, c: Command)
    requires Stuck(provider, w) && c.ProcessWebhook?
    ensures Stuck(provider, Perform(provider, w, c).0)
  {
    if c.requestId in w.requests && w.requests[c.requestId].customerId in w.customers && c.callback.Ok? && !c.callback.value.wasDuplicate {
      hide Perform;
      WebhookTouches(provider, w, c);
      TouchedStaysStuck(provider, w, Perform(provider, w, c).0, c.requestId);
    }
  }

  lemma InitiateKeepsStuck(provider: Provider, w: World, c: Command)
    requires Stuck(provider, w) && c.Initiate? && Considerate(w, c) && Feasible(provider, w, c)
    ensures Stuck(provider, Perform(provider, w, c).0)
  {
    var w' := Perform(provider, w, c).0;
    if w' != w {
      InitiateCases(provider, w, c);
      hide Perform, NeedsSeveral;
      forall s | s in w'.requests ensures StuckAt(provider, w', s) {
        if s != c.requestId {
          assert StuckAt(provider, w, s);
        }
      }
      forall d | d in w'.documents && w'.documents[d] != {} ensures HasRequest(w', d) {
        var s :| s in w.requests && w.requests[s].customerId == d;
        assert w'.requests[s].customerId == d;
      }
    }
  }

  lemma PerformKeepsStuck(provider: Provider, w: World, c: Command)
    requires Stuck(provider, w) && Considerate(w, c) && Feasible(provider, w, c)
    ensures Stuck(provider, Perform(provider, w, c).0)
  {
    hide Stuck, PassFor, MandatoryTypes;
    match c
    case Initiate(_, _, _) => InitiateKeepsStuck(provider, w, c);
    case ProcessWebhook(_, _, _, _) => WebhookKeepsStuck(provider, w, c);
    case UploadDocument(_, _, _, _, _, _, _) =>
      if c.requestId in w.requests && c.customerId in w.customers && c.stored {
        UploadKeepsStuck(provider, w, c);
      }
  }

  /** With one initiation per customer and documents sent for its own request, a tier with several mandatory types is stuck. */
  lemma {:induction false} StuckIfInitiatedOnce(provider: Provider, w: World, cs: seq<Command>)
    requires Stuck(provider, w) && FeasibleRun(provider, w, cs) && ConsiderateRun(provider, w, cs)
    ensures Stuck(provider, PerformAll(provider, w, cs))
    decreases cs
  {
    if cs != [] {
      PerformKeepsStuck(provider, w, cs[0]);
      hide Stuck, Perform;
      StuckIfInitiatedOnce(provider, Perform(provider, w, cs[0]).0, cs[1..]);
    }
  }
}
