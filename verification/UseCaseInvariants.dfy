/** What every run of the use cases keeps, and exactly when a single call fails to keep it. */
module UseCaseInvariants {
  import opened Common
  import opened VerificationStateMachine
  import opened UseCases
  import WorkflowPlan
  import WorkflowEngine
  import WorkflowReach
  import VendorSteps
  import Timers
  import Risk

  // ---- The invariant ----

  predicate IsCallbackTimer(t: Timers.Timer, customerId: string) {
    t.customerId == customerId && t.timerType == Timers.VendorCallbackTimeout && Timers.IsActive(t)
  }

  predicate HasCallbackTimer(timers: seq<Timers.Timer>, customerId: string) {
    exists i :: 0 <= i < |timers| && IsCallbackTimer(timers[i], customerId)
  }

  predicate HasRequest(w: World, customerId: string) {
    exists r :: r in w.requests && w.requests[r].customerId == customerId
  }

  /** No other request belongs to the request's customer. */
  predicate Sole(w: World, r: string)
    requires r in w.requests
  {
    forall s :: s in w.requests && w.requests[s].customerId == w.requests[r].customerId ==> s == r
  }

  predicate OneRequestEach(w: World) {
    forall r :: r in w.requests ==> Sole(w, r)
  }

  /** The request's customer shares its status and has at least its tier; the request is completed exactly when verified or rejected. */
  predicate RecordsAgree(w: World, r: string)
    requires r in w.requests
  {
    && w.requests[r].customerId in w.customers
    && w.customers[w.requests[r].customerId].status == w.requests[r].status
    && (w.requests[r].completedAt.Some? <==> IsTerminal(w.requests[r].status))
    && Risk.Rank(w.requests[r].tier) <= Risk.Rank(w.customers[w.requests[r].customerId].tier)
  }

  /** The timer belongs to a request of its customer and is due 72 hours after it was created. */
  predicate Names(w: World, t: Timers.Timer) {
    && t.requestId.Some? && t.requestId.value in w.requests
    && w.requests[t.requestId.value].customerId == t.customerId
    && t.fireAt == t.createdAt + 72 * 60 * 60 * 1000
  }

  /** Every running callback timer names its request. */
  predicate AllNamed(w: World, timers: seq<Timers.Timer>) {
    forall i :: 0 <= i < |timers| && IsCallbackTimer(timers[i], timers[i].customerId) ==> Names(w, timers[i])
  }

  /** A callback timer runs for a customer exactly while that customer's request waits for a callback. */
  predicate TimersAgree(w: World) {
    && (forall r :: r in w.requests ==>
          (HasCallbackTimer(w.timers, w.requests[r].customerId) <==> w.requests[r].status == CallbackAwaited))
    && AllNamed(w, w.timers)
  }

  predicate Inv(w: World) {
    && Timers.UniqueIds(w.timers)
    && (forall r :: r in w.requests ==> RecordsAgree(w, r))
    && TimersAgree(w)
  }

  /** Nothing has been asked of the service yet. */
  predicate Untouched(w: World) {
    w.requests == map[] && w.documents == map[] && w.timers == []
  }

  // ---- Runs ----

  function GroupsOf(provider: Provider, tier: Risk.Tier): seq<seq<WorkflowPlan.WorkflowStep>> {
    WorkflowPlan.GroupSteps(WorkflowPlan.SortByOrder(provider(tier).steps))
  }

  /** Some clients lead a pass of the tier to a guard on an unknown flag. */
  predicate CanThrow(provider: Provider, tier: Risk.Tier) {
    WorkflowReach.CanMeetUnknownFlag(GroupsOf(provider, tier), VendorSteps.NatureOf(provider(tier).context))
  }

  ghost predicate SafeProvider(provider: Provider) {
    forall tier :: !CanThrow(provider, tier)
  }

  /** The vendors are the adapters in the tier's context, with whatever clients, and complete each call once. */
  ghost predicate ServesTier(provider: Provider, tier: Risk.Tier, v: Vendors) {
    VendorSteps.Serves(provider(tier).context, v.vendor, v.completion, GroupsOf(provider, tier))
  }

  ghost predicate Serves(provider: Provider, w: World, r: string, v: Vendors) {
    r in w.requests ==> ServesTier(provider, w.requests[r].tier, v)
  }

  /** What the surroundings guarantee for any call: random ids are fresh, and the adapters serve it. */
  ghost predicate Feasible(provider: Provider, w: World, c: Command) {
    match c
    case Initiate(_, _, requestId) => requestId !in w.requests
    case UploadDocument(requestId, _, _, _, vendors, timerId, _) => !Timers.HasId(w.timers, timerId) && Serves(provider, w, requestId, vendors)
    case ProcessWebhook(requestId, _, vendors, _) => Serves(provider, w, requestId, vendors)
  }

  /** What callers have to add: a customer is initiated once, and documents are sent for the request's own customer. */
  predicate Considerate(w: World, c: Command) {
    match c
    case Initiate(customerId, _, _) => !HasRequest(w, customerId)
    case UploadDocument(requestId, customerId, _, _, _, _, _) => requestId in w.requests ==> customerId == w.requests[requestId].customerId
    case ProcessWebhook(_, _, _, _) => true
  }

  ghost predicate FeasibleRun(provider: Provider, w: World, cs: seq<Command>)
    decreases cs
  {
    cs == [] || (Feasible(provider, w, cs[0]) && FeasibleRun(provider, Perform(provider, w, cs[0]).0, cs[1..]))
  }

  ghost predicate ConsiderateRun(provider: Provider, w: World, cs: seq<Command>)
    decreases cs
  {
    cs == [] || (Considerate(w, cs[0]) && ConsiderateRun(provider, Perform(provider, w, cs[0]).0, cs[1..]))
  }

  // ---- Timers ----

  lemma CancellingStopsOne(timers: seq<Timers.Timer>, customerId: string, now: int, c: string)
    ensures HasCallbackTimer(Timers.AllCancelled(timers, customerId, Timers.VendorCallbackTimeout, now), c)
            <==> c != customerId && HasCallbackTimer(timers, c)
  {
    var after := Timers.AllCancelled(timers, customerId, Timers.VendorCallbackTimeout, now);
    if c != customerId && HasCallbackTimer(timers, c) {
      var i :| 0 <= i < |timers| && IsCallbackTimer(timers[i], c);
      assert IsCallbackTimer(after[i], c);
    }
  }

  lemma SchedulingStartsOne(timers: seq<Timers.Timer>, t: Timers.Timer, c: string)
    requires Timers.UniqueIds(timers) && !Timers.HasId(timers, t.timerId)
    ensures Timers.UniqueIds(Timers.Saved(timers, t))
    ensures HasCallbackTimer(Timers.Saved(timers, t), c) <==> HasCallbackTimer(timers, c) || IsCallbackTimer(t, c)
  {
    var after := timers + [t];
    assert after[|timers|] == t;
    if HasCallbackTimer(timers, c) {
      var i :| 0 <= i < |timers| && IsCallbackTimer(timers[i], c);
      assert IsCallbackTimer(after[i], c);
    }
  }

  /** The timers changed for one customer only, who now has one exactly if told to; those running name their requests. */
  ghost predicate Retimed(w: World, after: seq<Timers.Timer>, customerId: string, running: bool) {
    && Timers.UniqueIds(after) && AllNamed(w, after)
    && forall c :: HasCallbackTimer(after, c) <==> if c == customerId then running else HasCallbackTimer(w.timers, c)
  }

  lemma Retiming(w: World, customerId: string, now: int)
    requires Inv(w)
    ensures Retimed(w, Timers.AllCancelled(w.timers, customerId, Timers.VendorCallbackTimeout, now), customerId, false)
  {
    forall c {
      CancellingStopsOne(w.timers, customerId, now, c);
    }
  }

  lemma TimerMeansRequest(w: World, customerId: string)
    requires AllNamed(w, w.timers) && HasCallbackTimer(w.timers, customerId)
    ensures HasRequest(w, customerId)
  {
    var i :| 0 <= i < |w.timers| && IsCallbackTimer(w.timers[i], customerId);
    assert Names(w, w.timers[i]);
  }

  // ---- Statuses ----

  /** Where the events of the two use cases lead. */
  lemma AcceptanceTable(status: Status)
    ensures Step(Machine(status, None), Firing(DocUploaded))
            == if status == DocumentsPending then Ok(Machine(DocumentsReceived, None)) else Err(NotDefined)
    ensures Step(Machine(status, None), Firing(CallbackReceived))
            == if status == CallbackAwaited then Ok(Machine(InProgress, None)) else Err(NotDefined)
  {}

  lemma OutcomeTable(r: WorkflowEngine.WorkflowResult)
    ensures Fire(Fire(Machine(DocumentsReceived, None), VerifyStart), UploadVerdict(r))
            == Machine(if r.awaitingCallback then CallbackAwaited else if r.awaitingManualStep then Escalated
                       else if r.allStepsSucceeded then Verified else Rejected, None)
    ensures Fire(Machine(InProgress, None), StepFailed) == Machine(Rejected, None)
    ensures Fire(Machine(InProgress, None), WebhookVerdict(r))
            == Machine(if r.awaitingManualStep then Escalated else if r.allStepsSucceeded then Verified else Rejected, None)
  {}

  // ---- Each call ----

  /** Persisting a status together with matching timers restores agreement. */
  lemma PersistKeeps(w: World, timers: seq<Timers.Timer>, r: string, status: Status, now: int)
    requires Inv(w) && r in w.requests && Sole(w, r) && !IsTerminal(w.requests[r].status)
    requires Retimed(w, timers, w.requests[r].customerId, status == CallbackAwaited)
    ensures Inv(Persisted(w.(timers := timers), r, w.requests[r].customerId, status, now))
  {
    var w' := Persisted(w.(timers := timers), r, w.requests[r].customerId, status, now);
    assert RecordsAgree(w, r);
    forall s | s in w'.requests
      ensures RecordsAgree(w', s)
      ensures w'.requests[s].customerId == w.requests[s].customerId
      ensures HasCallbackTimer(timers, w'.requests[s].customerId) <==> w'.requests[s].status == CallbackAwaited
    {
      assert RecordsAgree(w, s);
    }
    assert forall t :: Names(w, t) ==> Names(w', t);
  }

  /** An initiation opens a request and raises the customer's tier, or changes nothing. */
  lemma InitiateCases(provider: Provider, w: World, c: Command)
    requires c.Initiate?
    ensures var config, (w', answer) := provider(c.tier), Perform(provider, w, c);
            if c.customerId in w.customers && config.targetCompletionMinutes > 0 && config.requiredDocuments != [] then
              var tier := if Risk.Rank(c.tier) > Risk.Rank(w.customers[c.customerId].tier) then c.tier else w.customers[c.customerId].tier;
              && answer == Ok(Some(DocumentsPending))
              && w' == w.(requests := w.requests[c.requestId := Request(c.customerId, c.tier, DocumentsPending, None)],
                          customers := w.customers[c.customerId := CustomerRecord(tier, DocumentsPending)])
            else w' == w && answer.Err?
  {}

  /** The initiation is accepted. */
  predicate Opens(provider: Provider, w: World, c: Command)
    requires c.Initiate?
  {
    c.customerId in w.customers && provider(c.tier).targetCompletionMinutes > 0 && provider(c.tier).requiredDocuments != []
  }

  /** All requests the customer already has wait for documents. */
  predicate AllPending(w: World, customerId: string) {
    forall r :: r in w.requests && w.requests[r].customerId == customerId ==> w.requests[r].status == DocumentsPending
  }

  lemma InitiateKeeps(provider: Provider, w: World, c: Command)
    requires Inv(w) && c.Initiate? && c.requestId !in w.requests && AllPending(w, c.customerId)
    ensures Inv(Perform(provider, w, c).0)
  {
    InitiateCases(provider, w, c);
    hide Perform;
    var w' := Perform(provider, w, c).0;
    if w' != w {
      if HasCallbackTimer(w.timers, c.customerId) {
        TimerMeansRequest(w, c.customerId);
      }
      hide HasCallbackTimer;
      assert forall t :: Names(w, t) ==> Names(w', t);
      hide Names;
      assert TimersAgree(w');
      hide TimersAgree;
      forall s | s in w'.requests ensures RecordsAgree(w', s) {
        if s != c.requestId {
          assert RecordsAgree(w, s);
        }
      }
      hide RecordsAgree;
    }
  }

  /**
   An initiation keeps the service consistent exactly when it is turned away or
   every request the customer has still waits for documents: nothing stops a
   second initiation, and it leaves the customer with the newer status alone.
   */
  lemma InitiateKeepsIff(provider: Provider, w: World, c: Command)
    requires Inv(w) && c.Initiate? && c.requestId !in w.requests
    ensures Inv(Perform(provider, w, c).0) <==> !Opens(provider, w, c) || AllPending(w, c.customerId)
  {
    InitiateCases(provider, w, c);
    if AllPending(w, c.customerId) {
      InitiateKeeps(provider, w, c);
    } else if Opens(provider, w, c) {
      var r :| r in w.requests && w.requests[r].customerId == c.customerId && w.requests[r].status != DocumentsPending;
      hide Perform;
      assert !RecordsAgree(Perform(provider, w, c).0, r);
    }
  }

  lemma DocumentsDoNotMatter(w: World, documents: map<string, set<string>>)
    requires Inv(w)
    ensures Inv(w.(documents := documents))
  {
    var w' := w.(documents := documents);
    forall s | s in w'.requests ensures RecordsAgree(w', s) {
      assert RecordsAgree(w, s);
    }
    assert forall t :: Names(w, t) ==> Names(w', t);
  }

  function UploadStatus(r: WorkflowEngine.WorkflowResult): Status {
    if r.awaitingCallback then CallbackAwaited else if r.awaitingManualStep then Escalated
    else if r.allStepsSucceeded then Verified else Rejected
  }

  function WebhookStatus(r: WorkflowEngine.WorkflowResult): Status {
    if r.awaitingManualStep then Escalated else if r.allStepsSucceeded then Verified else Rejected
  }

  /** The world once an upload's document is stored. */
  function WithDocument(w: World, c: Command): World
    requires c.UploadDocument?
  {
    w.(documents := w.documents[c.customerId := DocumentsOf(w, c.customerId) + {c.documentType}])
  }

  lemma UploadCases(provider: Provider, w: World, c: Command)
    requires c.UploadDocument? && c.requestId in w.requests && c.customerId in w.customers && c.stored
    ensures var (w', request) := (WithDocument(w, c), w.requests[c.requestId]);
            var config, result := provider(request.tier), Perform(provider, w, c);
            if request.status != DocumentsPending then result == (w', Err(TransitionRejected(NotDefined)))
            else if !(MandatoryTypes(config) <= DocumentsOf(w', c.customerId)) then
              result == (Persisted(w', c.requestId, c.customerId, DocumentsReceived, c.now), Ok(Some(DocumentsReceived)))
            else match PassFor(config, c.vendors)
              case Err(name) => result == (w', Err(UnknownFlag(name)))
              case Ok(r) =>
                result == (Persisted(w'.(timers := TimersAfterPass(w.timers, r, c)), c.requestId, c.customerId, UploadStatus(r), c.now),
                           Ok(Some(UploadStatus(r))))
  {
    hide PassFor, MandatoryTypes, TimersAfterPass, Persisted;
    var status := w.requests[c.requestId].status;
    var pass := PassFor(provider(w.requests[c.requestId].tier), c.vendors);
    AcceptanceTable(status);
    OutcomeTable(if pass.Ok? then pass.value else WorkflowEngine.WorkflowResult(true, true, true, []));
    hide Step, Definition, Guard, UploadVerdict, Firing;
  }

  function Quieted(w: World, r: string, now: int): World
    requires r in w.requests
  {
    w.(timers := Timers.AllCancelled(w.timers, w.requests[r].customerId, Timers.VendorCallbackTimeout, now))
  }

  /** The webhook reaches the workflow: a successful new callback for a request that waits for one. */
  predicate Resumes(w: World, c: Command)
    requires c.ProcessWebhook?
  {
    && c.requestId in w.requests && w.requests[c.requestId].customerId in w.customers
    && c.callback.Ok? && !c.callback.value.wasDuplicate && c.callback.value.success
    && w.requests[c.requestId].status == CallbackAwaited
  }

  lemma WebhookCases(provider: Provider, w: World, c: Command)
    requires c.ProcessWebhook? && c.requestId in w.requests && w.requests[c.requestId].customerId in w.customers
    requires c.callback.Ok? && !c.callback.value.wasDuplicate
    ensures var (w', request) := (Quieted(w, c.requestId, c.now), w.requests[c.requestId]);
            var result := Perform(provider, w, c);
            if request.status != CallbackAwaited then result == (w', Err(TransitionRejected(NotDefined)))
            else if !c.callback.value.success then
              result == (Persisted(w', c.requestId, request.customerId, Rejected, c.now), Ok(Some(Rejected)))
            else match PassFor(provider(request.tier), c.vendors)
              case Err(name) => result == (w', Err(UnknownFlag(name)))
              case Ok(r) =>
                result == (Persisted(w', c.requestId, request.customerId, WebhookStatus(r), c.now), Ok(Some(WebhookStatus(r))))
  {
    hide PassFor, Persisted;
    var status := w.requests[c.requestId].status;
    var pass := PassFor(provider(w.requests[c.requestId].tier), c.vendors);
    AcceptanceTable(status);
    OutcomeTable(if pass.Ok? then pass.value else WorkflowEngine.WorkflowResult(true, true, true, []));
    hide Step, Definition, Guard, WebhookVerdict, Firing;
  }

  /** Conditions under which an upload gets as far as saving the request. */
  predicate Saves(provider: Provider, w: World, c: Command)
    requires c.UploadDocument?
  {
    && c.requestId in w.requests && c.customerId in w.customers && c.stored
    && w.requests[c.requestId].status == DocumentsPending
    && var config := provider(w.requests[c.requestId].tier);
       MandatoryTypes(config) <= DocumentsOf(w, c.customerId) + {c.documentType} ==> PassFor(config, c.vendors).Ok?
  }

  lemma UploadToOwnerKeeps(provider: Provider, w: World, c: Command)
    requires Inv(w) && c.UploadDocument? && !Timers.HasId(w.timers, c.timerId)
    requires Saves(provider, w, c) && c.customerId == w.requests[c.requestId].customerId && Sole(w, c.requestId)
    ensures Inv(Perform(provider, w, c).0)
  {
    var (w', request) := (WithDocument(w, c), w.requests[c.requestId]);
    UploadCases(provider, w, c);
    DocumentsDoNotMatter(w, w'.documents);
    var config := provider(request.tier);
    if MandatoryTypes(config) <= DocumentsOf(w', c.customerId) {
      var r := PassFor(config, c.vendors).value;
      hide PassFor, Perform;
      RetimedByPass(w, r, c);
      PersistKeeps(w', TimersAfterPass(w.timers, r, c), c.requestId, UploadStatus(r), c.now);
    } else {
      hide PassFor, Perform;
      assert Retimed(w, w.timers, c.customerId, false);
      PersistKeeps(w', w.timers, c.requestId, DocumentsReceived, c.now);
    }
  }

  lemma RetimedByPass(w: World, r: WorkflowEngine.WorkflowResult, c: Command)
    requires Inv(w) && c.UploadDocument? && !Timers.HasId(w.timers, c.timerId)
    requires c.requestId in w.requests && w.requests[c.requestId].status == DocumentsPending
    requires c.customerId == w.requests[c.requestId].customerId
    ensures Retimed(w, TimersAfterPass(w.timers, r, c), c.customerId, UploadStatus(r) == CallbackAwaited)
  {
    var t := CallbackTimer(c.timerId, c.customerId, c.requestId, c.now);
    forall d ensures r.awaitingCallback ==> (HasCallbackTimer(Timers.Saved(w.timers, t), d) <==> HasCallbackTimer(w.timers, d) || d == c.customerId) {
      SchedulingStartsOne(w.timers, t, d);
    }
    SchedulingStartsOne(w.timers, t, c.customerId);
  }

  /** A document sent under another customer's id gives that customer the request's status. */
  lemma UploadToOtherBreaks(provider: Provider, w: World, c: Command)
    requires Inv(w) && c.UploadDocument?
    requires Saves(provider, w, c) && c.customerId != w.requests[c.requestId].customerId
    ensures !Inv(Perform(provider, w, c).0)
  {
    UploadCases(provider, w, c);
    assert RecordsAgree(w, c.requestId);
    hide PassFor;
    var w' := Perform(provider, w, c).0;
    assert w'.requests[c.requestId].status != DocumentsPending;
    assert !RecordsAgree(w', c.requestId);
  }

  /** A document that moves one request of a customer leaves the others behind. */
  lemma UploadToOneOfSeveralBreaks(provider: Provider, w: World, c: Command)
    requires Inv(w) && c.UploadDocument?
    requires Saves(provider, w, c) && c.customerId == w.requests[c.requestId].customerId && !Sole(w, c.requestId)
    ensures !Inv(Perform(provider, w, c).0)
  {
    var s :| s in w.requests && w.requests[s].customerId == c.customerId && s != c.requestId;
    UploadCases(provider, w, c);
    assert RecordsAgree(w, c.requestId) && RecordsAgree(w, s);
    hide PassFor;
    var w' := Perform(provider, w, c).0;
    assert w'.requests[c.requestId].status != DocumentsPending;
    assert w'.requests[s] == w.requests[s];
    assert !RecordsAgree(w', s);
  }

  /**
   An upload keeps the service consistent exactly when it is rejected before
   saving, or is addressed to the request's own customer, who has no other
   request: the use case looks up the two ids separately and never compares them.
   */
  lemma UploadKeepsIff(provider: Provider, w: World, c: Command)
    requires Inv(w) && c.UploadDocument? && !Timers.HasId(w.timers, c.timerId)
    ensures Inv(Perform(provider, w, c).0)
            <==> !Saves(provider, w, c) || (c.customerId == w.requests[c.requestId].customerId && Sole(w, c.requestId))
  {
    if Saves(provider, w, c) {
      if c.customerId != w.requests[c.requestId].customerId {
        UploadToOtherBreaks(provider, w, c);
      } else if Sole(w, c.requestId) {
        UploadToOwnerKeeps(provider, w, c);
      } else {
        UploadToOneOfSeveralBreaks(provider, w, c);
      }
    } else {
      if c.requestId in w.requests && c.customerId in w.customers && c.stored {
        UploadCases(provider, w, c);
        DocumentsDoNotMatter(w, WithDocument(w, c).documents);
      }
    }
  }

  /** A foreign upload in a service where everything was fine: one customer's request moves the other customer. */
  lemma ForeignUploadBreaks(provider: Provider, w: World, tier: Risk.Tier, owner: string, other: string, c: Command)
    requires Untouched(w) && owner in w.customers && other in w.customers && owner != other
    requires provider(tier).targetCompletionMinutes > 0 && provider(tier).requiredDocuments != []
    requires c.UploadDocument? && c.requestId == "request" && c.customerId == other && c.stored && PassFor(provider(tier), c.vendors).Ok?
    ensures var w' := Perform(provider, w, Initiate(owner, tier, "request")).0;
            Inv(w') && !Inv(Perform(provider, w', c).0)
  {
    assert Inv(w);
    InitiateKeepsIff(provider, w, Initiate(owner, tier, "request"));
    InitiateCases(provider, w, Initiate(owner, tier, "request"));
    hide Perform, PassFor, Inv;
    UploadToOtherBreaks(provider, Perform(provider, w, Initiate(owner, tier, "request")).0, c);
  }

  lemma QuietedKeeps(w: World, r: string, now: int)
    requires Inv(w) && r in w.requests && w.requests[r].status != CallbackAwaited
    ensures Inv(Quieted(w, r, now))
  {
    var w' := Quieted(w, r, now);
    Retiming(w, w.requests[r].customerId, now);
    assert !HasCallbackTimer(w.timers, w.requests[r].customerId);
    forall s | s in w'.requests ensures RecordsAgree(w', s) {
      assert RecordsAgree(w, s);
    }
    assert forall t :: Names(w, t) ==> Names(w', t);
  }

  /** A genuine, new callback for a request that waits for one. */
  predicate Answers(w: World, c: Command)
    requires c.ProcessWebhook?
  {
    && c.requestId in w.requests && w.requests[c.requestId].customerId in w.customers
    && c.callback.Ok? && !c.callback.value.wasDuplicate
    && w.requests[c.requestId].status == CallbackAwaited
  }

  lemma AnswerBreaksOthers(provider: Provider, w: World, c: Command)
    requires Inv(w) && c.ProcessWebhook? && Answers(w, c) && !Sole(w, c.requestId)
    ensures !Inv(Perform(provider, w, c).0)
  {
    var s :| s in w.requests && w.requests[s].customerId == w.requests[c.requestId].customerId && s != c.requestId;
    WebhookCases(provider, w, c);
    assert RecordsAgree(w, c.requestId) && RecordsAgree(w, s);
    Retiming(w, w.requests[c.requestId].customerId, c.now);
    hide PassFor;
    var w' := Perform(provider, w, c).0;
    assert w'.requests[s] == w.requests[s];
    assert !HasCallbackTimer(w'.timers, w'.requests[s].customerId);
  }

  lemma AnswerKeeps(provider: Provider, w: World, c: Command)
    requires Inv(w) && c.ProcessWebhook? && Answers(w, c) && Sole(w, c.requestId)
    ensures Inv(Perform(provider, w, c).0)
            <==> (c.callback.value.success ==> PassFor(provider(w.requests[c.requestId].tier), c.vendors).Ok?)
  {
    var request, w' := w.requests[c.requestId], Quieted(w, c.requestId, c.now);
    assert RecordsAgree(w, c.requestId);
    WebhookCases(provider, w, c);
    Retiming(w, request.customerId, c.now);
    var pass := PassFor(provider(request.tier), c.vendors);
    hide PassFor, Perform;
    if !c.callback.value.success {
      PersistKeeps(w, w'.timers, c.requestId, Rejected, c.now);
    } else if pass.Ok? {
      PersistKeeps(w, w'.timers, c.requestId, WebhookStatus(pass.value), c.now);
    } else {
      assert !HasCallbackTimer(w'.timers, w'.requests[c.requestId].customerId);
    }
  }

  /** The webhook, met by other vendors. */
  function Served(c: Command, v: Vendors): Command
    requires c.ProcessWebhook?
  {
    ProcessWebhook(c.requestId, c.callback, v, c.now)
  }

  /** One webhook, with the vendors it happens to meet. */
  lemma WebhookKeepsByPass(provider: Provider, w: World, c: Command)
    requires Inv(w) && c.ProcessWebhook?
    ensures Inv(Perform(provider, w, c).0)
            <==> (Answers(w, c) ==>
                    Sole(w, c.requestId) && (c.callback.value.success ==> PassFor(provider(w.requests[c.requestId].tier), c.vendors).Ok?))
  {
    if Answers(w, c) {
      if Sole(w, c.requestId) {
        AnswerKeeps(provider, w, c);
      } else {
        AnswerBreaksOthers(provider, w, c);
      }
    } else if c.requestId in w.requests && c.callback.Ok? && !c.callback.value.wasDuplicate {
      assert RecordsAgree(w, c.requestId);
      WebhookCases(provider, w, c);
      QuietedKeeps(w, c.requestId, c.now);
    }
  }

  /**
   A webhook keeps the service consistent whatever the clients do exactly when
   it answers no waiting request, or the customer has no other request and — if
   the callback is a success — no pass of the tier can throw: the timers are
   cancelled before anything that can.
   */
  lemma WebhookKeepsIff(provider: Provider, w: World, c: Command)
    requires Inv(w) && c.ProcessWebhook?
    requires c.requestId in w.requests ==> WorkflowReach.DistinctOrders(provider(w.requests[c.requestId].tier).steps)
    ensures (forall v :: Serves(provider, w, c.requestId, v) ==> Inv(Perform(provider, w, Served(c, v)).0))
            <==> (Answers(w, c) ==>
                    Sole(w, c.requestId)
                    && (c.callback.value.success ==> !CanThrow(provider, w.requests[c.requestId].tier)))
  {
    hide Inv, Perform, Sole, PassFor;
    forall v | Serves(provider, w, c.requestId, v)
      ensures Inv(Perform(provider, w, Served(c, v)).0)
              <==> (Answers(w, c) ==>
                      Sole(w, c.requestId) && (c.callback.value.success ==> PassFor(provider(w.requests[c.requestId].tier), v).Ok?))
    {
      WebhookKeepsByPass(provider, w, Served(c, v));
    }
    if c.requestId in w.requests {
      var tier := w.requests[c.requestId].tier;
      var v := SpoilersIfAny(provider, tier);
      assert Serves(provider, w, c.requestId, v);
      if !CanThrow(provider, tier) {
        forall v | Serves(provider, w, c.requestId, v) ensures PassFor(provider(tier), v).Ok? {
          SafePass(provider, tier, v);
        }
      }
    }
  }

  /** Vendors that make a pass throw if any do. */
  lemma SpoilersIfAny(provider: Provider, tier: Risk.Tier) returns (v: Vendors)
    requires WorkflowReach.DistinctOrders(provider(tier).steps)
    ensures ServesTier(provider, tier, v)
    ensures PassFor(provider(tier), v).Err? <==> CanThrow(provider, tier)
  {
    var vendor, completion := VendorSteps.SomeServe(provider(tier).steps, provider(tier).context);
    if CanThrow(provider, tier) {
      vendor, completion := VendorSteps.WalkMeansServedPass(WorkflowReach.MeetsUnknownFlag, provider(tier).steps, provider(tier).context);
    }
    v := Vendors(vendor, completion);
    if !CanThrow(provider, tier) {
      SafePass(provider, tier, v);
    }
  }

  lemma SafePass(provider: Provider, tier: Risk.Tier, v: Vendors)
    requires !CanThrow(provider, tier) && ServesTier(provider, tier, v)
    ensures PassFor(provider(tier), v).Ok?
  {
    if PassFor(provider(tier), v).Err? {
      VendorSteps.ServedPassMeansWalk(WorkflowReach.MeetsUnknownFlag, provider(tier).steps, provider(tier).context, v.vendor, v.completion);
    }
  }

  // ---- Whole runs ----

  /** Consistent, with one request for each customer. */
  ghost predicate Orderly(w: World) {
    Inv(w) && OneRequestEach(w)
  }

  lemma StaysOneEach(provider: Provider, w: World, c: Command)
    requires OneRequestEach(w) && Considerate(w, c)
    ensures OneRequestEach(Perform(provider, w, c).0)
  {
    SameOwners(provider, w, c);
    hide Perform;
    var w' := Perform(provider, w, c).0;
    forall r | r in w'.requests ensures Sole(w', r) {
      if r in w.requests && w'.requests[r].customerId == w.requests[r].customerId {
        assert Sole(w, r);
      }
    }
  }

  /** Only an initiation adds a request, and no call changes the owner of one it does not open. */
  lemma SameOwners(provider: Provider, w: World, c: Command)
    ensures var w' := Perform(provider, w, c).0;
            forall r :: r in w'.requests ==>
              (r in w.requests && w'.requests[r].customerId == w.requests[r].customerId)
              || (c.Initiate? && r == c.requestId && w'.requests[r].customerId == c.customerId)
  {
    hide PassFor, TimersAfterPass, MandatoryTypes, UploadVerdict, WebhookVerdict, Guard;
  }

  lemma PerformKeeps(provider: Provider, w: World, c: Command)
    requires Orderly(w) && SafeProvider(provider) && Feasible(provider, w, c) && Considerate(w, c)
    ensures Orderly(Perform(provider, w, c).0)
  {
    StaysOneEach(provider, w, c);
    hide Inv, PassFor, Perform;
    match c
    case Initiate(_, _, _) => InitiateKeepsIff(provider, w, c);
    case UploadDocument(_, _, _, _, _, _, _) => UploadKeepsIff(provider, w, c);
    case ProcessWebhook(_, _, _, _) =>
      WebhookKeepsByPass(provider, w, c);
      if c.requestId in w.requests {
        SafePass(provider, w.requests[c.requestId].tier, c.vendors);
      }
  }

  /**
   Every run in which customers are initiated once and documents are sent for
   the request's own customer, rejected calls included, keeps request,
   customer, completion time and timer in step.
   */
  lemma {:induction false} SystemInvariant(provider: Provider, w: World, cs: seq<Command>)
    requires Orderly(w) && SafeProvider(provider) && FeasibleRun(provider, w, cs) && ConsiderateRun(provider, w, cs)
    ensures Orderly(PerformAll(provider, w, cs))
    decreases cs
  {
    hide Orderly, SafeProvider, Perform, Feasible, Considerate;
    if cs != [] {
      PerformKeeps(provider, w, cs[0]);
      SystemInvariant(provider, Perform(provider, w, cs[0]).0, cs[1..]);
    }
  }

  lemma ConsistentFromTheStart(provider: Provider, w: World, cs: seq<Command>)
    requires Untouched(w) && SafeProvider(provider) && FeasibleRun(provider, w, cs) && ConsiderateRun(provider, w, cs)
    ensures Inv(PerformAll(provider, w, cs))
  {
    assert Orderly(w);
    SystemInvariant(provider, w, cs);
  }
}
