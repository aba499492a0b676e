/**
 The use cases that drive a customer's verification: initiate, upload a
 document, process a vendor webhook. `Perform` gives the meaning of one call on
 the repositories' contents; `KycUseCases` is proved against it.
 */
module UseCases {
  import opened Common
  import opened VerificationStateMachine
  import WorkflowPlan
  import WorkflowEngine
  import Timers
  import Risk
  import VideoKyc
  import VendorSteps

  datatype RequiredDocument = RequiredDocument(documentType: string, mandatory: bool)

  /** A tier's loaded configuration, and the verification context in which its vendor steps are executed. */
  datatype WorkflowConfig = WorkflowConfig(
    requiredDocuments: seq<RequiredDocument>, steps: seq<WorkflowPlan.WorkflowStep>, targetCompletionMinutes: int,
    context: VendorSteps.Context)

  type Provider = Risk.Tier -> WorkflowConfig

  datatype Request = Request(customerId: string, tier: Risk.Tier, status: Status, completedAt: Option<int>)

  datatype CustomerRecord = CustomerRecord(tier: Risk.Tier, status: Status)

  /** `documents` holds the types of a customer's active documents. */
  datatype World = World(
    customers: map<string, CustomerRecord>, requests: map<string, Request>,
    documents: map<string, set<string>>, timers: seq<Timers.Timer>)

  datatype UseCaseError =
    | NotFound | ExpiryNotInFuture | NotStored | CallbackFailed
    | TransitionRejected(why: Rejection) | UnknownFlag(name: string)

  /** `None` is the answer to a duplicate webhook. */
  type Answer = Result<Option<Status>, UseCaseError>

  /** What the vendors do during one call, and in which order parallel calls complete. */
  datatype Vendors = Vendors(vendor: WorkflowEngine.Vendor, completion: nat -> seq<nat>)

  type CallbackResult = Result<VideoKyc.Callback, VideoKyc.CallbackError>

  datatype Command =
    | Initiate(customerId: string, tier: Risk.Tier, requestId: string)
    | UploadDocument(requestId: string, customerId: string, documentType: string, stored: bool, vendors: Vendors, timerId: string, now: int)
    | ProcessWebhook(requestId: string, callback: CallbackResult, vendors: Vendors, now: int)

  function TierName(tier: Risk.Tier): string {
    match tier case Minimum => "MINIMUM" case Full => "FULL" case Edd => "EDD"
  }

  /** The context both use cases build: they hand through the tier and nothing else. */
  function UseCaseContext(tier: Risk.Tier): VendorSteps.Context {
    VendorSteps.ContextOf(map["tier" := VendorSteps.Text(TierName(tier))])
  }

  /** The guard context the use cases pass with each event. */
  function ContextFor(e: Event): GuardContext {
    match e
    case KycInitiated => GuardContext(validCustomerAndTierAssigned := true)
    case DocUploaded => GuardContext(documentValidNotExpired := true)
    case VerifyStart => GuardContext(allRequiredDocumentsPresent := true)
    case VendorAsync => GuardContext(isAsyncVendorStep := true)
    case CallbackReceived => GuardContext(webhookSignatureValid := true)
    case AllPassed => GuardContext(allStepsPassed := true)
    case StepFailed => GuardContext(stepFailureNonRecoverable := true)
    case RiskElevated => GuardContext(riskScoreExceedsEddThreshold := true)
    case _ => GuardContext()
  }

  function Firing(e: Event): Attempt {
    Attempt(e, ContextFor(e), PortsWork)
  }

  function Fire(m: Machine, e: Event): Machine {
    After(m, Firing(e))
  }

  predicate IsTerminal(s: Status) {
    s == Verified || s == Rejected
  }

  function Persisted(w: World, requestId: string, customerId: string, status: Status, now: int): World
    requires requestId in w.requests && customerId in w.customers
  {
    var r := w.requests[requestId];
    w.(requests := w.requests[requestId := r.(status := status, completedAt := if IsTerminal(status) then Some(now) else r.completedAt)],
       customers := w.customers[customerId := w.customers[customerId].(status := status)])
  }

  /** How an upload reads a pass: waiting for a vendor comes first. */
  function UploadVerdict(r: WorkflowEngine.WorkflowResult): Event {
    if r.awaitingCallback then VendorAsync
    else if r.awaitingManualStep then RiskElevated
    else if r.allStepsSucceeded then AllPassed
    else StepFailed
  }

  /** How a webhook reads a pass: it does not expect to wait again. */
  function WebhookVerdict(r: WorkflowEngine.WorkflowResult): Event {
    if r.awaitingManualStep then RiskElevated
    else if r.allStepsSucceeded then AllPassed
    else StepFailed
  }

  function DocumentsOf(w: World, customerId: string): set<string> {
    if customerId in w.documents then w.documents[customerId] else {}
  }

  function MandatoryTypes(c: WorkflowConfig): set<string> {
    set d | d in c.requiredDocuments && d.mandatory :: d.documentType
  }

  function PassFor(c: WorkflowConfig, v: Vendors): Result<WorkflowEngine.WorkflowResult, string> {
    WorkflowEngine.Execute(c.steps, map[], v.vendor, v.completion)
  }

  function CallbackTimer(timerId: string, customerId: string, requestId: string, now: int): Timers.Timer {
    Timers.Timer(timerId, customerId, Some(requestId), Timers.VendorCallbackTimeout, now + 72 * Timers.HOUR_MS, None, None, now)
  }

  function PerformInitiate(provider: Provider, w: World, c: Command): (World, Answer)
    requires c.Initiate?
  {
    if c.customerId !in w.customers then (w, Err(NotFound))
    else if provider(c.tier).targetCompletionMinutes <= 0 then (w, Err(ExpiryNotInFuture))
    else
      var m := Fire(Machine(NotStarted, None), KycInitiated);
      var hasDocuments := GuardContext(workflowHasDocumentSteps := |provider(c.tier).requiredDocuments| > 0);
      match Step(m, Attempt(DocsRequested, hasDocuments, PortsWork))
      case Err(why) => (w, Err(TransitionRejected(why)))
      case Ok(m) =>
        var customer := w.customers[c.customerId];
        var tier := if Risk.Rank(c.tier) > Risk.Rank(customer.tier) then c.tier else customer.tier;
        (w.(requests := w.requests[c.requestId := Request(c.customerId, c.tier, m.current, None)],
            customers := w.customers[c.customerId := CustomerRecord(tier, m.current)]),
         Ok(Some(m.current)))
  }

  function PerformUpload(provider: Provider, w: World, c: Command): (World, Answer)
    requires c.UploadDocument?
  {
    if c.requestId !in w.requests || c.customerId !in w.customers then (w, Err(NotFound))
    else if !c.stored then (w, Err(NotStored))
    else
      var w := w.(documents := w.documents[c.customerId := DocumentsOf(w, c.customerId) + {c.documentType}]);
      var request := w.requests[c.requestId];
      var config := provider(request.tier);
      match Step(Machine(request.status, None), Firing(DocUploaded))
      case Err(why) => (w, Err(TransitionRejected(why)))
      case Ok(m) =>
        if !(MandatoryTypes(config) <= DocumentsOf(w, c.customerId)) then
          (Persisted(w, c.requestId, c.customerId, m.current, c.now), Ok(Some(m.current)))
        else
          match PassFor(config, c.vendors)
          case Err(name) => (w, Err(UnknownFlag(name)))
          case Ok(r) =>
            var m := Fire(Fire(m, VerifyStart), UploadVerdict(r));
            (Persisted(w.(timers := TimersAfterPass(w.timers, r, c)), c.requestId, c.customerId, m.current, c.now), Ok(Some(m.current)))
  }

  /** A pass that waits for a vendor leaves a 72-hour timer behind. */
  function TimersAfterPass(timers: seq<Timers.Timer>, r: WorkflowEngine.WorkflowResult, c: Command): seq<Timers.Timer>
    requires c.UploadDocument?
  {
    if r.awaitingCallback then Timers.Saved(timers, CallbackTimer(c.timerId, c.customerId, c.requestId, c.now)) else timers
  }

  function PerformWebhook(provider: Provider, w: World, c: Command): (World, Answer)
    requires c.ProcessWebhook?
  {
    if c.requestId !in w.requests || w.requests[c.requestId].customerId !in w.customers then (w, Err(NotFound))
    else if c.callback.Err? then (w, Err(CallbackFailed))
    else if c.callback.value.wasDuplicate then (w, Ok(None))
    else
      var request := w.requests[c.requestId];
      var w := w.(timers := Timers.AllCancelled(w.timers, request.customerId, Timers.VendorCallbackTimeout, c.now));
      match Step(Machine(request.status, None), Firing(CallbackReceived))
      case Err(why) => (w, Err(TransitionRejected(why)))
      case Ok(m) =>
        if !c.callback.value.success then
          var m := Fire(m, StepFailed);
          (Persisted(w, c.requestId, request.customerId, m.current, c.now), Ok(Some(m.current)))
        else
          match PassFor(provider(request.tier), c.vendors)
          case Err(name) => (w, Err(UnknownFlag(name)))
          case Ok(r) =>
            var m := Fire(m, WebhookVerdict(r));
            (Persisted(w, c.requestId, request.customerId, m.current, c.now), Ok(Some(m.current)))
  }

  function Perform(provider: Provider, w: World, c: Command): (World, Answer) {
    match c
    case Initiate(_, _, _) => PerformInitiate(provider, w, c)
    case UploadDocument(_, _, _, _, _, _, _) => PerformUpload(provider, w, c)
    case ProcessWebhook(_, _, _, _) => PerformWebhook(provider, w, c)
  }

  function PerformAll(provider: Provider, w: World, cs: seq<Command>): World
    decreases cs
  {
    if cs == [] then w else PerformAll(provider, Perform(provider, w, cs[0]).0, cs[1..])
  }

  // ---- The objects ----

  class KycUseCases {
    const provider: Provider
    const timerService: Timers.TimerService
    const effects: SideEffects
    var customers: map<string, CustomerRecord>
    var requests: map<string, Request>
    var documents: map<string, set<string>>

    constructor (provider: Provider, timerService: Timers.TimerService, effects: SideEffects, customers: map<string, CustomerRecord>)
      ensures this.provider == provider && this.timerService == timerService && this.effects == effects
      ensures Contents() == World(customers, map[], map[], timerService.repository.timers)
    {
      this.provider, this.timerService, this.effects := provider, timerService, effects;
      this.customers, requests, documents := customers, map[], map[];
    }

    function Contents(): World
      reads this, timerService.repository
    {
      World(customers, requests, documents, timerService.repository.timers)
    }

    method InitiateKyc(customerId: string, tier: Risk.Tier, requestId: string) returns (answer: Answer)
      modifies this, effects
      ensures (Contents(), answer) == Perform(provider, old(Contents()), Initiate(customerId, tier, requestId))
    {
      if customerId !in customers {
        return Err(NotFound);
      }
      var config := provider(tier);
      if config.targetCompletionMinutes <= 0 {
        return Err(ExpiryNotInFuture);
      }
      var machine := new StateMachine(NotStarted, effects);
      var initiated := machine.Apply(KycInitiated, ContextFor(KycInitiated), PortsWork);
      var hasDocumentSteps := |config.requiredDocuments| > 0;
      var requested := machine.Apply(DocsRequested, GuardContext(workflowHasDocumentSteps := hasDocumentSteps), PortsWork);
      if requested.Err? {
        return Err(TransitionRejected(requested.error));
      }
      requests := requests[requestId := Request(customerId, tier, machine.current, None)];
      var customer := customers[customerId];
      if Risk.Rank(tier) > Risk.Rank(customer.tier) {
        customer := customer.(tier := tier);
      }
      customers := customers[customerId := customer.(status := machine.current)];
      return Ok(Some(machine.current));
    }

    method Persist(requestId: string, customerId: string, status: Status, now: int)
      requires requestId in requests && customerId in customers
      modifies this
      ensures Contents() == Persisted(old(Contents()), requestId, customerId, status, now)
      ensures requests == old(requests)[requestId := old(requests)[requestId].(
                status := status,
                completedAt := if status == Verified || status == Rejected then Some(now) else old(requests)[requestId].completedAt)]
      ensures customers == old(customers)[customerId := old(customers)[customerId].(status := status)] && documents == old(documents)
    {
      var request := requests[requestId];
      if IsTerminal(status) {
        request := request.(completedAt := Some(now));
      }
      requests := requests[requestId := request.(status := status)];
      customers := customers[customerId := customers[customerId].(status := status)];
    }

    method RunVendorWorkflow(machine: StateMachine, config: WorkflowConfig, c: Command) returns (error: Option<string>)
      requires c.UploadDocument? && machine.handler == effects
      modifies machine, effects, timerService.repository
      ensures var pass := PassFor(config, c.vendors);
              error == (if pass.Ok? then None else Some(pass.error))
              && (pass.Ok? ==>
                    machine.State() == Fire(Fire(old(machine.State()), VerifyStart), UploadVerdict(pass.value))
                    && timerService.repository.timers == TimersAfterPass(old(timerService.repository.timers), pass.value, c))
              && (pass.Err? ==> timerService.repository.timers == old(timerService.repository.timers))
    {
      hide WorkflowEngine.Execute, WorkflowEngine.FinalPass, Guard, Definition, Step, Audited, Timers.Saved;
      var started := machine.Apply(VerifyStart, ContextFor(VerifyStart), PortsWork);
      var engine := new WorkflowEngine.Engine(c.vendors.vendor);
      var pass, _ := engine.ExecuteWorkflow(config.steps, map[], c.vendors.completion);
      if pass.Err? {
        return Some(pass.error);
      }
      var verdict := UploadVerdict(pass.value);
      var decided := machine.Apply(verdict, ContextFor(verdict), PortsWork);
      if pass.value.awaitingCallback {
        var timer := timerService.ScheduleFixedTimer(Timers.VendorCallbackTimeout, c.customerId, Some(c.requestId), c.timerId, c.now);
      }
      return None;
    }

    method Upload(c: Command) returns (answer: Answer)
      requires c.UploadDocument?
      modifies this, effects, timerService.repository
      ensures (Contents(), answer) == Perform(provider, old(Contents()), c)
    {
      hide PassFor, Guard, Definition, Step, Audited, UploadVerdict, TimersAfterPass, Persisted;
      if c.requestId !in requests || c.customerId !in customers {
        return Err(NotFound);
      }
      if !c.stored {
        return Err(NotStored);
      }
      documents := documents[c.customerId := (if c.customerId in documents then documents[c.customerId] else {}) + {c.documentType}];
      var request := requests[c.requestId];
      var machine := new StateMachine(request.status, effects);
      var uploaded := machine.Apply(DocUploaded, ContextFor(DocUploaded), PortsWork);
      if uploaded.Err? {
        return Err(TransitionRejected(uploaded.error));
      }
      var config := provider(request.tier);
      if MandatoryTypes(config) <= documents[c.customerId] {
        var error := RunVendorWorkflow(machine, config, c);
        if error.Some? {
          return Err(UnknownFlag(error.value));
        }
      }
      Persist(c.requestId, c.customerId, machine.current, c.now);
      return Ok(Some(machine.current));
    }

    method Webhook(requestId: string, callback: CallbackResult, vendors: Vendors, now: int) returns (answer: Answer)
      requires Timers.UniqueIds(timerService.repository.timers)
      modifies this, effects, timerService.repository
      ensures (Contents(), answer) == Perform(provider, old(Contents()), ProcessWebhook(requestId, callback, vendors, now))
    {
      hide WorkflowEngine.Execute, Guard, Definition, Audited, Persisted;
      if requestId !in requests || requests[requestId].customerId !in customers {
        return Err(NotFound);
      }
      if callback.Err? {
        return Err(CallbackFailed);
      }
      if callback.value.wasDuplicate {
        return Ok(None);
      }
      var request := requests[requestId];
      var cancelled := timerService.CancelAllForCustomer(request.customerId, Timers.VendorCallbackTimeout, now);
      var machine := new StateMachine(request.status, effects);
      var received := machine.Apply(CallbackReceived, ContextFor(CallbackReceived), PortsWork);
      if received.Err? {
        return Err(TransitionRejected(received.error));
      }
      var verdict := StepFailed;
      if callback.value.success {
        var engine := new WorkflowEngine.Engine(vendors.vendor);
        var pass, _ := engine.ExecuteWorkflow(provider(request.tier).steps, map[], vendors.completion);
        if pass.Err? {
          return Err(UnknownFlag(pass.error));
        }
        verdict := WebhookVerdict(pass.value);
      }
      var decided := machine.Apply(verdict, ContextFor(verdict), PortsWork);
      Persist(requestId, request.customerId, machine.current, now);
      return Ok(Some(machine.current));
    }
  }
}
