/**
 The service as it is wired: both use cases hand the executor the tier and
 nothing else, so no adapter finds what it needs.
 */
module UseCaseWired {
  import opened Common
  import opened VerificationStateMachine
  import opened UseCases
  import opened UseCaseInvariants
  import opened UseCaseReach
  import opened UseCaseShipped
  import opened VendorSteps
  import WorkflowPlan
  import WorkflowEngine
  import WorkflowReach
  import WorkflowGuards
  import Risk

  /** Every tier is executed in the context the use cases build. */
  ghost predicate Wired(provider: Provider) {
    forall tier :: provider(tier).context == UseCaseContext(tier)
  }

  lemma UseCaseContextIsBare(tier: Risk.Tier)
    ensures IsBare(UseCaseContext(tier))
  {
    assert UseCaseContext(tier).metadata.Keys == {"tier"};
  }

  /** No step ever goes on: for any step and any clients, the call throws, fails or waits for a webhook. */
  lemma WiredStepNeverGoesOn(s: WorkflowPlan.WorkflowStep, tier: Risk.Tier, c: Clients)
    ensures !WorkflowReach.GoesOn(s, ExecuteVendorStep(s, UseCaseContext(tier), c))
  {
    UseCaseContextIsBare(tier);
    StepObeys(s, UseCaseContext(tier), c);
    hide UseCaseContext, ExecuteVendorStep;
  }

  // ---- Being verified ----

  /** For any configuration of the wired service: a request of the tier can ever be verified exactly if every step is guarded off before anything has run. */
  lemma WiredVerifiableIff(provider: Provider, tier: Risk.Tier, w: World, customerId: string)
    requires Wired(provider)
    requires Untouched(w) && customerId in w.customers && Opens(provider, w, Initiate(customerId, tier, ""))
    requires WorkflowReach.DistinctOrders(provider(tier).steps)
    ensures CanBeVerified(provider, tier, w)
            <==> forall s :: s in provider(tier).steps ==> WorkflowPlan.EvaluateGuard(s.guardExpression, map[]) == Ok(false)
  {
    UseCaseContextIsBare(tier);
    BareRunsToTheEndIff(provider(tier).steps, provider(tier).context);
    CanBeVerifiedIff(provider, tier, w, customerId);
    hide WorkflowPlan.EvaluateGuard, CanBeVerified;
  }

  // ---- Consistency ----

  /** Requests only wait under configurations whose passes do not throw. */
  ghost predicate Quiet(provider: Provider, w: World) {
    forall r :: r in w.requests && w.requests[r].status == CallbackAwaited ==> !CanThrow(provider, w.requests[r].tier)
  }

  /** Whether a pass throws does not depend on the clients. */
  lemma WiredPassThrowsIff(provider: Provider, tier: Risk.Tier, v: Vendors)
    requires Wired(provider) && ServesTier(provider, tier, v)
    ensures PassFor(provider(tier), v).Err? <==> CanThrow(provider, tier)
  {
    UseCaseContextIsBare(tier);
    BareThrowsIff(provider(tier).steps, provider(tier).context, v.vendor, v.completion);
  }

  lemma UploadStaysQuiet(provider: Provider, w: World, c: Command)
    requires Wired(provider) && Quiet(provider, w) && c.UploadDocument? && Feasible(provider, w, c)
    requires c.requestId in w.requests && c.customerId in w.customers && c.stored
    ensures Quiet(provider, Perform(provider, w, c).0)
  {
    hide Wired, CanThrow, PassFor, ServesTier, MandatoryTypes, TimersAfterPass;
    var tier := w.requests[c.requestId].tier;
    WiredPassThrowsIff(provider, tier, c.vendors);
    UploadCases(provider, w, c);
    hide Perform;
  }

  lemma WebhookStaysQuiet(provider: Provider, w: World, c: Command)
    requires Quiet(provider, w) && c.ProcessWebhook?
    ensures Quiet(provider, Perform(provider, w, c).0)
  {
    hide CanThrow, PassFor;
    if c.requestId in w.requests && w.requests[c.requestId].customerId in w.customers && c.callback.Ok? && !c.callback.value.wasDuplicate {
      WebhookCases(provider, w, c);
      hide Perform;
    }
  }

  lemma StaysQuiet(provider: Provider, w: World, c: Command)
    requires Wired(provider) && Quiet(provider, w) && Feasible(provider, w, c)
    ensures Quiet(provider, Perform(provider, w, c).0)
  {
    hide CanThrow, PassFor, Wired, Feasible;
    match c
    case Initiate(_, _, _) => InitiateCases(provider, w, c);
    case UploadDocument(_, _, _, _, _, _, _) =>
      if c.requestId in w.requests && c.customerId in w.customers && c.stored {
        UploadStaysQuiet(provider, w, c);
      }
    case ProcessWebhook(_, _, _, _) => WebhookStaysQuiet(provider, w, c);
  }

  lemma WiredPerformKeeps(provider: Provider, w: World, c: Command)
    requires Wired(provider) && Orderly(w) && Quiet(provider, w) && Feasible(provider, w, c) && Considerate(w, c)
    ensures Orderly(Perform(provider, w, c).0) && Quiet(provider, Perform(provider, w, c).0)
  {
    StaysQuiet(provider, w, c);
    StaysOneEach(provider, w, c);
    hide Inv, PassFor, Perform, CanThrow, ServesTier, Wired;
    match c
    case Initiate(_, _, _) => InitiateKeepsIff(provider, w, c);
    case UploadDocument(_, _, _, _, _, _, _) => UploadKeepsIff(provider, w, c);
    case ProcessWebhook(_, _, _, _) =>
      WebhookKeepsByPass(provider, w, c);
      if Answers(w, c) {
        SafePass(provider, w.requests[c.requestId].tier, c.vendors);
      }
  }

  /**
   In the wired service no configuration needs to be safe: a webhook meets an
   unknown flag only where the upload before it would have, and then nothing
   waits. Every run with one initiation per customer and own documents stays
   consistent under any configuration.
   */
  lemma {:induction false} WiredSystemInvariant(provider: Provider, w: World, cs: seq<Command>)
    requires Wired(provider) && Orderly(w) && Quiet(provider, w) && FeasibleRun(provider, w, cs) && ConsiderateRun(provider, w, cs)
    ensures Orderly(PerformAll(provider, w, cs)) && Quiet(provider, PerformAll(provider, w, cs))
    decreases cs
  {
    hide Orderly, Quiet, Wired, Perform, Feasible, Considerate;
    if cs != [] {
      WiredPerformKeeps(provider, w, cs[0]);
      WiredSystemInvariant(provider, Perform(provider, w, cs[0]).0, cs[1..]);
    }
  }

  // ---- The shipped service ----

  function UseCaseContexts(): Contexts {
    (tier: Risk.Tier) => UseCaseContext(tier)
  }

  /** The shipped configurations under the shipped use cases. */
  function Service(): Provider {
    Shipped(UseCaseContexts())
  }

  /** A first step that fails ends the pass at once. */
  lemma FirstStepEnds(w: WorkflowEngine.Setting, s: WorkflowPlan.WorkflowStep)
    requires w.groups != [] && w.groups[0] == [s] && !WorkflowPlan.IsGuarded(s.guardExpression) && !s.isManualStep && !s.isAsync
    requires !WorkflowReach.GoesOn(s, w.vendor(s))
    ensures var p := WorkflowEngine.After(w, map[], |w.groups|);
            p.guardError == None && !p.succeeded && !p.awaitingManual && !p.awaitingCallback
  {
    var p, rs := WorkflowEngine.Begin(map[]), WorkflowEngine.Results([s], map[], w.vendor);
    assert WorkflowPlan.EvaluateGuard(s.guardExpression, map[]) == Ok(true);
    assert rs == [WorkflowEngine.ResultOf(s, map[], w.vendor)];
    assert WorkflowEngine.Ran(rs[0]) && !rs[0].succeeded && !rs[0].isManualStep && !rs[0].awaitingCallback;
    assert WorkflowEngine.SomeFailed(rs) && !WorkflowEngine.HaltsManually(rs) && !WorkflowEngine.Awaits(rs);
    SingletonClears(s, None, WorkflowReach.ANYTHING);
    assert WorkflowEngine.GuardError([s], map[]) == None;
    hide WorkflowEngine.Results, WorkflowEngine.ResultOf, WorkflowEngine.Complete, WorkflowEngine.VendorCalls, WorkflowEngine.GuardError,
      WorkflowEngine.SomeFailed, WorkflowEngine.HaltsManually, WorkflowEngine.Awaits;
    assert WorkflowEngine.After(w, map[], 0) == p;
    assert WorkflowEngine.After(w, map[], 1) == WorkflowEngine.ExecuteGroup(p, [s], w.vendor, w.completion(0));
    hide WorkflowEngine.ExecuteGroup;
    WorkflowEngine.StoppedStays(w, map[], 1, |w.groups|);
    hide WorkflowEngine.After;
  }

  lemma ServiceFirstStep(tier: Risk.Tier)
    ensures var steps, groups := Service()(tier).steps, GroupsOf(Service(), tier);
            steps != [] && groups != [] && groups[0] == [steps[0]]
            && !WorkflowPlan.IsGuarded(steps[0].guardExpression) && !steps[0].isManualStep && !steps[0].isAsync
  {
    var steps := Service()(tier).steps;
    assert steps == ShippedConfig(tier, UseCaseContext(tier)).steps;
    WorkflowGuards.ShippedWorkflowsAreSafe(steps);
  }

  /** Every pass of a shipped workflow fails at its first step. */
  lemma ServicePassFails(tier: Risk.Tier, v: Vendors)
    requires ServesTier(Service(), tier, v)
    ensures var pass := PassFor(Service()(tier), v);
            pass.Ok? && !pass.value.allStepsSucceeded && !pass.value.awaitingManualStep && !pass.value.awaitingCallback
  {
    var config := Service()(tier);
    var w := WorkflowEngine.SettingFor(config.steps, v.vendor, v.completion);
    ServiceFirstStep(tier);
    assert config == ShippedConfig(tier, UseCaseContext(tier)) && config.context == UseCaseContext(tier);
    UseCaseContextIsBare(tier);
    BareStalls(UseCaseContext(tier));
    AdaptersObey(UseCaseContext(tier), v.vendor);
    hide Service, UseCaseContext, NatureOf, WorkflowPlan.GroupSteps, WorkflowPlan.SortByOrder;
    FirstStepEnds(w, config.steps[0]);
    hide WorkflowEngine.After;
  }

  /** Collecting documents, or rejected. */
  predicate Fruitless(w: World) {
    forall r :: r in w.requests ==> w.requests[r].status in {DocumentsPending, DocumentsReceived, Rejected}
  }

  lemma UploadStaysFruitless(w: World, c: Command)
    requires Fruitless(w) && c.UploadDocument? && Feasible(Service(), w, c)
    requires c.requestId in w.requests && c.customerId in w.customers && c.stored
    ensures Fruitless(Perform(Service(), w, c).0)
  {
    hide PassFor, ServesTier, MandatoryTypes, TimersAfterPass, Service;
    var tier := w.requests[c.requestId].tier;
    ServicePassFails(tier, c.vendors);
    UploadCases(Service(), w, c);
    hide Perform;
  }

  lemma StaysFruitless(w: World, c: Command)
    requires Fruitless(w) && Feasible(Service(), w, c)
    ensures Fruitless(Perform(Service(), w, c).0)
  {
    hide PassFor, ServesTier, Service;
    match c
    case Initiate(_, _, _) => InitiateCases(Service(), w, c);
    case UploadDocument(_, _, _, _, _, _, _) =>
      if c.requestId in w.requests && c.customerId in w.customers && c.stored {
        UploadStaysFruitless(w, c);
      }
    case ProcessWebhook(_, _, _, _) =>
      if c.requestId in w.requests && w.requests[c.requestId].customerId in w.customers && c.callback.Ok? && !c.callback.value.wasDuplicate {
        WebhookCases(Service(), w, c);
      }
  }

  /**
   As shipped and wired, over every run and whatever the clients answer: no
   request is ever verified, escalated or even waits for a callback. Once its
   documents are complete it is rejected.
   */
  lemma {:induction false} ServiceIsFruitless(w: World, cs: seq<Command>)
    requires Fruitless(w) && FeasibleRun(Service(), w, cs)
    ensures Fruitless(PerformAll(Service(), w, cs))
    decreases cs
  {
    hide Service, Perform, Feasible, Fruitless;
    if cs != [] {
      StaysFruitless(w, cs[0]);
      ServiceIsFruitless(Perform(Service(), w, cs[0]).0, cs[1..]);
    }
  }

  /** The upload that completes a request's documents rejects it. */
  lemma CompletingUploadRejects(w: World, c: Command)
    requires c.UploadDocument? && Feasible(Service(), w, c) && c.requestId in w.requests && c.customerId in w.customers && c.stored
    requires w.requests[c.requestId].status == DocumentsPending
    requires MandatoryTypes(Service()(w.requests[c.requestId].tier)) <= DocumentsOf(w, c.customerId) + {c.documentType}
    ensures Perform(Service(), w, c).1 == Ok(Some(Rejected))
  {
    hide PassFor, ServesTier, MandatoryTypes, Service;
    ServicePassFails(w.requests[c.requestId].tier, c.vendors);
    UploadCases(Service(), w, c);
    hide Perform;
  }
}
