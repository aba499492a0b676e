/** A configuration in which a webhook meets an unknown flag, and the contexts in which it can. */
module UseCaseLateGuard {
  import opened Common
  import opened VerificationStateMachine
  import opened UseCases
  import opened UseCaseInvariants
  import opened UseCaseOutcomes
  import opened UseCaseReach
  import opened WorkflowPlan
  import WorkflowEngine
  import WorkflowReach
  import WorkflowGuards
  import opened VendorSteps
  import Risk
  import VideoKyc

  /** A video session for customers the registry does not know, and a last step that waits for an approval nobody can give. */
  const LATE_GUARD_STEPS: seq<WorkflowStep> := [SEARCH, VIDEO, SCREENING]

  const SEARCH: WorkflowStep := WorkflowGuards.Plain("ckyc-search", "CKYC", 1)
  const VIDEO: WorkflowStep :=
    WorkflowGuards.Plain("video-kyc-session", "VIDEO_KYC", 2).(isAsync := true, guardExpression := Some("!ckycRecordFound"))
  const SCREENING: WorkflowStep :=
    WorkflowGuards.Plain("full-aml-screen", "AML_SCREENING", 3).(guardExpression := Some("complianceApproved"))

  function LateGuardConfig(ctx: Context): WorkflowConfig {
    WorkflowConfig([RequiredDocument("PAN", true)], LATE_GUARD_STEPS, 30, ctx)
  }

  /** The configuration for every tier, executed in the given context. */
  function LateGuard(ctx: Context): Provider {
    (tier: Risk.Tier) => LateGuardConfig(ctx)
  }

  lemma LateGuardGroups(ctx: Context, tier: Risk.Tier)
    ensures GroupsOf(LateGuard(ctx), tier) == WorkflowGuards.Singletons(LATE_GUARD_STEPS)
    ensures WorkflowReach.DistinctOrders(LATE_GUARD_STEPS)
  {
    WorkflowGuards.OneByOne(LATE_GUARD_STEPS);
  }

  lemma GuardsOnceFound()
    ensures EvaluateGuard(VIDEO.guardExpression, WorkflowReach.FlagsOf(Some(true))) == Ok(false)
    ensures EvaluateGuard(SCREENING.guardExpression, WorkflowReach.FlagsOf(Some(true))).Err?
  {
    WorkflowGuards.ShippedFlagNames();
  }

  /** If the search finds a record, the video session is skipped and the last guard names an unknown flag. */
  lemma LateGuardMeetsUnknownFlag(ctx: Context)
    requires Accepts("CKYC", ctx)
    ensures WorkflowReach.Reaches(WorkflowReach.MeetsUnknownFlag, WorkflowGuards.Singletons(LATE_GUARD_STEPS), None, NatureOf(ctx))
  {
    GuardsOnceFound();
    var n, found := NatureOf(ctx), Some(true);
    assert !n.stalls(SEARCH) && n.finds(SEARCH) && !IsGuarded(SEARCH.guardExpression) && !SEARCH.isManualStep && SEARCH.stepName == "ckyc-search";
    hide NatureOf, EvaluateGuard, WorkflowReach.FlagsOf, SEARCH, VIDEO, SCREENING, Accepts, WorkflowReach.Reaches, WorkflowGuards.Singletons;
    ThrowsAt([SCREENING], found, n);
    assert [VIDEO, SCREENING][1..] == [SCREENING];
    PassGuardedOff(WorkflowReach.MeetsUnknownFlag, [VIDEO, SCREENING], found, n);
    assert LATE_GUARD_STEPS[1..] == [VIDEO, SCREENING];
    PassRunning(WorkflowReach.MeetsUnknownFlag, LATE_GUARD_STEPS, None, n);
  }

  lemma ThrowsAt(steps: seq<WorkflowStep>, found: Option<bool>, n: WorkflowReach.Nature)
    requires steps != [] && EvaluateGuard(steps[0].guardExpression, WorkflowReach.FlagsOf(found)).Err?
    ensures WorkflowReach.Reaches(WorkflowReach.MeetsUnknownFlag, WorkflowGuards.Singletons(steps), found, n)
  {
    SingletonClears(steps[0], found, n);
    assert WorkflowGuards.Singletons(steps)[0] == [steps[0]];
    hide EvaluateGuard;
  }

  /** Some clients make this configuration throw exactly if the context supplies a PAN: only then does the search answer at all. */
  lemma LateGuardThrowsIff(ctx: Context, tier: Risk.Tier)
    ensures CanThrow(LateGuard(ctx), tier) <==> HasText(ctx.metadata, "panNumber")
  {
    LateGuardGroups(ctx, tier);
    assert Accepts("CKYC", ctx) == HasText(ctx.metadata, "panNumber");
    if HasText(ctx.metadata, "panNumber") {
      LateGuardMeetsUnknownFlag(ctx);
    } else {
      var groups := WorkflowGuards.Singletons(LATE_GUARD_STEPS);
      assert NatureOf(ctx).stalls(SEARCH);
      assert groups[0] == [SEARCH];
      SingletonClears(SEARCH, None, NatureOf(ctx));
    }
  }

  /** Clients that do what they can; the registry knows nobody. */
  function UnknownCustomer(ctx: Context): Vendors {
    Vendors(Faultless({}, ctx), WorkflowReach.Promptly(WorkflowGuards.Singletons(LATE_GUARD_STEPS)))
  }

  lemma OneSearch(p: WorkflowEngine.Pass, ctx: Context, order: seq<nat>)
    requires Accepts("CKYC", ctx) && p == WorkflowEngine.Begin(map[]) && WorkflowEngine.IsOrder(order, 1)
    ensures var next := WorkflowEngine.ExecuteGroup(p, [SEARCH], Faultless({}, ctx), order);
            WorkflowEngine.Live(next) && next.flags == map[CKYC_FOUND := false]
  {
    var n := NatureOf(ctx);
    assert !n.stalls(SEARCH);
    SingletonClears(SEARCH, None, n);
    FaultlessRealises({}, ctx);
    assert WorkflowReach.Learnt([SEARCH], None, false) == Some(false);
    assert WorkflowReach.Clears([SEARCH], None, n);
    assert [SEARCH][0] == SEARCH;
    hide WorkflowEngine.ExecuteGroup, WorkflowReach.Learnt, NatureOf, WorkflowReach.Clears, SEARCH, EvaluateGuard, Faultless;
    WorkflowReach.GroupRuns(p, [SEARCH], None, Faultless({}, ctx), order, n, WorkflowReach.Choice(false, 1));
  }

  /** The search answers, finds nobody, and the pass goes on. */
  lemma SearchFindsNobody(w: WorkflowEngine.Setting, ctx: Context)
    requires Accepts("CKYC", ctx)
    requires w == WorkflowEngine.SettingFor(LATE_GUARD_STEPS, UnknownCustomer(ctx).vendor, UnknownCustomer(ctx).completion)
    requires w.groups == WorkflowGuards.Singletons(LATE_GUARD_STEPS)
    ensures WorkflowEngine.Live(WorkflowEngine.After(w, map[], 1)) && WorkflowEngine.After(w, map[], 1).flags == map[CKYC_FOUND := false]
  {
    var p := WorkflowEngine.Begin(map[]);
    assert w.groups[0] == [SEARCH];
    WorkflowReach.PromptlyIsValid(w.groups);
    assert WorkflowEngine.After(w, map[], 0) == p;
    assert WorkflowEngine.After(w, map[], 1) == WorkflowEngine.ExecuteGroup(p, [SEARCH], w.vendor, w.completion(0));
    hide WorkflowEngine.After, WorkflowEngine.ExecuteGroup, GroupSteps, SortByOrder, WorkflowGuards.Singletons, SEARCH;
    OneSearch(p, ctx, w.completion(0));
  }

  /** The video session waits, and so does the pass from then on. */
  lemma SessionWaits(w: WorkflowEngine.Setting, ctx: Context)
    requires Accepts("CKYC", ctx)
    requires w == WorkflowEngine.SettingFor(LATE_GUARD_STEPS, UnknownCustomer(ctx).vendor, UnknownCustomer(ctx).completion)
    requires w.groups == WorkflowGuards.Singletons(LATE_GUARD_STEPS)
    ensures var p := WorkflowEngine.After(w, map[], 3);
            p.guardError == None && p.awaitingCallback
  {
    SearchFindsNobody(w, ctx);
    var p1, video := WorkflowEngine.After(w, map[], 1), VIDEO;
    assert w.groups[1] == [video] && |w.groups| == 3;
    assert w.vendor(video) == WorkflowEngine.Returned(true, true, None);
    assert WorkflowEngine.After(w, map[], 2) == WorkflowEngine.ExecuteGroup(p1, [video], w.vendor, w.completion(1));
    hide WorkflowEngine.ExecuteGroup, WorkflowEngine.After, GroupSteps, SortByOrder, WorkflowGuards.Singletons, UnknownCustomer;
    VideoWaits(p1, video, w.vendor, w.completion(1));
    WaitGoesOn(w, 2);
  }

  lemma FirstPassWaits(ctx: Context)
    requires Accepts("CKYC", ctx)
    ensures PassFor(LateGuardConfig(ctx), UnknownCustomer(ctx)).Ok? && PassFor(LateGuardConfig(ctx), UnknownCustomer(ctx)).value.awaitingCallback
  {
    LateGuardGroups(ctx, Risk.Full);
    var v := UnknownCustomer(ctx);
    var w := WorkflowEngine.SettingFor(LATE_GUARD_STEPS, v.vendor, v.completion);
    assert w.groups == WorkflowGuards.Singletons(LATE_GUARD_STEPS) && |w.groups| == 3;
    hide GroupSteps, SortByOrder, WorkflowGuards.Singletons, UnknownCustomer, WorkflowEngine.After;
    SessionWaits(w, ctx);
  }

  /** The groups after a wait are held back. */
  lemma WaitGoesOn(w: WorkflowEngine.Setting, k: nat)
    requires k < |w.groups|
    requires var p := WorkflowEngine.After(w, map[], k);
             p.guardError == None && p.awaitingCallback && p.succeeded
    ensures var p := WorkflowEngine.After(w, map[], k + 1);
            p.guardError == None && p.awaitingCallback
  {
    hide WorkflowEngine.ExecuteGroup, WorkflowEngine.AllHeldBack;
  }

  lemma VideoWaits(p: WorkflowEngine.Pass, s: WorkflowStep, vendor: WorkflowEngine.Vendor, order: seq<nat>)
    requires WorkflowEngine.Live(p) && p.flags == map[CKYC_FOUND := false]
    requires s.guardExpression == Some("!ckycRecordFound") && !s.isManualStep && s.isAsync
    requires vendor(s) == WorkflowEngine.Returned(true, true, None)
    ensures var next := WorkflowEngine.ExecuteGroup(p, [s], vendor, order);
            next.guardError == None && next.awaitingCallback && next.succeeded
  {
    WorkflowGuards.ShippedFlagNames();
    assert EvaluateGuard(s.guardExpression, p.flags) == Ok(true) by {
      assert Trim("!ckycRecordFound") == "!ckycRecordFound";
    }
    var rs := WorkflowEngine.Results([s], p.flags, vendor);
    assert rs[0] == WorkflowEngine.ResultOf(s, p.flags, vendor);
    SingletonClears(s, Some(false), WorkflowReach.ANYTHING);
    assert rs[0].awaitingCallback && WorkflowEngine.Awaits(rs);
    assert !WorkflowEngine.SomeFailed(rs);
    hide EvaluateGuard, WorkflowEngine.Complete, WorkflowEngine.VendorCalls;
  }

  /**
   The run, in any context that supplies a PAN: an unknown customer's video
   session is awaited; when the webhook arrives the registry knows the
   customer, and the pass throws. The timer is cancelled and the request waits
   for ever.
   */
  lemma LateGuardBreaks(ctx: Context, tier: Risk.Tier, w: World, customerId: string) returns (before: seq<Command>, webhook: Command)
    requires HasText(ctx.metadata, "panNumber") && Untouched(w) && customerId in w.customers
    ensures FeasibleRun(LateGuard(ctx), w, before) && ConsiderateRun(LateGuard(ctx), w, before)
    ensures var w' := PerformAll(LateGuard(ctx), w, before);
            && Inv(w') && webhook.ProcessWebhook? && Feasible(LateGuard(ctx), w', webhook)
            && !Inv(Perform(LateGuard(ctx), w', webhook).0)
  {
    assert Accepts("CKYC", ctx) by {
      hide HasText;
    }
    hide HasText;
    LateGuardGroups(ctx, tier);
    var provider, groups, v := LateGuard(ctx), WorkflowGuards.Singletons(LATE_GUARD_STEPS), UnknownCustomer(ctx);
    WorkflowReach.PromptlyIsValid(groups);
    FaultlessRealises({}, ctx);
    FirstPassWaits(ctx);
    LateGuardMeetsUnknownFlag(ctx);
    var vendor, completion := WalkMeansServedPass(WorkflowReach.MeetsUnknownFlag, LATE_GUARD_STEPS, ctx);
    var spoiler := Vendors(vendor, completion);
    assert PassFor(LateGuardConfig(ctx), spoiler).Err?;
    webhook := ProcessWebhook("first", Ok(VideoKyc.Callback(false, true)), spoiler, 0);
    before := Direct(tier, customerId, "PAN", v);
    assert ServesTier(provider, tier, v) && ServesTier(provider, tier, spoiler);
    hide PassFor, UnknownCustomer, ServesTier;
    Waiting(ctx, tier, w, customerId, v);
    hide PerformAll, Direct, FeasibleRun, ConsiderateRun;
    WebhookKeepsByPass(provider, PerformAll(provider, w, before), webhook);
  }

  lemma Waiting(ctx: Context, tier: Risk.Tier, w: World, customerId: string, v: Vendors)
    requires Untouched(w) && customerId in w.customers && ServesTier(LateGuard(ctx), tier, v)
    requires PassFor(LateGuardConfig(ctx), v).Ok? && PassFor(LateGuardConfig(ctx), v).value.awaitingCallback
    ensures var before := Direct(tier, customerId, "PAN", v);
            var w' := PerformAll(LateGuard(ctx), w, before);
            && FeasibleRun(LateGuard(ctx), w, before) && ConsiderateRun(LateGuard(ctx), w, before)
            && Inv(w') && IsAt(w', "first", customerId, tier, CallbackAwaited) && Sole(w', "first") && customerId in w'.customers
  {
    hide PassFor, ServesTier;
    var provider := LateGuard(ctx);
    assert provider(tier) == LateGuardConfig(ctx);
    PanIsMandatory(ctx);
    DirectLeads(provider, tier, w, customerId, v, "PAN");
    DirectIsConsiderate(provider, tier, w, customerId, v, "PAN");
    DirectIsOrderly(ctx, tier, w, customerId, v);
    hide FeasibleRun, ConsiderateRun, Direct, MandatoryTypes, PerformAll, Perform, LateGuard;
    assert RecordsAgree(PerformAll(provider, w, Direct(tier, customerId, "PAN", v)), "first");
  }

  lemma PanIsMandatory(ctx: Context)
    ensures MandatoryTypes(LateGuardConfig(ctx)) == {"PAN"}
  {
    assert LateGuardConfig(ctx).requiredDocuments[0].mandatory;
  }

  lemma DirectIsOrderly(ctx: Context, tier: Risk.Tier, w: World, customerId: string, v: Vendors)
    requires Untouched(w) && customerId in w.customers && PassFor(LateGuardConfig(ctx), v).Ok?
    ensures Orderly(PerformAll(LateGuard(ctx), w, Direct(tier, customerId, "PAN", v)))
  {
    hide PassFor;
    var provider, a, b := LateGuard(ctx), Initiate(customerId, tier, "first"), UploadDocument("first", customerId, "PAN", true, v, "timer", 0);
    assert Direct(tier, customerId, "PAN", v) == [a] + [b];
    assert Orderly(w);
    InitiateKeepsIff(provider, w, a);
    InitiateCases(provider, w, a);
    StaysOneEach(provider, w, a);
    OneCall(provider, w, a);
    var w1 := Perform(provider, w, a).0;
    PerformAllSnoc(provider, w, [a], b);
    hide Perform, PerformAll, Direct, MandatoryTypes;
    UploadKeepsIff(provider, w1, b);
    StaysOneEach(provider, w1, b);
  }
}
