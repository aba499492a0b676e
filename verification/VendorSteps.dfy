/**
 How a workflow step becomes calls of one of the four vendor adapters, what the
 adapters demand of the verification context, and what that says about the
 steps that can ever go on. The clients behind the adapters are arbitrary.
 */
module VendorSteps {
  import opened Common
  import opened WorkflowPlan
  import opened WorkflowEngine
  import opened WorkflowConfluence
  import opened WorkflowReach
  import opened WorkflowResume
  import opened WorkflowGuards

  // ---- The verification context ----

  /** An entry of the metadata: a string, or anything else. */
  datatype Value = Text(text: string) | Other

  type Metadata = map<string, Value>

  /** The two parts of a verification context that an adapter can refuse. */
  datatype Context = Context(documentType: Option<string>, metadata: Metadata)

  /** The context as the executor builds it: the metadata handed through, and no document type. */
  function ContextOf(metadata: Metadata): Context {
    Context(None, metadata)
  }

  predicate HasText(metadata: Metadata, field: string) {
    field in metadata && metadata[field].Text? && Trim(metadata[field].text) != ""
  }

  lemma HasTextIff(metadata: Metadata, field: string)
    ensures HasText(metadata, field) <==>
            field in metadata && metadata[field].Text? && exists c :: c in metadata[field].text && !IsSpace(c)
  {
    if field in metadata && metadata[field].Text? {
      TrimBlank(metadata[field].text);
    }
    hide Trim, IsSpace;
  }

  // ---- The adapters ----

  /**
   What the wiring and the clients do in one step: `initiation` is an error of
   a disabled vendor, an expired certificate, an open breaker or a failing
   client; `fetched` likewise, or whether the registry knows the customer.
   */
  datatype Clients = Clients(initiation: Option<string>, fetched: Result<bool, string>)

  datatype Fetched = Fetched(success: bool, source: Option<string>)

  /** `initiateVerification`: whether the vendor is asynchronous. */
  function InitiateVerification(vendorType: string, ctx: Context, c: Clients): Result<bool, string> {
    if vendorType == "CKYC" && !HasText(ctx.metadata, "panNumber") then Err("missing-pan")
    else if vendorType == "AML_SCREENING" && !HasText(ctx.metadata, "fullName") then Err("missing-fullName")
    else if vendorType == "AML_SCREENING" && !HasText(ctx.metadata, "dateOfBirth") then Err("missing-dateOfBirth")
    else if c.initiation.Some? then Err(c.initiation.value)
    else if vendorType == "CKYC" || vendorType == "AML_SCREENING" then Ok(false)
    else if vendorType == "DIGILOCKER" || vendorType == "VIDEO_KYC" then Ok(true)
    else Err("no-vendor-entry")
  }

  /** `fetchResult`, right after the initiation, when a video session is still pending. */
  function FetchResult(vendorType: string, ctx: Context, c: Clients): Result<Fetched, string> {
    if vendorType == "VIDEO_KYC" then Err("session-still-pending")
    else if vendorType == "AML_SCREENING" then Ok(Fetched(true, None))
    else if vendorType == "DIGILOCKER" && (ctx.documentType == None || ctx.documentType == Some("")) then Err("missing-document-type")
    else match c.fetched
      case Err(message) => Err(message)
      case Ok(found) =>
        Ok(Fetched(true, if vendorType != "CKYC" then None
                         else if found then Some("CKYC_EXISTING_RECORD") else Some("CKYC_FRESH_UPLOAD")))
  }

  /** The executor: an asynchronous step whose adapter is asynchronous only initiates, anything else fetches at once. */
  function ExecuteVendorStep(s: WorkflowStep, ctx: Context, c: Clients): VendorOutcome {
    if s.vendorType == None || s.vendorType == Some("") then Thrown("no-vendor-type")
    else match InitiateVerification(s.vendorType.value, ctx, c)
      case Err(message) => Thrown(message)
      case Ok(isAsync) =>
        if s.isAsync && isAsync then Returned(true, true, None)
        else match FetchResult(s.vendorType.value, ctx, c)
          case Err(message) => Thrown(message)
          case Ok(f) => Returned(f.success, false, f.source)
  }

  ghost predicate MayAnswer(s: WorkflowStep, ctx: Context, outcome: VendorOutcome) {
    exists c :: outcome == ExecuteVendorStep(s, ctx, c)
  }

  /** The step calls of one pass are what the adapters make of this context, whatever the clients do. */
  ghost predicate ByAdapters(ctx: Context, vendor: Vendor) {
    forall s :: MayAnswer(s, ctx, vendor(s))
  }

  // ---- What the adapters let go on ----

  /** The context has what the adapter needs to answer at once; a video session never can. */
  predicate Accepts(vendorType: string, ctx: Context) {
    || (vendorType == "CKYC" && HasText(ctx.metadata, "panNumber"))
    || (vendorType == "AML_SCREENING" && HasText(ctx.metadata, "fullName") && HasText(ctx.metadata, "dateOfBirth"))
    || (vendorType == "DIGILOCKER" && ctx.documentType.Some? && ctx.documentType.value != "")
  }

  predicate Waits(s: WorkflowStep) {
    s.isAsync && s.vendorType in {Some("DIGILOCKER"), Some("VIDEO_KYC")}
  }

  /** The step waits for a webhook, or its adapter refuses the context. */
  predicate NeverGoesOn(s: WorkflowStep, ctx: Context) {
    Waits(s) || s.vendorType == None || !Accepts(s.vendorType.value, ctx)
  }

  /** Only the registry's adapter can report an existing record. */
  function NatureOf(ctx: Context): Nature {
    Nature((s: WorkflowStep) => NeverGoesOn(s, ctx), (s: WorkflowStep) => s.vendorType == Some("CKYC"))
  }

  /** When a step waits, when it goes on, and what it then reports. */
  lemma StepAnswers(s: WorkflowStep, ctx: Context, c: Clients)
    ensures var outcome := ExecuteVendorStep(s, ctx, c);
            var waits := s.isAsync && (s.vendorType == Some("DIGILOCKER") || s.vendorType == Some("VIDEO_KYC"));
            && (outcome.Returned? && outcome.awaitingCallback <==> waits && c.initiation == None)
            && (outcome.Returned? && !outcome.awaitingCallback <==>
                  && !waits && c.initiation == None && s.vendorType.Some? && Accepts(s.vendorType.value, ctx)
                  && (s.vendorType.value == "AML_SCREENING" || c.fetched.Ok?))
            && (outcome.Returned? ==> outcome.success)
            && (outcome.Returned? && !waits && s.vendorType.Some? && s.vendorType.value == "CKYC" && c.fetched.Ok? ==>
                  outcome.source == Some(if c.fetched.value then "CKYC_EXISTING_RECORD" else "CKYC_FRESH_UPLOAD"))
  {
    hide HasText;
  }

  /** What a step throws when nothing is wrong with the wiring or the clients. */
  lemma StepRefuses(s: WorkflowStep, ctx: Context, found: bool)
    ensures var outcome := ExecuteVendorStep(s, ctx, Clients(None, Ok(found)));
            match s.vendorType
            case None => outcome == Thrown("no-vendor-type")
            case Some(t) =>
              && (t == "" ==> outcome == Thrown("no-vendor-type"))
              && (t == "CKYC" && !HasText(ctx.metadata, "panNumber") ==> outcome == Thrown("missing-pan"))
              && (t == "AML_SCREENING" && !HasText(ctx.metadata, "fullName") ==> outcome == Thrown("missing-fullName"))
              && (t == "AML_SCREENING" && HasText(ctx.metadata, "fullName") && !HasText(ctx.metadata, "dateOfBirth") ==>
                    outcome == Thrown("missing-dateOfBirth"))
              && (t == "DIGILOCKER" && !s.isAsync && !(ctx.documentType.Some? && ctx.documentType.value != "") ==>
                    outcome == Thrown("missing-document-type"))
              && (t == "VIDEO_KYC" && !s.isAsync ==> outcome == Thrown("session-still-pending"))
              && (t !in {"", "CKYC", "AML_SCREENING", "DIGILOCKER", "VIDEO_KYC"} ==> outcome == Thrown("no-vendor-entry"))
  {
    hide HasText;
  }

  lemma StepObeys(s: WorkflowStep, ctx: Context, c: Clients)
    ensures var outcome := ExecuteVendorStep(s, ctx, c);
            && (NeverGoesOn(s, ctx) ==> !GoesOn(s, outcome))
            && (outcome.Returned? && outcome.source == Some("CKYC_EXISTING_RECORD") ==> s.vendorType == Some("CKYC"))
  {
    hide HasText;
  }

  lemma AdaptersObey(ctx: Context, vendor: Vendor)
    requires ByAdapters(ctx, vendor)
    ensures Obeys(vendor, NatureOf(ctx))
  {
    forall s
      ensures NatureOf(ctx).stalls(s) ==> !GoesOn(s, vendor(s))
      ensures RecordFound(s, vendor) ==> NatureOf(ctx).finds(s)
    {
      assert MayAnswer(s, ctx, vendor(s));
      var c :| vendor(s) == ExecuteVendorStep(s, ctx, c);
      StepObeys(s, ctx, c);
    }
  }

  /** Clients that never fail, with a registry that knows the customer as told. */
  function Faultless(finders: set<WorkflowStep>, ctx: Context): Vendor {
    s => ExecuteVendorStep(s, ctx, Clients(None, Ok(s in finders)))
  }

  lemma FaultlessRealises(finders: set<WorkflowStep>, ctx: Context)
    ensures ByAdapters(ctx, Faultless(finders, ctx))
    ensures Realises(Faultless(finders, ctx), finders, NatureOf(ctx))
  {
    forall s ensures MayAnswer(s, ctx, Faultless(finders, ctx)(s)) {
      assert Faultless(finders, ctx)(s) == ExecuteVendorStep(s, ctx, Clients(None, Ok(s in finders)));
    }
    forall s | !NatureOf(ctx).stalls(s)
      ensures GoesOn(s, Faultless(finders, ctx)(s))
      ensures RecordFound(s, Faultless(finders, ctx)) <==> s in finders && NatureOf(ctx).finds(s)
    {
      FaultlessStep(s, finders, ctx);
    }
  }

  lemma FaultlessStep(s: WorkflowStep, finders: set<WorkflowStep>, ctx: Context)
    requires !NeverGoesOn(s, ctx)
    ensures var outcome := ExecuteVendorStep(s, ctx, Clients(None, Ok(s in finders)));
            GoesOn(s, outcome) && (outcome.source == Some("CKYC_EXISTING_RECORD") <==> s in finders && s.vendorType == Some("CKYC"))
  {
    hide HasText;
  }

  // ---- Running to the end ----

  /** The adapters in this context, completing each call once. */
  ghost predicate Serves(ctx: Context, vendor: Vendor, completion: nat -> seq<nat>, groups: seq<seq<WorkflowStep>>) {
    ByAdapters(ctx, vendor) && ValidCompletion(completion, groups)
  }

  predicate CanRunToTheEnd(groups: seq<seq<WorkflowStep>>, ctx: Context) {
    Reaches(RunsToTheEnd, groups, None, NatureOf(ctx))
  }

  /**
   For every context: some clients let a pass succeed exactly when some answers
   of the registry guard off every manual step, every step that would wait and
   every step whose adapter refuses the context, and meet no unknown flag.
   */
  lemma RunsToTheEndIff(steps: seq<WorkflowStep>, ctx: Context)
    requires DistinctOrders(steps)
    ensures var groups := GroupSteps(SortByOrder(steps));
            (exists vendor, completion :: Serves(ctx, vendor, completion, groups) && Came(RunsToTheEnd, Execute(steps, map[], vendor, completion)))
            <==> CanRunToTheEnd(groups, ctx)
  {
    var groups := GroupSteps(SortByOrder(steps));
    if vendor, completion :| Serves(ctx, vendor, completion, groups) && Came(RunsToTheEnd, Execute(steps, map[], vendor, completion)) {
      ServedPassMeansWalk(RunsToTheEnd, steps, ctx, vendor, completion);
    }
    if CanRunToTheEnd(groups, ctx) {
      var vendor, completion := WalkMeansServedPass(RunsToTheEnd, steps, ctx);
    }
  }

  lemma ServedPassMeansWalk(goal: Goal, steps: seq<WorkflowStep>, ctx: Context, vendor: Vendor, completion: nat -> seq<nat>)
    requires Serves(ctx, vendor, completion, GroupSteps(SortByOrder(steps)))
    requires Came(goal, Execute(steps, map[], vendor, completion))
    ensures Reaches(goal, GroupSteps(SortByOrder(steps)), None, NatureOf(ctx))
  {
    AdaptersObey(ctx, vendor);
    PassMeansWalk(goal, steps, vendor, completion, NatureOf(ctx));
  }

  lemma WalkMeansServedPass(goal: Goal, steps: seq<WorkflowStep>, ctx: Context) returns (vendor: Vendor, completion: nat -> seq<nat>)
    requires DistinctOrders(steps) && Reaches(goal, GroupSteps(SortByOrder(steps)), None, NatureOf(ctx))
    ensures Serves(ctx, vendor, completion, GroupSteps(SortByOrder(steps)))
    ensures Came(goal, Execute(steps, map[], vendor, completion))
  {
    var finders;
    finders, completion := WalkMeansPass(goal, steps, NatureOf(ctx));
    FaultlessRealises(finders, ctx);
    vendor := Faultless(finders, ctx);
  }

  /** Some clients at least exist. */
  lemma SomeServe(steps: seq<WorkflowStep>, ctx: Context) returns (vendor: Vendor, completion: nat -> seq<nat>)
    ensures Serves(ctx, vendor, completion, GroupSteps(SortByOrder(steps)))
  {
    FaultlessRealises({}, ctx);
    vendor, completion := Faultless({}, ctx), Promptly(GroupSteps(SortByOrder(steps)));
    PromptlyIsValid(GroupSteps(SortByOrder(steps)));
  }

  // ---- The shipped workflows ----

  lemma SingletonClears(s: WorkflowStep, found: Option<bool>, n: Nature)
    ensures Clears([s], found, n) <==>
            var v := EvaluateGuard(s.guardExpression, FlagsOf(found));
            v.Ok? && (v.value ==> !s.isManualStep && !n.stalls(s))
    ensures GuardError([s], FlagsOf(found)).Some? <==> EvaluateGuard(s.guardExpression, FlagsOf(found)).Err?
    ensures Searches([s], found) <==> IsSearch(s, found)
    ensures IsSearch(s, found) && n.finds(s) ==> MayLearn([s], found, n, true)
  {
    NoErrorMeansNone([s], FlagsOf(found));
    hide EvaluateGuard, IsSearch, GuardError;
    assert [s][0] == s;
    if IsSearch(s, found) && n.finds(s) {
      assert IsFinder([s], found, n, 0);
    }
  }

  /** One step at a time, with a registry that answers what the walk wants to hear. */
  lemma StepReaches(goal: Goal, steps: seq<WorkflowStep>, found: Option<bool>, n: Nature, record: bool)
    requires steps != [] && Clears([steps[0]], found, n) && MayLearn([steps[0]], found, n, record)
    requires Reaches(goal, Singletons(steps[1..]), Learnt([steps[0]], found, record), n)
    ensures Reaches(goal, Singletons(steps), found, n)
  {
    hide Clears, Learnt, MayLearn;
    assert Singletons(steps)[1..] == Singletons(steps[1..]);
  }

  /** A step that is guarded off is passed with nothing learnt. */
  lemma PassGuardedOff(goal: Goal, steps: seq<WorkflowStep>, found: Option<bool>, n: Nature)
    requires steps != [] && EvaluateGuard(steps[0].guardExpression, FlagsOf(found)) == Ok(false)
    requires Reaches(goal, Singletons(steps[1..]), found, n)
    ensures Reaches(goal, Singletons(steps), found, n)
  {
    SingletonClears(steps[0], found, n);
    assert Learnt([steps[0]], found, false) == found;
    hide EvaluateGuard, Clears, Searches, Reaches, Singletons;
    StepReaches(goal, steps, found, n, false);
  }

  /** A vendor step that goes on is passed; a registry search that can may have found a record. */
  lemma PassRunning(goal: Goal, steps: seq<WorkflowStep>, found: Option<bool>, n: Nature)
    requires steps != [] && !IsGuarded(steps[0].guardExpression) && !steps[0].isManualStep && !n.stalls(steps[0])
    requires steps[0].stepName == "ckyc-search" ==> n.finds(steps[0])
    requires Reaches(goal, Singletons(steps[1..]), if steps[0].stepName == "ckyc-search" then Some(true) else found, n)
    ensures Reaches(goal, Singletons(steps), found, n)
  {
    var s := steps[0];
    var isSearch := s.stepName == "ckyc-search";
    SingletonClears(s, found, n);
    assert IsSearch(s, found) == isSearch;
    assert Learnt([s], found, isSearch) == (if isSearch then Some(true) else found);
    hide EvaluateGuard, Clears, Searches, Reaches, Singletons, IsSearch;
    StepReaches(goal, steps, found, n, isSearch);
  }

  lemma MinimumReachesTheEnd(ctx: Context)
    ensures Reaches(RunsToTheEnd, Singletons(MINIMUM_STEPS), None, NatureOf(ctx))
            <==> Accepts("DIGILOCKER", ctx) && Accepts("AML_SCREENING", ctx)
  {
    hide Accepts;
    var s, n := MINIMUM_STEPS, NatureOf(ctx);
    assert n.stalls(s[0]) == !Accepts("DIGILOCKER", ctx) && n.stalls(s[1]) == !Accepts("AML_SCREENING", ctx);
    if Accepts("DIGILOCKER", ctx) && Accepts("AML_SCREENING", ctx) {
      assert s[1..][1..] == [];
      assert Reaches(RunsToTheEnd, Singletons([]), None, n);
      hide NatureOf, Reaches, Singletons;
      PassRunning(RunsToTheEnd, s[1..], None, n);
      PassRunning(RunsToTheEnd, s, None, n);
    } else {
      var k := if Accepts("DIGILOCKER", ctx) then 1 else 0;
      UnguardedBlocks(Singletons(s), None, n, k, 0);
    }
  }

  /** A customer the registry knows passes the remaining checks. */
  lemma FullReachesTheEnd(ctx: Context)
    ensures Reaches(RunsToTheEnd, Singletons(FULL_STEPS), None, NatureOf(ctx))
            <==> Accepts("CKYC", ctx) && Accepts("AML_SCREENING", ctx)
  {
    hide Accepts;
    ShippedFlagNames();
    var s, n, found := FULL_STEPS, NatureOf(ctx), Some(true);
    assert n.stalls(s[0]) == !Accepts("CKYC", ctx) && n.stalls(s[2]) == !Accepts("AML_SCREENING", ctx);
    if Accepts("CKYC", ctx) && Accepts("AML_SCREENING", ctx) {
      assert s[1..][1..] == s[2..] && s[2..][1..] == s[3..] && s[3..][1..] == [];
      assert EvaluateGuard(s[1].guardExpression, FlagsOf(found)) == Ok(false) && EvaluateGuard(s[3].guardExpression, FlagsOf(found)) == Ok(false);
      assert n.finds(s[0]) && Reaches(RunsToTheEnd, Singletons([]), found, n);
      hide NatureOf, Reaches, Singletons, EvaluateGuard, FlagsOf;
      PassGuardedOff(RunsToTheEnd, s[3..], found, n);
      PassRunning(RunsToTheEnd, s[2..], found, n);
      PassGuardedOff(RunsToTheEnd, s[1..], found, n);
      PassRunning(RunsToTheEnd, s, None, n);
    } else {
      var k := if Accepts("CKYC", ctx) then 2 else 0;
      UnguardedBlocks(Singletons(s), None, n, k, 0);
    }
  }

  lemma EddHalts(n: Nature)
    ensures !Reaches(RunsToTheEnd, Singletons(EDD_STEPS), None, n)
  {
    assert Singletons(EDD_STEPS)[5] == [EDD_STEPS[5]];
    UnguardedBlocks(Singletons(EDD_STEPS), None, n, 5, 0);
  }

  /**
   What the context has to supply for a shipped workflow to run to the end:
   MINIMUM the document type, the name and the date of birth; FULL the PAN, the
   name and the date of birth; for EDD nothing would do.
   */
  predicate Suffices(steps: seq<WorkflowStep>, ctx: Context) {
    || (steps == MINIMUM_STEPS && Accepts("DIGILOCKER", ctx) && Accepts("AML_SCREENING", ctx))
    || (steps == FULL_STEPS && Accepts("CKYC", ctx) && Accepts("AML_SCREENING", ctx))
  }

  lemma ShippedRunToTheEnd(steps: seq<WorkflowStep>, ctx: Context)
    requires steps in {MINIMUM_STEPS, FULL_STEPS, EDD_STEPS}
    ensures DistinctOrders(steps) && forall n :: !CanMeetUnknownFlag(GroupSteps(SortByOrder(steps)), n)
    ensures CanRunToTheEnd(GroupSteps(SortByOrder(steps)), ctx) <==> Suffices(steps, ctx)
  {
    assert DistinctOrders(steps);
    assert |MINIMUM_STEPS| == 2 && |FULL_STEPS| == 4 && |EDD_STEPS| == 7;
    MinimumReachesTheEnd(ctx);
    FullReachesTheEnd(ctx);
    EddHalts(NatureOf(ctx));
    ShippedWorkflowsAreSafe(steps);
    hide MINIMUM_STEPS, FULL_STEPS, EDD_STEPS, Reaches, DistinctOrders, GuardsEstablished, Accepts, NatureOf;
    forall n ensures !CanMeetUnknownFlag(GroupSteps(SortByOrder(steps)), n) {
      EstablishedMeansSafe(steps, n);
    }
  }

  // ---- A context in which no adapter answers ----

  /** No adapter finds what it needs. */
  predicate IsBare(ctx: Context) {
    !Accepts("CKYC", ctx) && !Accepts("AML_SCREENING", ctx) && !Accepts("DIGILOCKER", ctx)
  }

  lemma BareStalls(ctx: Context)
    requires IsBare(ctx)
    ensures forall s :: NatureOf(ctx).stalls(s)
  {
    forall s ensures NeverGoesOn(s, ctx) {}
  }

  /** In a bare context a workflow runs to the end exactly if it runs no step: all are guarded off from the start. */
  lemma BareRunsToTheEndIff(steps: seq<WorkflowStep>, ctx: Context)
    requires IsBare(ctx)
    ensures CanRunToTheEnd(GroupSteps(SortByOrder(steps)), ctx)
            <==> forall s :: s in steps ==> EvaluateGuard(s.guardExpression, map[]) == Ok(false)
  {
    var groups := GroupSteps(SortByOrder(steps));
    BareStalls(ctx);
    NothingGoesOn(groups, NatureOf(ctx));
    hide Reaches, EvaluateGuard, NatureOf;
    SortIsSort(steps);
    GroupStepsPartitions(SortByOrder(steps));
    forall s ensures s in steps <==> s in Flatten(groups) {
      assert s in multiset(steps) <==> s in multiset(Flatten(groups));
    }
    if forall s :: s in steps ==> EvaluateGuard(s.guardExpression, map[]) == Ok(false) {
      forall g: nat, i: nat | g < |groups| && i < |groups[g]| ensures EvaluateGuard(groups[g][i].guardExpression, map[]) == Ok(false) {
        InFlatten(groups, g, i);
      }
    }
    if AllGuardedOff(groups) {
      forall s | s in steps ensures EvaluateGuard(s.guardExpression, map[]) == Ok(false) {
        var g, i := PlaceInFlatten(groups, s);
      }
    }
  }

  lemma {:induction false} PlaceInFlatten(groups: seq<seq<WorkflowStep>>, s: WorkflowStep) returns (g: nat, i: nat)
    requires s in Flatten(groups)
    ensures g < |groups| && i < |groups[g]| && groups[g][i] == s
  {
    if s in Last(groups) {
      g := |groups| - 1;
      i :| 0 <= i < |groups[g]| && groups[g][i] == s;
    } else {
      g, i := PlaceInFlatten(groups[..|groups| - 1], s);
    }
  }

  /** A group that is guarded off altogether changes nothing. */
  lemma BareStep(w: Setting, n: Nature, k: nat)
    requires k < |w.groups| && ValidCompletion(w.completion, w.groups) && (forall s :: n.stalls(s))
    requires Live(After(w, map[], k)) && After(w, map[], k).flags == FlagsOf(None) && Clears(w.groups[k], None, n)
    ensures !Searches(w.groups[k], None)
    ensures Live(After(w, map[], k + 1)) && After(w, map[], k + 1).flags == FlagsOf(None)
  {
    var p, group, order := After(w, map[], k), w.groups[k], w.completion(k);
    assert After(w, map[], k + 1) == ExecuteGroup(p, group, w.vendor, order);
    hide ExecuteGroup, After, Clears, Searches, FlagsOf;
    GroupGuardedOff(group, n);
    GroupRuns(p, group, None, w.vendor, order, n, Choice(false, |group|));
  }

  lemma ErrorEnds(w: Setting, k: nat)
    requires k < |w.groups| && Live(After(w, map[], k)) && GuardError(w.groups[k], After(w, map[], k).flags).Some?
    ensures After(w, map[], |w.groups|).guardError.Some?
  {
    hide Results, Complete, VendorCalls, HaltsManually, Awaits, SomeFailed, GuardError;
    var p, group := After(w, map[], k), w.groups[k];
    assert After(w, map[], k + 1) == ExecuteGroup(p, group, w.vendor, w.completion(k));
    assert ExecuteGroup(p, group, w.vendor, w.completion(k)).guardError == GuardError(group, p.flags);
    hide After, ExecuteGroup;
    StoppedStays(w, map[], k + 1, |w.groups|);
  }

  /** In a bare context the walk needs no answers: whether a pass meets an unknown flag is the same for all clients. */
  lemma {:induction false} BareWalkIsPass(w: Setting, n: Nature, k: nat)
    requires k <= |w.groups| && ValidCompletion(w.completion, w.groups) && (forall s :: n.stalls(s))
    requires Live(After(w, map[], k)) && After(w, map[], k).flags == FlagsOf(None)
    requires Reaches(MeetsUnknownFlag, w.groups[k..], None, n)
    ensures After(w, map[], |w.groups|).guardError.Some?
    decreases |w.groups| - k
  {
    assert w.groups[k..][0] == w.groups[k] && w.groups[k..][1..] == w.groups[k + 1..];
    hide ValidCompletion, Clears, Searches, MayLearn, GuardError, After, FlagsOf;
    if GuardError(w.groups[k], FlagsOf(None)).Some? {
      ErrorEnds(w, k);
    } else {
      BareStep(w, n, k);
      BareWalkIsPass(w, n, k + 1);
    }
  }

  lemma BareThrowsIff(steps: seq<WorkflowStep>, ctx: Context, vendor: Vendor, completion: nat -> seq<nat>)
    requires IsBare(ctx) && Serves(ctx, vendor, completion, GroupSteps(SortByOrder(steps)))
    ensures Execute(steps, map[], vendor, completion).Err? <==> CanMeetUnknownFlag(GroupSteps(SortByOrder(steps)), NatureOf(ctx))
  {
    var w := SettingFor(steps, vendor, completion);
    BareStalls(ctx);
    assert w.groups[0..] == w.groups;
    CameIsEnded(MeetsUnknownFlag, steps, vendor, completion);
    if Execute(steps, map[], vendor, completion).Err? {
      ServedPassMeansWalk(MeetsUnknownFlag, steps, ctx, vendor, completion);
    } else if CanMeetUnknownFlag(w.groups, NatureOf(ctx)) {
      BareWalkIsPass(w, NatureOf(ctx), 0);
    }
  }
}
