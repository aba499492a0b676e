/** What can be reached from a fresh service: which tiers get past document collection and which can ever be verified. */
module UseCaseReach {
  import opened Common
  import opened VerificationStateMachine
  import opened UseCases
  import opened UseCaseInvariants
  import opened UseCaseOutcomes
  import opened UseCaseCollection
  import WorkflowPlan
  import WorkflowEngine
  import WorkflowAccounting
  import WorkflowReach
  import VendorSteps
  import Risk

  // ---- Runs that lead somewhere ----

  function Uploads(r: string, customerId: string, types: seq<string>, v: Vendors): seq<Command> {
    seq(|types|, i requires 0 <= i < |types| => UploadDocument(r, customerId, types[i], true, v, "timer", 0))
  }

  /** One initiation and one document. */
  function Direct(tier: Risk.Tier, customerId: string, documentType: string, v: Vendors): seq<Command> {
    [Initiate(customerId, tier, "first")] + Uploads("first", customerId, [documentType], v)
  }

  /** All documents under a first request, though it takes only one of them; then a second request and one document again. */
  function Detour(tier: Risk.Tier, customerId: string, types: seq<string>, v: Vendors): seq<Command>
    requires types != []
  {
    Collection(tier, customerId, types, v) + [Initiate(customerId, tier, "second")] + Uploads("second", customerId, types[..1], v)
  }

  /** The customer exists, no timer runs, and the vendors are fit for the tier. */
  ghost predicate Ready(provider: Provider, tier: Risk.Tier, w: World, customerId: string, v: Vendors) {
    && customerId in w.customers && w.timers == []
    && provider(tier).targetCompletionMinutes > 0 && provider(tier).requiredDocuments != []
    && ServesTier(provider, tier, v) && PassFor(provider(tier), v).Ok?
  }

  predicate IsAt(w: World, r: string, customerId: string, tier: Risk.Tier, status: Status) {
    r in w.requests && w.requests[r].customerId == customerId && w.requests[r].tier == tier && w.requests[r].status == status
  }

  lemma OneCallRun(provider: Provider, w: World, c: Command)
    requires Feasible(provider, w, c)
    ensures FeasibleRun(provider, w, [c]) && PerformAll(provider, w, [c]) == Perform(provider, w, c).0
  {
    hide Perform, Feasible;
    OneCall(provider, w, c);
    assert [c][1..] == [];
    assert FeasibleRun(provider, Perform(provider, w, c).0, []);
  }

  lemma Opening(provider: Provider, tier: Risk.Tier, w: World, customerId: string, v: Vendors, r: string)
    requires Ready(provider, tier, w, customerId, v) && r !in w.requests
    ensures var cs := [Initiate(customerId, tier, r)];
            var w' := PerformAll(provider, w, cs);
            && FeasibleRun(provider, w, cs) && Ready(provider, tier, w', customerId, v)
            && IsAt(w', r, customerId, tier, DocumentsPending) && w'.documents == w.documents
            && w'.requests.Keys == w.requests.Keys + {r}
  {
    var c := Initiate(customerId, tier, r);
    OneCallRun(provider, w, c);
    InitiateCases(provider, w, c);
    hide PerformAll, FeasibleRun, Perform, PassFor;
  }

  function Document(r: string, customerId: string, documentType: string, v: Vendors): Command {
    UploadDocument(r, customerId, documentType, true, v, "timer", 0)
  }

  lemma DocumentRuns(provider: Provider, tier: Risk.Tier, w: World, customerId: string, v: Vendors, r: string, documentType: string)
    requires Ready(provider, tier, w, customerId, v) && r in w.requests && w.requests[r].tier == tier
    ensures var cs := Uploads(r, customerId, [documentType], v);
            FeasibleRun(provider, w, cs) && PerformAll(provider, w, cs) == Perform(provider, w, Document(r, customerId, documentType, v)).0
  {
    var c := Document(r, customerId, documentType, v);
    assert Uploads(r, customerId, [documentType], v) == [c];
    assert Feasible(provider, w, c);
    hide PassFor, Perform, Uploads, Feasible;
    OneCallRun(provider, w, c);
  }

  /** The one upload a pending request takes. */
  lemma FirstUpload(provider: Provider, tier: Risk.Tier, w: World, customerId: string, v: Vendors, r: string, documentType: string)
    requires Ready(provider, tier, w, customerId, v) && IsAt(w, r, customerId, tier, DocumentsPending)
    ensures var cs := Uploads(r, customerId, [documentType], v);
            var w' := PerformAll(provider, w, cs);
            && FeasibleRun(provider, w, cs) && w'.requests.Keys == w.requests.Keys
            && DocumentsOf(w', customerId) == DocumentsOf(w, customerId) + {documentType}
            && (if MandatoryTypes(provider(tier)) <= DocumentsOf(w, customerId) + {documentType}
                then IsAt(w', r, customerId, tier, UploadStatus(PassFor(provider(tier), v).value))
                else IsAt(w', r, customerId, tier, DocumentsReceived) && Ready(provider, tier, w', customerId, v))
  {
    DocumentRuns(provider, tier, w, customerId, v, r, documentType);
    hide PassFor, TimersAfterPass, MandatoryTypes, Perform, Uploads, PerformAll, FeasibleRun, ServesTier;
    UploadCases(provider, w, Document(r, customerId, documentType, v));
  }

  function AsSet(types: seq<string>): set<string> {
    set t | t in types
  }

  lemma AsSetConcat(a: seq<string>, b: seq<string>)
    ensures AsSet(a + b) == AsSet(a) + AsSet(b)
  {}

  lemma UploadsConcat(r: string, customerId: string, a: seq<string>, b: seq<string>, v: Vendors)
    ensures Uploads(r, customerId, a + b, v) == Uploads(r, customerId, a, v) + Uploads(r, customerId, b, v)
  {}

  /** Later uploads are rejected, and their documents kept. */
  lemma {:induction false} LateUploads(provider: Provider, tier: Risk.Tier, w: World, customerId: string, v: Vendors, r: string, types: seq<string>)
    requires Ready(provider, tier, w, customerId, v) && IsAt(w, r, customerId, tier, DocumentsReceived)
    ensures var cs := Uploads(r, customerId, types, v);
            var w' := PerformAll(provider, w, cs);
            && FeasibleRun(provider, w, cs) && w'.requests == w.requests && Ready(provider, tier, w', customerId, v)
            && DocumentsOf(w', customerId) == DocumentsOf(w, customerId) + AsSet(types)
  {
    if types != [] {
      var front, last := types[..|types| - 1], types[|types| - 1];
      assert types == front + [last];
      UploadsConcat(r, customerId, front, [last], v);
      assert AsSet([last]) == {last};
      hide PerformAll, FeasibleRun, Uploads, Ready, AsSet, DocumentsOf, IsAt;
      LateUploads(provider, tier, w, customerId, v, r, front);
      var w' := PerformAll(provider, w, Uploads(r, customerId, front, v));
      StaysAt(w, w', r, customerId, tier);
      LateUpload(provider, tier, w', customerId, v, r, last);
      Joined(provider, w, Uploads(r, customerId, front, v), Uploads(r, customerId, [last], v));
      AsSetConcat(front, [last]);
    }
  }

  lemma StaysAt(w: World, w': World, r: string, customerId: string, tier: Risk.Tier)
    requires IsAt(w, r, customerId, tier, DocumentsReceived) && w'.requests == w.requests
    ensures IsAt(w', r, customerId, tier, DocumentsReceived)
  {}

  lemma LateUpload(provider: Provider, tier: Risk.Tier, w: World, customerId: string, v: Vendors, r: string, documentType: string)
    requires Ready(provider, tier, w, customerId, v) && IsAt(w, r, customerId, tier, DocumentsReceived)
    ensures var cs := Uploads(r, customerId, [documentType], v);
            var w' := PerformAll(provider, w, cs);
            && FeasibleRun(provider, w, cs) && w'.requests == w.requests && Ready(provider, tier, w', customerId, v)
            && DocumentsOf(w', customerId) == DocumentsOf(w, customerId) + {documentType}
  {
    DocumentRuns(provider, tier, w, customerId, v, r, documentType);
    hide PassFor, TimersAfterPass, MandatoryTypes, Perform, Uploads, PerformAll, FeasibleRun, ServesTier;
    UploadCases(provider, w, Document(r, customerId, documentType, v));
  }

  lemma DirectLeads(provider: Provider, tier: Risk.Tier, w: World, customerId: string, v: Vendors, documentType: string)
    requires Untouched(w) && Ready(provider, tier, w, customerId, v) && MandatoryTypes(provider(tier)) <= {documentType}
    ensures var cs := Direct(tier, customerId, documentType, v);
            FeasibleRun(provider, w, cs)
            && IsAt(PerformAll(provider, w, cs), "first", customerId, tier, UploadStatus(PassFor(provider(tier), v).value))
  {
    hide PassFor, Perform, MandatoryTypes, Uploads;
    var first, second := [Initiate(customerId, tier, "first")], Uploads("first", customerId, [documentType], v);
    Opening(provider, tier, w, customerId, v, "first");
    var w1 := PerformAll(provider, w, first);
    FirstUpload(provider, tier, w1, customerId, v, "first", documentType);
    PerformAllConcat(provider, w, first, second);
    FeasibleConcat(provider, w, first, second);
  }

  /** What a detour does first: one upload accepted, the others rejected, all documents kept. */
  function Collection(tier: Risk.Tier, customerId: string, types: seq<string>, v: Vendors): seq<Command> {
    [Initiate(customerId, tier, "first")] + Uploads("first", customerId, types, v)
  }

  lemma FirstRequestCollects(provider: Provider, tier: Risk.Tier, w: World, customerId: string, v: Vendors, types: seq<string>)
    requires Untouched(w) && Ready(provider, tier, w, customerId, v) && types != []
    requires !(MandatoryTypes(provider(tier)) <= {types[0]})
    ensures var cs := Collection(tier, customerId, types, v);
            var w' := PerformAll(provider, w, cs);
            && FeasibleRun(provider, w, cs) && Ready(provider, tier, w', customerId, v) && "second" !in w'.requests
            && DocumentsOf(w', customerId) == AsSet(types)
  {
    hide PassFor, Perform, MandatoryTypes;
    var opening, one, rest := [Initiate(customerId, tier, "first")], Uploads("first", customerId, [types[0]], v), Uploads("first", customerId, types[1..], v);
    assert types == [types[0]] + types[1..];
    UploadsConcat("first", customerId, [types[0]], types[1..], v);
    assert Collection(tier, customerId, types, v) == (opening + one) + rest;
    assert AsSet([types[0]]) == {types[0]};
    hide Uploads, Collection, PerformAll, FeasibleRun, AsSet;
    Opening(provider, tier, w, customerId, v, "first");
    var w1 := PerformAll(provider, w, opening);
    FirstUpload(provider, tier, w1, customerId, v, "first", types[0]);
    Joined(provider, w, opening, one);
    var w2 := PerformAll(provider, w1, one);
    LateUploads(provider, tier, w2, customerId, v, "first", types[1..]);
    Joined(provider, w, opening + one, rest);
    AsSetConcat([types[0]], types[1..]);
  }

  /** The first request never leaves document collection; the second does with a single upload. */
  lemma DetourLeads(provider: Provider, tier: Risk.Tier, w: World, customerId: string, v: Vendors, types: seq<string>)
    requires Untouched(w) && Ready(provider, tier, w, customerId, v) && types != []
    requires !(MandatoryTypes(provider(tier)) <= {types[0]}) && MandatoryTypes(provider(tier)) <= AsSet(types)
    ensures var cs := Detour(tier, customerId, types, v);
            FeasibleRun(provider, w, cs)
            && IsAt(PerformAll(provider, w, cs), "second", customerId, tier, UploadStatus(PassFor(provider(tier), v).value))
  {
    hide PassFor, Perform, MandatoryTypes;
    var before, again := Collection(tier, customerId, types, v), [Initiate(customerId, tier, "second")];
    var last := Uploads("second", customerId, [types[0]], v);
    assert types[..1] == [types[0]];
    assert Detour(tier, customerId, types, v) == (before + again) + last;
    hide Uploads, Detour, Collection, PerformAll, FeasibleRun, AsSet;
    FirstRequestCollects(provider, tier, w, customerId, v, types);
    var w3 := PerformAll(provider, w, before);
    Opening(provider, tier, w3, customerId, v, "second");
    Joined(provider, w, before, again);
    FirstUpload(provider, tier, PerformAll(provider, w3, again), customerId, v, "second", types[0]);
    Joined(provider, w, before + again, last);
  }

  lemma Joined(provider: Provider, w: World, a: seq<Command>, b: seq<Command>)
    requires FeasibleRun(provider, w, a) && FeasibleRun(provider, PerformAll(provider, w, a), b)
    ensures FeasibleRun(provider, w, a + b) && PerformAll(provider, w, a + b) == PerformAll(provider, PerformAll(provider, w, a), b)
  {
    PerformAllConcat(provider, w, a, b);
    FeasibleConcat(provider, w, a, b);
  }

  lemma {:induction false} Enumerate(s: set<string>) returns (types: seq<string>)
    ensures forall t :: t in types <==> t in s
  {
    types := [];
    if x :| x in s {
      var rest := Enumerate(s - {x});
      types := [x] + rest;
    }
  }

  /** Whatever one pass makes of a request, some run of the tier makes of one, whatever the mandatory documents are. */
  lemma SomeRunLeads(provider: Provider, tier: Risk.Tier, w: World, customerId: string, v: Vendors) returns (cs: seq<Command>, r: string)
    requires Untouched(w) && Ready(provider, tier, w, customerId, v)
    ensures FeasibleRun(provider, w, cs)
    ensures IsAt(PerformAll(provider, w, cs), r, customerId, tier, UploadStatus(PassFor(provider(tier), v).value))
  {
    hide FeasibleRun, PerformAll, PassFor, MandatoryTypes, Ready, Untouched;
    var mandatory := MandatoryTypes(provider(tier));
    var types := Enumerate(mandatory);
    if types == [] {
      types := [""];
    }
    if mandatory <= {types[0]} {
      DirectLeads(provider, tier, w, customerId, v, types[0]);
      cs, r := Direct(tier, customerId, types[0], v), "first";
    } else {
      DetourLeads(provider, tier, w, customerId, v, types);
      cs, r := Detour(tier, customerId, types, v), "second";
    }
  }

  // ---- Getting past document collection ----

  /** Any tier whose configuration is safe can get a request past document collection: a second initiation takes up the documents. */
  lemma EveryTierCanLeaveCollection(provider: Provider, tier: Risk.Tier, w: World, customerId: string)
    returns (cs: seq<Command>, r: string)
    requires Untouched(w) && customerId in w.customers && Opens(provider, w, Initiate(customerId, tier, ""))
    requires !CanThrow(provider, tier)
    ensures FeasibleRun(provider, w, cs) && GotPast(PerformAll(provider, w, cs), r, tier)
  {
    var v := Prompt(provider, tier);
    cs, r := SomeRunLeads(provider, tier, w, customerId, v);
  }

  lemma Prompt(provider: Provider, tier: Risk.Tier) returns (v: Vendors)
    requires !CanThrow(provider, tier)
    ensures ServesTier(provider, tier, v) && PassFor(provider(tier), v).Ok?
  {
    var vendor, completion := VendorSteps.SomeServe(provider(tier).steps, provider(tier).context);
    v := Vendors(vendor, completion);
    SafePass(provider, tier, v);
  }

  /** The same restricted to runs that initiate each customer once and send documents for its own request. */
  ghost predicate LeavesInitiatedOnce(provider: Provider, tier: Risk.Tier, w: World) {
    exists cs, r :: FeasibleRun(provider, w, cs) && ConsiderateRun(provider, w, cs) && GotPast(PerformAll(provider, w, cs), r, tier)
  }

  lemma SmallSetWithin(s: set<string>) returns (t: string)
    requires |s| <= 1
    ensures s <= {t}
  {
    t := "";
    if x :| x in s {
      t := x;
      assert |s - {x}| == 0;
    }
  }

  lemma DirectIsConsiderate(provider: Provider, tier: Risk.Tier, w: World, customerId: string, v: Vendors, documentType: string)
    requires Untouched(w) && Ready(provider, tier, w, customerId, v)
    ensures ConsiderateRun(provider, w, Direct(tier, customerId, documentType, v))
  {
    var a, b := Initiate(customerId, tier, "first"), UploadDocument("first", customerId, documentType, true, v, "timer", 0);
    assert Direct(tier, customerId, documentType, v) == [a, b];
    assert [a, b][1..] == [b] && [b][1..] == [];
    InitiateCases(provider, w, a);
    var w' := Perform(provider, w, a).0;
    hide Perform, PassFor;
    assert Considerate(w, a) && Considerate(w', b);
    assert ConsiderateRun(provider, Perform(provider, w', b).0, []);
    assert ConsiderateRun(provider, w', [b]);
  }

  /** If every customer were initiated once and got its own documents only, a tier would get a request past collection exactly with at most one mandatory type. */
  lemma LeavesInitiatedOnceIff(provider: Provider, tier: Risk.Tier, w: World, customerId: string)
    requires Untouched(w) && customerId in w.customers && Opens(provider, w, Initiate(customerId, tier, ""))
    requires !CanThrow(provider, tier)
    ensures LeavesInitiatedOnce(provider, tier, w) <==> |MandatoryTypes(provider(tier))| <= 1
  {
    if |MandatoryTypes(provider(tier))| <= 1 {
      var v := Prompt(provider, tier);
      var documentType := SmallSetWithin(MandatoryTypes(provider(tier)));
      DirectLeads(provider, tier, w, customerId, v, documentType);
      DirectIsConsiderate(provider, tier, w, customerId, v, documentType);
      hide PerformAll, ConsiderateRun, FeasibleRun, Direct, PassFor;
      assert GotPast(PerformAll(provider, w, Direct(tier, customerId, documentType, v)), "first", tier);
    } else if LeavesInitiatedOnce(provider, tier, w) {
      var cs, r :| FeasibleRun(provider, w, cs) && ConsiderateRun(provider, w, cs) && GotPast(PerformAll(provider, w, cs), r, tier);
      StuckIfInitiatedOnce(provider, w, cs);
    }
  }

  // ---- Being verified ----

  /** Some run of a fresh service, whatever its clients answer, ends with a verified request of the tier. */
  ghost predicate CanBeVerified(provider: Provider, tier: Risk.Tier, w: World) {
    exists cs, r :: FeasibleRun(provider, w, cs) && VerifiedIn(PerformAll(provider, w, cs), r, tier)
  }

  predicate VerifiedIn(w: World, r: string, tier: Risk.Tier) {
    IsVerified(w, r) && w.requests[r].tier == tier
  }

  lemma VerifiedNeedsEnd(provider: Provider, tier: Risk.Tier, w: World, cs: seq<Command>, r: string)
    requires Untouched(w) && FeasibleRun(provider, w, cs) && VerifiedIn(PerformAll(provider, w, cs), r, tier)
    ensures CanEnd(provider, tier)
  {
    var k := VerifiedWasEarned(provider, w, cs, r);
    FeasibleAt(provider, w, cs, k);
    hide PerformAll, FeasibleRun, ServesTier, PassFor, RanToTheEnd, CanEnd;
    CarriedMeansEnd(provider, tier, cs[k], r);
  }

  /** Every call of a feasible run is feasible when it is made. */
  lemma FeasibleAt(provider: Provider, w: World, cs: seq<Command>, k: nat)
    requires FeasibleRun(provider, w, cs) && k < |cs|
    ensures Feasible(provider, PerformAll(provider, w, cs[..k]), cs[k])
  {
    assert cs == cs[..k] + cs[k..];
    hide Feasible, Perform, PerformAll;
    FeasibleConcat(provider, w, cs[..k], cs[k..]);
    assert cs[k..][0] == cs[k];
  }

  lemma CarriedMeansEnd(provider: Provider, tier: Risk.Tier, c: Command, r: string)
    requires Carried(provider(tier), r, c) && ServesTier(provider, tier, c.vendors)
    ensures CanEnd(provider, tier)
  {
    var config := provider(tier);
    EndsSuccessfully(config, c.vendors);
    hide RanToTheEnd;
    VendorSteps.ServedPassMeansWalk(WorkflowReach.RunsToTheEnd, config.steps, config.context, c.vendors.vendor, c.vendors.completion);
  }

  lemma EndsSuccessfully(config: WorkflowConfig, v: Vendors)
    requires PassFor(config, v).Ok? && RanToTheEnd(config, PassFor(config, v).value)
    ensures WorkflowReach.Came(WorkflowReach.RunsToTheEnd, PassFor(config, v))
  {
    WorkflowAccounting.EngineAccounting(config.steps, map[], v.vendor, v.completion);
    WorkflowPlan.SortIsSort(config.steps);
    assert |WorkflowPlan.SortByOrder(config.steps)| == |multiset(config.steps)|;
    hide WorkflowEngine.Execute, WorkflowEngine.FinalPass;
  }

  /** A tier can ever have a verified request exactly when its workflow can run to the end in the context it is given. */
  lemma CanBeVerifiedIff(provider: Provider, tier: Risk.Tier, w: World, customerId: string)
    requires Untouched(w) && customerId in w.customers && Opens(provider, w, Initiate(customerId, tier, ""))
    requires WorkflowReach.DistinctOrders(provider(tier).steps)
    ensures CanBeVerified(provider, tier, w) <==> CanEnd(provider, tier)
  {
    if cs, r :| FeasibleRun(provider, w, cs) && VerifiedIn(PerformAll(provider, w, cs), r, tier) {
      VerifiedNeedsEnd(provider, tier, w, cs, r);
    }
    if CanEnd(provider, tier) {
      var vendor, completion := VendorSteps.WalkMeansServedPass(WorkflowReach.RunsToTheEnd, provider(tier).steps, provider(tier).context);
      var v := Vendors(vendor, completion);
      EndedWithoutWait(provider(tier), v);
      var cs, r := SomeRunLeads(provider, tier, w, customerId, v);
      assert VerifiedIn(PerformAll(provider, w, cs), r, tier);
    }
  }
}
