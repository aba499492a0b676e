/** The three shipped configurations, in whatever context they are executed. */
module UseCaseShipped {
  import opened Common
  import opened UseCases
  import opened UseCaseInvariants
  import opened UseCaseOutcomes
  import opened UseCaseCollection
  import opened UseCaseReach
  import opened VendorSteps
  import WorkflowReach
  import WorkflowGuards
  import Risk

  type Contexts = Risk.Tier -> Context

  function Mandatory(types: seq<string>): seq<RequiredDocument> {
    seq(|types|, i requires 0 <= i < |types| => RequiredDocument(types[i], true))
  }

  const MINIMUM_TYPES: seq<string> := ["AADHAAR"]
  const FULL_TYPES: seq<string> := ["PAN", "AADHAAR", "ADDRESS_PROOF"]
  const EDD_TYPES: seq<string> := ["PAN", "AADHAAR", "ADDRESS_PROOF", "INCOME_PROOF"]

  function TypesOf(tier: Risk.Tier): seq<string> {
    match tier case Minimum => MINIMUM_TYPES case Full => FULL_TYPES case Edd => EDD_TYPES
  }

  function ShippedConfig(tier: Risk.Tier, ctx: Context): WorkflowConfig {
    match tier
    case Minimum => WorkflowConfig(Mandatory(MINIMUM_TYPES), WorkflowGuards.MINIMUM_STEPS, 5, ctx)
    case Full => WorkflowConfig(Mandatory(FULL_TYPES), WorkflowGuards.FULL_STEPS, 30, ctx)
    case Edd => WorkflowConfig(Mandatory(EDD_TYPES), WorkflowGuards.EDD_STEPS, 2880, ctx)
  }

  function Shipped(contexts: Contexts): Provider {
    (tier: Risk.Tier) => ShippedConfig(tier, contexts(tier))
  }

  /**
   The fields a tier's adapters need: MINIMUM the document type, the full name
   and the date of birth; FULL the PAN, the full name and the date of birth.
   For EDD no context is enough.
   */
  predicate Supplies(tier: Risk.Tier, ctx: Context) {
    match tier
    case Minimum => ctx.documentType.Some? && ctx.documentType.value != "" && HasText(ctx.metadata, "fullName") && HasText(ctx.metadata, "dateOfBirth")
    case Full => HasText(ctx.metadata, "panNumber") && HasText(ctx.metadata, "fullName") && HasText(ctx.metadata, "dateOfBirth")
    case Edd => false
  }

  lemma ShippedTypes(tier: Risk.Tier, ctx: Context)
    ensures MandatoryTypes(ShippedConfig(tier, ctx)) == AsSet(TypesOf(tier))
  {
    var documents, types := ShippedConfig(tier, ctx).requiredDocuments, TypesOf(tier);
    assert forall d :: d in documents ==> d.mandatory;
    forall t | t in types ensures t in MandatoryTypes(ShippedConfig(tier, ctx)) {
      var i :| 0 <= i < |types| && types[i] == t;
      assert documents[i].documentType == t;
    }
  }

  lemma ShippedSteps(contexts: Contexts, tier: Risk.Tier)
    ensures WorkflowReach.DistinctOrders(Shipped(contexts)(tier).steps)
    ensures !CanThrow(Shipped(contexts), tier)
    ensures CanEnd(Shipped(contexts), tier) <==> Supplies(tier, contexts(tier))
  {
    assert |WorkflowGuards.MINIMUM_STEPS| == 2 && |WorkflowGuards.FULL_STEPS| == 4 && |WorkflowGuards.EDD_STEPS| == 7;
    var config := ShippedConfig(tier, contexts(tier));
    assert Shipped(contexts)(tier) == config && config.context == contexts(tier);
    assert config.steps in {WorkflowGuards.MINIMUM_STEPS, WorkflowGuards.FULL_STEPS, WorkflowGuards.EDD_STEPS};
    assert Suffices(config.steps, config.context) == Supplies(tier, config.context) by {
      hide HasText;
    }
    hide HasText, WorkflowGuards.MINIMUM_STEPS, WorkflowGuards.FULL_STEPS, WorkflowGuards.EDD_STEPS, Suffices, Supplies, Shipped, ShippedConfig;
    ShippedRunToTheEnd(config.steps, config.context);
  }

  lemma ShippedCount(tier: Risk.Tier, ctx: Context)
    ensures |MandatoryTypes(ShippedConfig(tier, ctx))| <= 1 <==> tier == Risk.Minimum
  {
    ShippedTypes(tier, ctx);
    if tier == Risk.Minimum {
      assert MandatoryTypes(ShippedConfig(tier, ctx)) == {"AADHAAR"};
    } else {
      assert TypesOf(tier)[0] == "PAN" && TypesOf(tier)[1] == "AADHAAR";
      SubsetSize({"PAN", "AADHAAR"}, MandatoryTypes(ShippedConfig(tier, ctx)));
    }
  }

  /**
   A shipped tier can ever have a verified request exactly when its context
   supplies the fields above. Whatever the context, if every customer were
   initiated once, only MINIMUM requests would leave document collection.
   */
  lemma ShippedVerifiableIff(contexts: Contexts, tier: Risk.Tier, w: World, customerId: string)
    requires Untouched(w) && customerId in w.customers
    ensures CanBeVerified(Shipped(contexts), tier, w) <==> Supplies(tier, contexts(tier))
    ensures LeavesInitiatedOnce(Shipped(contexts), tier, w) <==> tier == Risk.Minimum
  {
    assert Shipped(contexts)(tier) == ShippedConfig(tier, contexts(tier));
    assert |ShippedConfig(tier, contexts(tier)).requiredDocuments| == |TypesOf(tier)| > 0;
    assert Opens(Shipped(contexts), w, Initiate(customerId, tier, ""));
    hide CanBeVerified, LeavesInitiatedOnce, ShippedConfig, Shipped, MandatoryTypes, CanThrow, CanEnd, WorkflowReach.DistinctOrders, Opens, Untouched, Supplies;
    ShippedSteps(contexts, tier);
    CanBeVerifiedIff(Shipped(contexts), tier, w, customerId);
    LeavesInitiatedOnceIff(Shipped(contexts), tier, w, customerId);
    ShippedCount(tier, contexts(tier));
  }

  /**
   The executor hands metadata through but never a document type. Whatever
   metadata it is given, only FULL requests can ever be verified, and they
   exactly with a PAN, a full name and a date of birth.
   */
  lemma MetadataVerifiesIff(metadata: Risk.Tier -> Metadata, tier: Risk.Tier, w: World, customerId: string)
    requires Untouched(w) && customerId in w.customers
    ensures CanBeVerified(Shipped((t: Risk.Tier) => ContextOf(metadata(t))), tier, w)
            <==> tier == Risk.Full && HasText(metadata(tier), "panNumber") && HasText(metadata(tier), "fullName") && HasText(metadata(tier), "dateOfBirth")
  {
    var contexts: Contexts := (t: Risk.Tier) => ContextOf(metadata(t));
    ShippedVerifiableIff(contexts, tier, w, customerId);
    assert contexts(tier) == ContextOf(metadata(tier));
    hide CanBeVerified, HasText;
  }

  lemma FullDetour(customerId: string, v: Vendors)
    ensures Detour(Risk.Full, customerId, FULL_TYPES, v)
            == [Initiate(customerId, Risk.Full, "first"),
                Document("first", customerId, "PAN", v),
                Document("first", customerId, "AADHAAR", v),
                Document("first", customerId, "ADDRESS_PROOF", v),
                Initiate(customerId, Risk.Full, "second"),
                Document("second", customerId, "PAN", v)]
  {
    assert FULL_TYPES[..1] == ["PAN"];
  }

  /** Three FULL documents under one request, two of them rejected, and the second request goes on with one. */
  lemma SecondInitiationLeavesCollection(contexts: Contexts, w: World, customerId: string, v: Vendors)
    requires Untouched(w) && customerId in w.customers && ServesTier(Shipped(contexts), Risk.Full, v)
    ensures var cs := [Initiate(customerId, Risk.Full, "first"),
                       Document("first", customerId, "PAN", v),
                       Document("first", customerId, "AADHAAR", v),
                       Document("first", customerId, "ADDRESS_PROOF", v),
                       Initiate(customerId, Risk.Full, "second"),
                       Document("second", customerId, "PAN", v)];
            FeasibleRun(Shipped(contexts), w, cs) && GotPast(PerformAll(Shipped(contexts), w, cs), "second", Risk.Full)
  {
    var shipped := Shipped(contexts);
    assert shipped(Risk.Full) == ShippedConfig(Risk.Full, contexts(Risk.Full));
    assert shipped(Risk.Full).targetCompletionMinutes > 0 && shipped(Risk.Full).requiredDocuments != [];
    hide PassFor, PerformAll, FeasibleRun, ServesTier, CanThrow, Shipped, ShippedConfig, Detour;
    ShippedSteps(contexts, Risk.Full);
    SafePass(shipped, Risk.Full, v);
    ShippedTypes(Risk.Full, contexts(Risk.Full));
    assert FULL_TYPES[0] == "PAN" && FULL_TYPES[1] == "AADHAAR";
    assert "AADHAAR" in MandatoryTypes(shipped(Risk.Full));
    hide MandatoryTypes;
    DetourLeads(shipped, Risk.Full, w, customerId, v, FULL_TYPES);
    FullDetour(customerId, v);
  }
}
