/** What requests come to: which records are never changed again, and what stands behind a verified one. */
module UseCaseOutcomes {
  import opened Common
  import opened VerificationStateMachine
  import opened UseCases
  import opened UseCaseInvariants
  import WorkflowPlan
  import WorkflowEngine
  import WorkflowAccounting
  import WorkflowReach
  import VendorSteps
  import Risk
  import Timers

  // ---- Runs in parts ----

  lemma {:induction false} PerformAllConcat(provider: Provider, w: World, a: seq<Command>, b: seq<Command>)
    ensures PerformAll(provider, w, a + b) == PerformAll(provider, PerformAll(provider, w, a), b)
    decreases a
  {
    hide Perform;
    if a == [] {
      assert a + b == b;
    } else {
      assert (a + b)[1..] == a[1..] + b;
      PerformAllConcat(provider, Perform(provider, w, a[0]).0, a[1..], b);
    }
  }

  lemma OneCall(provider: Provider, w: World, c: Command)
    ensures PerformAll(provider, w, [c]) == Perform(provider, w, c).0
  {
    hide Perform;
    assert [c][1..] == [];
    assert PerformAll(provider, Perform(provider, w, c).0, []) == Perform(provider, w, c).0;
  }

  lemma PerformAllSnoc(provider: Provider, w: World, cs: seq<Command>, c: Command)
    ensures PerformAll(provider, w, cs + [c]) == Perform(provider, PerformAll(provider, w, cs), c).0
  {
    PerformAllConcat(provider, w, cs, [c]);
    OneCall(provider, PerformAll(provider, w, cs), c);
  }

  lemma {:induction false} FeasibleConcat(provider: Provider, w: World, a: seq<Command>, b: seq<Command>)
    ensures FeasibleRun(provider, w, a + b) <==> FeasibleRun(provider, w, a) && FeasibleRun(provider, PerformAll(provider, w, a), b)
    decreases a
  {
    hide Perform, Feasible;
    if a == [] {
      assert a + b == b;
    } else {
      assert (a + b)[1..] == a[1..] + b;
      FeasibleConcat(provider, Perform(provider, w, a[0]).0, a[1..], b);
    }
  }

  // ---- Statuses that are never left ----

  /** The call does not open a request under the given id. */
  predicate OpensOther(c: Command, r: string) {
    c.Initiate? ==> c.requestId != r
  }

  /** A saved request changes only while it waits for documents or for a callback. */
  lemma OnlyWaitingRequestsMove(provider: Provider, w: World, c: Command, r: string)
    requires r in w.requests && OpensOther(c, r)
    ensures var w' := Perform(provider, w, c).0;
            r in w'.requests && (w'.requests[r] == w.requests[r] || w.requests[r].status in {DocumentsPending, CallbackAwaited})
  {
    hide PassFor;
    match c
    case Initiate(_, _, _) =>
    case UploadDocument(_, _, _, _, _, _, _) =>
      if c.requestId in w.requests && c.customerId in w.customers && c.stored {
        UploadCases(provider, w, c);
      }
    case ProcessWebhook(_, _, _, _) =>
      if c.requestId in w.requests && w.requests[c.requestId].customerId in w.customers && c.callback.Ok? && !c.callback.value.wasDuplicate {
        WebhookCases(provider, w, c);
      }
  }

  /**
   Verified, rejected and escalated requests — and those left in
   DOCUMENTS_RECEIVED — keep their record over every later run, as long as
   nobody opens a request under the same id.
   */
  lemma {:induction false} SettledForEver(provider: Provider, w: World, cs: seq<Command>, r: string)
    requires r in w.requests && w.requests[r].status !in {DocumentsPending, CallbackAwaited}
    requires forall c :: c in cs ==> OpensOther(c, r)
    ensures var w' := PerformAll(provider, w, cs);
            r in w'.requests && w'.requests[r] == w.requests[r]
    decreases cs
  {
    hide Perform;
    if cs != [] {
      assert OpensOther(cs[0], r);
      OnlyWaitingRequestsMove(provider, w, cs[0], r);
      SettledForEver(provider, Perform(provider, w, cs[0]).0, cs[1..], r);
    }
  }

  // ---- What a verified request has behind it ----

  /** Every step of the pass was reported, as succeeded, and nothing is waited for. */
  predicate RanToTheEnd(config: WorkflowConfig, result: WorkflowEngine.WorkflowResult) {
    && |result.stepResults| == |config.steps| && (forall i :: 0 <= i < |result.stepResults| ==> result.stepResults[i].succeeded)
    && !result.awaitingManualStep && !result.awaitingCallback
  }

  /** The call was about the request, and its vendors carried the workflow to the end. */
  predicate Carried(config: WorkflowConfig, r: string, c: Command) {
    !c.Initiate? && c.requestId == r && PassFor(config, c.vendors).Ok? && RanToTheEnd(config, PassFor(config, c.vendors).value)
  }

  predicate IsVerified(w: World, r: string) {
    r in w.requests && w.requests[r].status == Verified
  }

  lemma AllSucceeded(config: WorkflowConfig, v: Vendors)
    requires PassFor(config, v).Ok? && PassFor(config, v).value.allStepsSucceeded
    ensures RanToTheEnd(config, PassFor(config, v).value)
  {
    WorkflowAccounting.EngineAccounting(config.steps, map[], v.vendor, v.completion);
    WorkflowPlan.SortIsSort(config.steps);
    hide WorkflowEngine.Execute, WorkflowEngine.FinalPass;
    assert |WorkflowPlan.SortByOrder(config.steps)| == |multiset(config.steps)|;
  }

  lemma VerifiedByUpload(provider: Provider, w: World, c: Command, r: string)
    requires c.UploadDocument? && IsVerified(Perform(provider, w, c).0, r)
    ensures r in w.requests && Perform(provider, w, c).0.requests[r].tier == w.requests[r].tier
    ensures IsVerified(w, r) || Carried(provider(w.requests[r].tier), r, c)
  {
    hide PassFor, TimersAfterPass;
    if c.requestId in w.requests && c.customerId in w.customers && c.stored {
      UploadCases(provider, w, c);
      hide Perform, PerformUpload, RanToTheEnd, MandatoryTypes;
      var pass := PassFor(provider(w.requests[c.requestId].tier), c.vendors);
      if pass.Ok? && pass.value.allStepsSucceeded {
        AllSucceeded(provider(w.requests[c.requestId].tier), c.vendors);
      }
    }
  }

  lemma VerifiedByWebhook(provider: Provider, w: World, c: Command, r: string)
    requires c.ProcessWebhook? && IsVerified(Perform(provider, w, c).0, r)
    ensures r in w.requests && Perform(provider, w, c).0.requests[r].tier == w.requests[r].tier
    ensures IsVerified(w, r) || Carried(provider(w.requests[r].tier), r, c)
  {
    hide PassFor;
    if c.requestId in w.requests && w.requests[c.requestId].customerId in w.customers && c.callback.Ok? && !c.callback.value.wasDuplicate {
      WebhookCases(provider, w, c);
      hide Perform, PerformWebhook, RanToTheEnd;
      var pass := PassFor(provider(w.requests[c.requestId].tier), c.vendors);
      if pass.Ok? && pass.value.allStepsSucceeded {
        AllSucceeded(provider(w.requests[c.requestId].tier), c.vendors);
      }
    }
  }

  lemma VerifiedNow(provider: Provider, w: World, c: Command, r: string)
    requires IsVerified(Perform(provider, w, c).0, r)
    ensures r in w.requests && Perform(provider, w, c).0.requests[r].tier == w.requests[r].tier
    ensures IsVerified(w, r) || Carried(provider(w.requests[r].tier), r, c)
  {
    match c
    case Initiate(_, _, _) => InitiateCases(provider, w, c);
    case UploadDocument(_, _, _, _, _, _, _) => VerifiedByUpload(provider, w, c, r);
    case ProcessWebhook(_, _, _, _) => VerifiedByWebhook(provider, w, c, r);
  }

  /** Over every run whatsoever: a request that ends up verified was carried through its whole workflow by one single call. */
  lemma {:induction false} VerifiedWasEarned(provider: Provider, w: World, cs: seq<Command>, r: string) returns (k: nat)
    requires !IsVerified(w, r) && IsVerified(PerformAll(provider, w, cs), r)
    ensures k < |cs|
    ensures var (then', now) := (PerformAll(provider, w, cs[..k]), PerformAll(provider, w, cs));
            r in then'.requests && then'.requests[r].tier == now.requests[r].tier && Carried(provider(now.requests[r].tier), r, cs[k])
    decreases |cs|
  {
    hide Perform, Carried;
    var front, c := cs[..|cs| - 1], cs[|cs| - 1];
    assert cs == front + [c];
    PerformAllSnoc(provider, w, front, c);
    VerifiedNow(provider, PerformAll(provider, w, front), c, r);
    if IsVerified(PerformAll(provider, w, front), r) {
      k := VerifiedWasEarned(provider, w, front, r);
      assert cs[..k] == front[..k];
    } else {
      k := |front|;
    }
  }

  // ---- What a call leaves behind ----

  /** The requested documents that must be there are, counting the one just sent. */
  predicate Covered(config: WorkflowConfig, documents: set<string>, documentType: string) {
    forall d :: d in config.requiredDocuments && d.mandatory ==> d.documentType in documents || d.documentType == documentType
  }

  lemma CoveredMeansMandatory(config: WorkflowConfig, documents: set<string>, documentType: string)
    ensures Covered(config, documents, documentType) <==> MandatoryTypes(config) <= documents + {documentType}
  {
    if Covered(config, documents, documentType) {
      forall t | t in MandatoryTypes(config) ensures t in documents + {documentType} {
        var d :| d in config.requiredDocuments && d.mandatory && d.documentType == t;
      }
    } else {
      var d :| d in config.requiredDocuments && d.mandatory && !(d.documentType in documents || d.documentType == documentType);
      assert d.documentType in MandatoryTypes(config);
    }
  }

  /** Request and customer after a call: the status on both, the completion time exactly with VERIFIED or REJECTED, all else as it was. */
  predicate Settled(w: World, w': World, r: string, customerId: string, status: Status, now: int)
    requires r in w.requests && customerId in w.customers
  {
    && w'.requests == w.requests[r := Request(w.requests[r].customerId, w.requests[r].tier, status,
                                              if status == Verified || status == Rejected then Some(now) else w.requests[r].completedAt)]
    && w'.customers == w.customers[customerId := CustomerRecord(w.customers[customerId].tier, status)]
  }

  /**
   An upload to a request that waits for documents, case by case. A pass that
   waits for a vendor leaves a 72-hour timer; waiting for a vendor comes before
   waiting for a person, and that before success and failure.
   */
  lemma UploadDecides(provider: Provider, w: World, c: Command)
    requires c.UploadDocument? && c.requestId in w.requests && c.customerId in w.customers && c.stored
    requires w.requests[c.requestId].status == DocumentsPending && !Timers.HasId(w.timers, c.timerId)
    ensures var config, (w', answer) := provider(w.requests[c.requestId].tier), Perform(provider, w, c);
            var pass := PassFor(config, c.vendors);
            if !Covered(config, DocumentsOf(w, c.customerId), c.documentType) then
              && answer == Ok(Some(DocumentsReceived)) && w'.timers == w.timers
              && Settled(w, w', c.requestId, c.customerId, DocumentsReceived, c.now)
            else if pass.Err? then
              answer == Err(UnknownFlag(pass.error)) && w'.requests == w.requests && w'.customers == w.customers && w'.timers == w.timers
            else
              var r := pass.value;
              var status := if r.awaitingCallback then CallbackAwaited else if r.awaitingManualStep then Escalated
                            else if r.allStepsSucceeded then Verified else Rejected;
              && answer == Ok(Some(status)) && Settled(w, w', c.requestId, c.customerId, status, c.now)
              && w'.timers == w.timers + (if !r.awaitingCallback then []
                                          else [Timers.Timer(c.timerId, c.customerId, Some(c.requestId), Timers.VendorCallbackTimeout,
                                                             c.now + 72 * 60 * 60 * 1000, None, None, c.now)])
  {
    var config := provider(w.requests[c.requestId].tier);
    CoveredMeansMandatory(config, DocumentsOf(w, c.customerId), c.documentType);
    hide PassFor, MandatoryTypes, Covered;
    UploadCases(provider, w, c);
    hide Perform;
  }

  /** A genuine, new callback for a waiting request, case by case; its own vendors' waiting no longer counts. */
  lemma WebhookDecides(provider: Provider, w: World, c: Command)
    requires c.ProcessWebhook? && Answers(w, c)
    ensures var request, (w', answer) := w.requests[c.requestId], Perform(provider, w, c);
            var pass := PassFor(provider(request.tier), c.vendors);
            if c.callback.value.success && pass.Err? then
              answer == Err(UnknownFlag(pass.error)) && w'.requests == w.requests && w'.customers == w.customers
            else
              var status := if !c.callback.value.success then Rejected
                            else if pass.value.awaitingManualStep then Escalated
                            else if pass.value.allStepsSucceeded then Verified else Rejected;
              answer == Ok(Some(status)) && Settled(w, w', c.requestId, request.customerId, status, c.now)
    ensures var (w', request) := (Perform(provider, w, c).0, w.requests[c.requestId]);
            && |w'.timers| == |w.timers|
            && forall i :: 0 <= i < |w.timers| ==>
                 w'.timers[i] == if w.timers[i].customerId == request.customerId && w.timers[i].timerType == Timers.VendorCallbackTimeout
                                    && w.timers[i].firedAt == None && w.timers[i].cancelledAt == None
                                 then w.timers[i].(cancelledAt := Some(c.now)) else w.timers[i]
  {
    WebhookCases(provider, w, c);
    Timers.AllCancelledAt(w.timers, w.requests[c.requestId].customerId, Timers.VendorCallbackTimeout, c.now);
    hide PassFor, Perform, Timers.AllCancelled;
  }

  // ---- When a request was completed ----

  predicate IsCompleted(w: World, r: string) {
    r in w.requests && (w.requests[r].status == Verified || w.requests[r].status == Rejected)
  }

  /** A call that leaves a request short of completion leaves its completion time alone. */
  lemma CompletionUntouched(provider: Provider, w: World, c: Command, r: string)
    requires r in w.requests && OpensOther(c, r) && !IsCompleted(Perform(provider, w, c).0, r)
    ensures r in Perform(provider, w, c).0.requests && Perform(provider, w, c).0.requests[r].completedAt == w.requests[r].completedAt
  {
    hide PassFor, TimersAfterPass, MandatoryTypes;
    match c
    case Initiate(_, _, _) => InitiateCases(provider, w, c);
    case UploadDocument(_, _, _, _, _, _, _) =>
      if c.requestId in w.requests && c.customerId in w.customers && c.stored {
        UploadCases(provider, w, c);
        hide Perform, PerformUpload;
      }
    case ProcessWebhook(_, _, _, _) =>
      if c.requestId in w.requests && w.requests[c.requestId].customerId in w.customers && c.callback.Ok? && !c.callback.value.wasDuplicate {
        WebhookCases(provider, w, c);
        hide Perform, PerformWebhook;
      }
  }

  lemma CompletedByUpload(provider: Provider, w: World, c: Command, r: string)
    requires c.UploadDocument? && IsCompleted(Perform(provider, w, c).0, r)
    ensures var w' := Perform(provider, w, c).0;
            (IsCompleted(w, r) && w'.requests[r] == w.requests[r])
            || (c.requestId == r && r in w.requests && !IsCompleted(w, r) && w'.requests[r].completedAt == Some(c.now))
  {
    hide PassFor, TimersAfterPass, MandatoryTypes;
    if c.requestId in w.requests && c.customerId in w.customers && c.stored {
      UploadCases(provider, w, c);
      hide Perform, PerformUpload;
    }
  }

  lemma CompletedByWebhook(provider: Provider, w: World, c: Command, r: string)
    requires c.ProcessWebhook? && IsCompleted(Perform(provider, w, c).0, r)
    ensures var w' := Perform(provider, w, c).0;
            (IsCompleted(w, r) && w'.requests[r] == w.requests[r])
            || (c.requestId == r && r in w.requests && !IsCompleted(w, r) && w'.requests[r].completedAt == Some(c.now))
  {
    hide PassFor;
    if c.requestId in w.requests && w.requests[c.requestId].customerId in w.customers && c.callback.Ok? && !c.callback.value.wasDuplicate {
      WebhookCases(provider, w, c);
      hide Perform, PerformWebhook;
    }
  }

  /** The time a completed request carries is the time of the call that completed it — over every run whatsoever. */
  lemma {:induction false} CompletionTime(provider: Provider, w: World, cs: seq<Command>, r: string) returns (k: nat)
    requires !IsCompleted(w, r) && IsCompleted(PerformAll(provider, w, cs), r)
    ensures k < |cs| && !cs[k].Initiate? && cs[k].requestId == r
    ensures !IsCompleted(PerformAll(provider, w, cs[..k]), r) && IsCompleted(PerformAll(provider, w, cs[..k + 1]), r)
    ensures PerformAll(provider, w, cs).requests[r].completedAt == Some(cs[k].now)
    decreases |cs|
  {
    hide Perform;
    var front, c := cs[..|cs| - 1], cs[|cs| - 1];
    var before := PerformAll(provider, w, front);
    assert cs == front + [c];
    PerformAllSnoc(provider, w, front, c);
    match c {
      case Initiate(_, _, _) => InitiateCases(provider, before, c);
      case UploadDocument(_, _, _, _, _, _, _) => CompletedByUpload(provider, before, c, r);
      case ProcessWebhook(_, _, _, _) => CompletedByWebhook(provider, before, c, r);
    }
    if IsCompleted(before, r) {
      k := CompletionTime(provider, w, front, r);
      assert cs[..k] == front[..k] && cs[..k + 1] == front[..k + 1];
    } else {
      k := |front|;
      assert cs[..k + 1] == cs;
    }
  }

  // ---- What a webhook can decide ----

  /** The tier's workflow can come to its end, in the context in which it is executed. */
  predicate CanEnd(provider: Provider, tier: Risk.Tier) {
    VendorSteps.CanRunToTheEnd(GroupsOf(provider, tier), provider(tier).context)
  }

  /**
   A webhook runs the whole workflow again from empty flags. Some answers of
   the clients verify the waiting request exactly when the workflow can run to
   the end at all in its context — never for one with an unguarded asynchronous
   step, which waits a second time and is then read as failed.
   */
  lemma WebhookCanVerifyIff(provider: Provider, w: World, c: Command)
    requires c.ProcessWebhook? && Answers(w, c) && c.callback.value.success
    requires WorkflowReach.DistinctOrders(provider(w.requests[c.requestId].tier).steps)
    ensures (exists v :: Serves(provider, w, c.requestId, v) && Perform(provider, w, Served(c, v)).1 == Ok(Some(Verified)))
            <==> CanEnd(provider, w.requests[c.requestId].tier)
  {
    var tier := w.requests[c.requestId].tier;
    var config := provider(tier);
    forall v ensures Perform(provider, w, Served(c, v)).1 == Ok(Some(Verified)) <==> WorkflowReach.Came(WorkflowReach.RunsToTheEnd, PassFor(config, v)) {
      WebhookCases(provider, w, Served(c, v));
      EndedWithoutWait(config, v);
    }
    hide Perform;
    if v :| Serves(provider, w, c.requestId, v) && Perform(provider, w, Served(c, v)).1 == Ok(Some(Verified)) {
      VendorSteps.ServedPassMeansWalk(WorkflowReach.RunsToTheEnd, config.steps, config.context, v.vendor, v.completion);
    }
    if CanEnd(provider, tier) {
      var vendor, completion := VendorSteps.WalkMeansServedPass(WorkflowReach.RunsToTheEnd, config.steps, config.context);
      assert Serves(provider, w, c.requestId, Vendors(vendor, completion));
    }
  }

  lemma EndedWithoutWait(config: WorkflowConfig, v: Vendors)
    ensures var pass := PassFor(config, v);
            pass.Ok? && pass.value.allStepsSucceeded ==> !pass.value.awaitingManualStep && !pass.value.awaitingCallback
  {
    hide WorkflowEngine.FinalPass;
  }
}
