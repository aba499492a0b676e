/** What a pass does with one step, in the terms of its guard, its vendor's answer and the flags. */
module WorkflowSteps {
  import opened Common
  import opened WorkflowPlan
  import opened WorkflowEngine
  import opened WorkflowConfluence
  import opened WorkflowReach

  /** The pass executes its next group: it is still live, and every guard of the group is known. */
  predicate Executes(w: Setting, flags: Flags, k: nat)
    requires k < |w.groups|
  {
    Live(After(w, flags, k)) && GuardError(w.groups[k], After(w, flags, k).flags) == None
  }

  lemma ExecutedGroup(w: Setting, flags: Flags, k: nat)
    requires k < |w.groups| && Executes(w, flags, k)
    ensures var p, next := After(w, flags, k), After(w, flags, k + 1);
            && next.results == p.results + Results(w.groups[k], p.flags, w.vendor)
            && next.calls == p.calls + VendorCalls(w.groups[k], p.flags)
            && next.flags == Complete(w.groups[k], p.flags, w.vendor, w.completion(k))
  {
    hide Results, VendorCalls, Complete, GuardError, HaltsManually, Awaits, SomeFailed;
  }

  /**
   What an executed step reports: skipped if its guard is false, or as a manual
   step already approved; succeeded unless its vendor threw or said no; waiting
   if it is asynchronous and its vendor said so.
   */
  lemma StepReport(w: Setting, flags: Flags, k: nat, i: nat)
    requires k < |w.groups| && Executes(w, flags, k) && i < |w.groups[k]|
    ensures var (p, s) := (After(w, flags, k), w.groups[k][i]);
            var next := After(w, flags, k + 1);
            |next.results| == |p.results| + |w.groups[k]| &&
            var r, answer := next.results[|p.results| + i], w.vendor(s);
            var runs, approved := EvaluateGuard(s.guardExpression, p.flags) == Ok(true), APPROVED in p.flags && p.flags[APPROVED];
            && r.stepName == s.stepName && r.isManualStep == s.isManualStep
            && (r.skipped <==> !runs || (s.isManualStep && approved))
            && (r.succeeded <==> !runs || s.isManualStep || (answer.Returned? && answer.success))
            && (r.awaitingCallback <==> runs && !s.isManualStep && s.isAsync && answer.Returned? && answer.awaitingCallback)
            && r.outcome == (if runs && !s.isManualStep then Some(answer) else None)
            && r.vendorType == (if runs && s.isManualStep then None else s.vendorType)
  {
    ExecutedGroup(w, flags, k);
    var p, s := After(w, flags, k), w.groups[k][i];
    assert After(w, flags, k + 1).results[|p.results| + i] == ResultOf(s, p.flags, w.vendor);
    hide After, Results, EvaluateGuard, GuardError;
  }

  lemma {:induction false} CallsAreFilter(group: seq<WorkflowStep>, flags: Flags, s: WorkflowStep)
    ensures s in VendorCalls(group, flags) <==> s in group && EvaluateGuard(s.guardExpression, flags) == Ok(true) && !s.isManualStep
  {
    hide EvaluateGuard;
    if group != [] {
      CallsAreFilter(group[..|group| - 1], flags, s);
      assert group == group[..|group| - 1] + [Last(group)];
    }
  }

  /** A vendor is called for an executed step exactly when its guard is true and it is not a human's task. */
  lemma CallIff(w: Setting, flags: Flags, k: nat, i: nat)
    requires k < |w.groups| && Executes(w, flags, k) && i < |w.groups[k]|
    ensures var p, next, s := After(w, flags, k), After(w, flags, k + 1), w.groups[k][i];
            |p.calls| <= |next.calls| && next.calls[..|p.calls|] == p.calls &&
            (s in next.calls[|p.calls|..] <==> EvaluateGuard(s.guardExpression, p.flags) == Ok(true) && !s.isManualStep)
  {
    ExecutedGroup(w, flags, k);
    CallsAreFilter(w.groups[k], After(w, flags, k).flags, w.groups[k][i]);
    hide After, VendorCalls, EvaluateGuard;
  }

  lemma {:induction false} ApprovalStands(w: Setting, flags: Flags, k: nat)
    requires k <= |w.groups| && APPROVED in flags
    ensures APPROVED in After(w, flags, k).flags && After(w, flags, k).flags[APPROVED] == flags[APPROVED]
  {
    if k > 0 {
      ApprovalStands(w, flags, k - 1);
      var p := After(w, flags, k - 1);
      CompletionShape(w.groups[k - 1], p.flags, w.vendor, w.completion(k - 1));
      hide Complete, Results, VendorCalls, GuardError, HaltsManually, Awaits, SomeFailed;
    }
  }

  /**
   A vendor step behind `complianceApproved`, in a pass that was told about the
   approval: it is called exactly if the approval was given. So a pass resumed
   after the approval does call it.
   */
  lemma ApprovedStepIsCalledIff(w: Setting, flags: Flags, k: nat, i: nat)
    requires k < |w.groups| && Executes(w, flags, k) && i < |w.groups[k]|
    requires "complianceApproved" in flags
    requires w.groups[k][i].guardExpression == Some("complianceApproved") && !w.groups[k][i].isManualStep
    ensures var p, next, s := After(w, flags, k), After(w, flags, k + 1), w.groups[k][i];
            |p.calls| <= |next.calls| && (s in next.calls[|p.calls|..] <==> flags["complianceApproved"])
  {
    ApprovalStands(w, flags, k);
    GuardValue("", "complianceApproved", "", After(w, flags, k).flags);
    assert "" + "complianceApproved" + "" == "complianceApproved";
    CallIff(w, flags, k, i);
    hide After, EvaluateGuard, Executes;
  }

  /** A group's only registry search is what writes the flag: found or not if it succeeded, untouched otherwise. */
  lemma FlagAfterSearch(group: seq<WorkflowStep>, flags: Flags, vendor: Vendor, order: seq<nat>, i: nat)
    requires IsOrder(order, |group|) && i < |group| && group[i].stepName == "ckyc-search" && !group[i].isManualStep
    requires forall j :: 0 <= j < |group| && j != i ==> group[j].stepName != "ckyc-search"
    ensures var answer := vendor(group[i]);
            Complete(group, flags, vendor, order) ==
            if EvaluateGuard(group[i].guardExpression, flags) == Ok(true) && answer.Returned? && answer.success
            then flags["ckycRecordFound" := answer.source == Some("CKYC_EXISTING_RECORD")] else flags
  {
    hide EvaluateGuard;
    CompleteWhenAgreed(group, flags, vendor, order);
    assert i in order;
    assert IsHit(group, flags, vendor, i)
        == (EvaluateGuard(group[i].guardExpression, flags) == Ok(true) && vendor(group[i]).Returned? && vendor(group[i]).success);
    hide Complete, IsOrder;
  }

  /** Once a pass waits for somebody, later groups are only reported: skipped, not succeeded, nothing called, nothing learnt. */
  lemma HeldBackReport(w: Setting, flags: Flags, k: nat)
    requires k < |w.groups|
    requires var p := After(w, flags, k);
             p.guardError == None && p.succeeded && (p.awaitingManual || p.awaitingCallback)
    ensures var p, next := After(w, flags, k), After(w, flags, k + 1);
            && next.calls == p.calls && next.flags == p.flags && |next.results| == |p.results| + |w.groups[k]|
            && next.results[..|p.results|] == p.results
            && forall i :: 0 <= i < |w.groups[k]| ==>
                 next.results[|p.results| + i] == StepResult(w.groups[k][i].stepName, w.groups[k][i].vendorType, false, true, w.groups[k][i].isManualStep, false, None)
  {
    hide Results, VendorCalls, Complete, GuardError, HaltsManually, Awaits, SomeFailed;
    var p, next := After(w, flags, k), After(w, flags, k + 1);
    assert next.results == p.results + AllHeldBack(w.groups[k]);
    hide After, ExecuteGroup;
  }
}
