/** Which configurations can never reach a guard on a flag nobody has defined yet. */
module WorkflowGuards {
  import opened Common
  import opened WorkflowPlan
  import opened WorkflowEngine
  import opened WorkflowConfluence
  import opened WorkflowResume

  /** A step that is certain to define the flag, or to stop or halt the pass. */
  predicate Establishes(s: WorkflowStep, flag: string) {
    !IsGuarded(s.guardExpression) &&
    ((flag == CKYC_FOUND && s.stepName == "ckyc-search" && !s.isManualStep) || (flag == APPROVED && s.isManualStep))
  }

  predicate EstablishedBefore(groups: seq<seq<WorkflowStep>>, k: nat, flag: string)
    requires k <= |groups|
  {
    exists g, i :: 0 <= g < k && 0 <= i < |groups[g]| && Establishes(groups[g][i], flag)
  }

  /** Every guard names a flag that some earlier group establishes. */
  predicate GuardsEstablished(groups: seq<seq<WorkflowStep>>) {
    forall g, i :: 0 <= g < |groups| && 0 <= i < |groups[g]| && IsGuarded(groups[g][i].guardExpression) ==>
      EstablishedBefore(groups, g, FlagName(groups[g][i].guardExpression.value))
  }

  /** A live pass knows every flag established so far. */
  ghost predicate KnowsEstablished(w: Setting, p: Pass, k: nat)
    requires k <= |w.groups|
  {
    p.guardError == None &&
    (Live(p) ==> (EstablishedBefore(w.groups, k, CKYC_FOUND) ==> CKYC_FOUND in p.flags) &&
                 (EstablishedBefore(w.groups, k, APPROVED) ==> IsApproved(p.flags)))
  }

  lemma {:induction false} CompletionKeeps(group: seq<WorkflowStep>, start: Flags, vendor: Vendor, order: seq<nat>)
    ensures CKYC_FOUND in start ==> CKYC_FOUND in Complete(group, start, vendor, order)
    ensures IsApproved(Complete(group, start, vendor, order)) == IsApproved(start)
    ensures forall i :: i in order && IsHit(group, start, vendor, i) ==> CKYC_FOUND in Complete(group, start, vendor, order)
  {
    if order != [] {
      var front, last := order[..|order| - 1], Last(order);
      CompletionKeeps(group, start, vendor, front);
      assert forall i :: i in order <==> i in front || i == last;
    }
  }

  lemma NoGuardErrorInGroup(w: Setting, p: Pass, k: nat)
    requires k < |w.groups| && GuardsEstablished(w.groups) && KnowsEstablished(w, p, k) && Live(p)
    ensures GuardError(w.groups[k], p.flags) == None
  {
    NoErrorMeansNone(w.groups[k], p.flags);
    forall i | 0 <= i < |w.groups[k]| ensures EvaluateGuard(w.groups[k][i].guardExpression, p.flags).Ok? {
      var e := w.groups[k][i].guardExpression;
      if IsGuarded(e) {
        assert EstablishedBefore(w.groups, k, FlagName(e.value));
      }
    }
  }

  /** If the group establishes a flag and the pass is still live after it, the flag is known. */
  lemma GroupEstablishes(group: seq<WorkflowStep>, p: Pass, vendor: Vendor, order: seq<nat>, i: nat, flag: string)
    requires i < |group| && Establishes(group[i], flag) && IsOrder(order, |group|)
    requires Live(ExecuteGroup(p, group, vendor, order))
    ensures flag == CKYC_FOUND ==> CKYC_FOUND in Complete(group, p.flags, vendor, order)
    ensures flag == APPROVED ==> IsApproved(Complete(group, p.flags, vendor, order))
  {
    CompletionKeeps(group, p.flags, vendor, order);
    var rs := Results(group, p.flags, vendor);
    assert !HaltsManually(rs) && !SomeFailed(rs);
    assert !(rs[i].isManualStep && Ran(rs[i])) && !(Ran(rs[i]) && !rs[i].succeeded);
    assert i in order;
    if flag == CKYC_FOUND {
      assert IsHit(group, p.flags, vendor, i);
    }
  }

  lemma KnowsNext(w: Setting, p: Pass, k: nat, flag: string)
    requires k < |w.groups| && Live(p) && KnowsEstablished(w, p, k) && IsOrder(w.completion(k), |w.groups[k]|)
    requires Live(ExecuteGroup(p, w.groups[k], w.vendor, w.completion(k)))
    requires EstablishedBefore(w.groups, k + 1, flag) && flag in {CKYC_FOUND, APPROVED}
    ensures var flags := Complete(w.groups[k], p.flags, w.vendor, w.completion(k));
            (flag == CKYC_FOUND ==> CKYC_FOUND in flags) && (flag == APPROVED ==> IsApproved(flags))
  {
    var g, i :| 0 <= g < k + 1 && 0 <= i < |w.groups[g]| && Establishes(w.groups[g][i], flag);
    CompletionKeeps(w.groups[k], p.flags, w.vendor, w.completion(k));
    if g == k {
      GroupEstablishes(w.groups[k], p, w.vendor, w.completion(k), i, flag);
    } else {
      assert EstablishedBefore(w.groups, k, flag);
    }
  }

  lemma {:induction false} NeverGuardError(w: Setting, flags: Flags, k: nat)
    requires k <= |w.groups| && GuardsEstablished(w.groups) && ValidCompletion(w.completion, w.groups)
    ensures KnowsEstablished(w, After(w, flags, k), k)
  {
    if k > 0 {
      NeverGuardError(w, flags, k - 1);
      var p, group, order := After(w, flags, k - 1), w.groups[k - 1], w.completion(k - 1);
      if Live(p) {
        NoGuardErrorInGroup(w, p, k - 1);
        if Live(ExecuteGroup(p, group, w.vendor, order)) {
          if EstablishedBefore(w.groups, k, CKYC_FOUND) {
            KnowsNext(w, p, k - 1, CKYC_FOUND);
          }
          if EstablishedBefore(w.groups, k, APPROVED) {
            KnowsNext(w, p, k - 1, APPROVED);
          }
        }
        hide GuardsEstablished, EstablishedBefore, Results, Complete, GuardError, VendorCalls, ValidCompletion;
      }
    }
  }

  /** For such a configuration no vendor behaviour, no flags and no completion order make a pass fail on an unknown flag. */
  lemma NoGuardError(steps: seq<WorkflowStep>, flags: Flags, vendor: Vendor, completion: nat -> seq<nat>)
    requires GuardsEstablished(GroupSteps(SortByOrder(steps)))
    requires ValidCompletion(completion, GroupSteps(SortByOrder(steps)))
    ensures Execute(steps, flags, vendor, completion).Ok?
  {
    var w := SettingFor(steps, vendor, completion);
    NeverGuardError(w, flags, |w.groups|);
  }

  // ---- The three shipped workflows ----

  function Plain(name: string, vendor: string, order: int): WorkflowStep {
    WorkflowStep(name, Some(vendor), order, None, None, false, false)
  }

  const MINIMUM_STEPS: seq<WorkflowStep> := [
    Plain("aadhaar-otp-fetch", "DIGILOCKER", 1),
    Plain("basic-name-screen", "AML_SCREENING", 2)]

  const FULL_STEPS: seq<WorkflowStep> := [
    Plain("ckyc-search", "CKYC", 1),
    Plain("digilocker-fetch", "DIGILOCKER", 2).(parallelGroup := Some("docs"), guardExpression := Some("!ckycRecordFound")),
    Plain("full-aml-screen", "AML_SCREENING", 3),
    Plain("ckyc-upload", "CKYC", 4).(guardExpression := Some("!ckycRecordFound"))]

  const EDD_STEPS: seq<WorkflowStep> := [
    Plain("ckyc-search", "CKYC", 1),
    Plain("digilocker-fetch", "DIGILOCKER", 2).(parallelGroup := Some("docs"), guardExpression := Some("!ckycRecordFound")),
    Plain("video-kyc-session", "VIDEO_KYC", 3).(isAsync := true),
    Plain("full-aml-screen-adverse-media", "AML_SCREENING", 4),
    Plain("ongoing-monitoring-register", "AML_SCREENING", 5),
    WorkflowStep("compliance-officer-review", None, 6, None, None, false, true),
    Plain("ckyc-upload", "CKYC", 7).(guardExpression := Some("complianceApproved"))]

  function Singletons(steps: seq<WorkflowStep>): seq<seq<WorkflowStep>> {
    seq(|steps|, i requires 0 <= i < |steps| => [steps[i]])
  }

  lemma {:induction false} FlattenSingletons(steps: seq<WorkflowStep>)
    ensures Flatten(Singletons(steps)) == steps
  {
    if steps != [] {
      var front := steps[..|steps| - 1];
      FlattenSingletons(front);
      assert Singletons(steps)[..|steps| - 1] == Singletons(front);
      assert steps == front + [Last(steps)];
    }
  }

  lemma SingletonsAreGroups(steps: seq<WorkflowStep>)
    requires forall i :: 0 < i < |steps| ==> !Together(steps[i - 1], steps[i])
    ensures IsGrouping(steps, Singletons(steps))
  {
    FlattenSingletons(steps);
    hide Flatten, Together;
  }

  /** Ascending steps with no two neighbours in one parallel group run one by one. */
  lemma OneByOne(steps: seq<WorkflowStep>)
    requires Ascending(steps) && forall i :: 0 < i < |steps| ==> !Together(steps[i - 1], steps[i])
    ensures GroupSteps(SortByOrder(steps)) == Singletons(steps)
  {
    SortedAlready(steps);
    SingletonsAreGroups(steps);
    GroupingIsUnique(steps, Singletons(steps));
  }

  lemma ShippedFlagNames()
    ensures FlagName("!ckycRecordFound") == CKYC_FOUND && FlagName("complianceApproved") == APPROVED
  {
    assert Trim("!ckycRecordFound") == "!ckycRecordFound";
    assert Trim("complianceApproved") == "complianceApproved";
  }

  /** The shipped workflows run one step at a time and can never fail on a guard. */
  lemma ShippedWorkflowsAreSafe(steps: seq<WorkflowStep>)
    requires steps in {MINIMUM_STEPS, FULL_STEPS, EDD_STEPS}
    ensures GroupSteps(SortByOrder(steps)) == Singletons(steps)
    ensures GuardsEstablished(GroupSteps(SortByOrder(steps)))
  {
    OneByOne(steps);
    ShippedFlagNames();
    var groups := Singletons(steps);
    if steps != MINIMUM_STEPS {
      assert Establishes(groups[0][0], CKYC_FOUND);
      if steps == EDD_STEPS {
        assert Establishes(groups[5][0], APPROVED);
      }
    }
  }
}
