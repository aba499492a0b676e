/**
 One pass of the workflow engine. Vendor calls are a function of the step — each
 step is called at most once per pass — and the order in which the calls of a
 parallel group complete is a parameter.
 */
module WorkflowEngine {
  import opened Common
  import opened WorkflowPlan

  // ---- Outcomes and results ----

  /** What a vendor call comes back with; `source` and `awaitingCallback` are the two data fields the engine reads. */
  datatype VendorOutcome =
    | Returned(success: bool, awaitingCallback: bool, source: Option<string>)
    | Thrown(message: string)

  type Vendor = WorkflowStep -> VendorOutcome

  datatype StepResult = StepResult(
    stepName: string, vendorType: Option<string>, succeeded: bool, skipped: bool, isManualStep: bool,
    awaitingCallback: bool, outcome: Option<VendorOutcome>)

  datatype WorkflowResult = WorkflowResult(
    allStepsSucceeded: bool, awaitingManualStep: bool, awaitingCallback: bool, stepResults: seq<StepResult>)

  // ---- One group ----

  /** The step has a vendor call to make: its guard holds and it is not a human's task. */
  predicate CallsVendor(s: WorkflowStep, flags: Flags) {
    EvaluateGuard(s.guardExpression, flags) == Ok(true) && !s.isManualStep
  }

  predicate IsApproved(flags: Flags) {
    APPROVED in flags && flags[APPROVED]
  }

  /** What one step reports, judged on the flags at the start of its group. */
  function ResultOf(s: WorkflowStep, flags: Flags, vendor: Vendor): StepResult {
    if EvaluateGuard(s.guardExpression, flags) != Ok(true) then
      StepResult(s.stepName, s.vendorType, true, true, s.isManualStep, false, None)
    else if s.isManualStep then
      StepResult(s.stepName, None, true, IsApproved(flags), true, false, None)
    else
      var outcome := vendor(s);
      StepResult(s.stepName, s.vendorType, outcome.Returned? && outcome.success, false, false,
                 s.isAsync && outcome.Returned? && outcome.awaitingCallback, Some(outcome))
  }

  /** A result skipped because an earlier group waits for somebody. */
  function HeldBack(s: WorkflowStep): StepResult {
    StepResult(s.stepName, s.vendorType, false, true, s.isManualStep, false, None)
  }

  function Results(group: seq<WorkflowStep>, flags: Flags, vendor: Vendor): seq<StepResult> {
    seq(|group|, i requires 0 <= i < |group| => ResultOf(group[i], flags, vendor))
  }

  function AllHeldBack(group: seq<WorkflowStep>): seq<StepResult> {
    seq(|group|, i requires 0 <= i < |group| => HeldBack(group[i]))
  }

  function VendorCalls(group: seq<WorkflowStep>, flags: Flags): seq<WorkflowStep> {
    if group == [] then []
    else VendorCalls(group[..|group| - 1], flags) + (if CallsVendor(Last(group), flags) then [Last(group)] else [])
  }

  /** The first guard of the group that names an undefined flag. */
  function GuardError(group: seq<WorkflowStep>, flags: Flags): Option<string> {
    if group == [] then None
    else if EvaluateGuard(group[0].guardExpression, flags).Err? then Some(EvaluateGuard(group[0].guardExpression, flags).error)
    else GuardError(group[1..], flags)
  }

  /** A completed registry search that tells whether a record exists. */
  predicate IsSearchHit(s: WorkflowStep, flags: Flags, vendor: Vendor) {
    s.stepName == "ckyc-search" && CallsVendor(s, flags) && vendor(s).Returned? && vendor(s).success
  }

  function RecordFound(s: WorkflowStep, vendor: Vendor): bool {
    vendor(s).Returned? && vendor(s).source == Some("CKYC_EXISTING_RECORD")
  }

  /** The flags after the calls of a group completed in the given order. */
  function Complete(group: seq<WorkflowStep>, start: Flags, vendor: Vendor, order: seq<nat>): Flags {
    if order == [] then start
    else
      var flags, i := Complete(group, start, vendor, order[..|order| - 1]), Last(order);
      if i < |group| && IsSearchHit(group[i], start, vendor)
      then flags[CKYC_FOUND := RecordFound(group[i], vendor)] else flags
  }

  /** Every one of n calls completes exactly once. */
  ghost predicate IsOrder(order: seq<nat>, n: nat) {
    (forall i: nat :: i in order <==> i < n) && (forall j, k :: 0 <= j < k < |order| ==> order[j] != order[k])
  }

  // ---- A pass over the groups ----

  /** Everything a pass has done; `calls` lists the steps whose vendor was called, `guardError` a thrown guard. */
  datatype Pass = Pass(
    results: seq<StepResult>, calls: seq<WorkflowStep>, flags: Flags,
    awaitingManual: bool, awaitingCallback: bool, succeeded: bool, guardError: Option<string>)

  /** A run's fixed surroundings. `completion(g)` is the order in which the calls of group g complete. */
  datatype Setting = Setting(groups: seq<seq<WorkflowStep>>, vendor: Vendor, completion: nat -> seq<nat>)

  predicate Ran(r: StepResult) {
    !r.skipped
  }

  predicate HaltsManually(rs: seq<StepResult>) {
    exists i :: 0 <= i < |rs| && rs[i].isManualStep && Ran(rs[i])
  }

  predicate Awaits(rs: seq<StepResult>) {
    exists i :: 0 <= i < |rs| && rs[i].awaitingCallback
  }

  predicate SomeFailed(rs: seq<StepResult>) {
    exists i :: 0 <= i < |rs| && Ran(rs[i]) && !rs[i].succeeded
  }

  function Begin(flags: Flags): Pass {
    Pass([], [], flags, false, false, true, None)
  }

  function ExecuteGroup(p: Pass, group: seq<WorkflowStep>, vendor: Vendor, order: seq<nat>): Pass {
    var rs := Results(group, p.flags, vendor);
    if GuardError(group, p.flags).Some? then
      p.(calls := p.calls + VendorCalls(group, p.flags), guardError := GuardError(group, p.flags))
    else
      Pass(p.results + rs, p.calls + VendorCalls(group, p.flags), Complete(group, p.flags, vendor, order),
           p.awaitingManual || HaltsManually(rs), p.awaitingCallback || Awaits(rs), p.succeeded && !SomeFailed(rs), None)
  }

  predicate Stopped(p: Pass) {
    p.guardError.Some? || !p.succeeded
  }

  /** The pass goes on executing groups. */
  predicate Live(p: Pass) {
    !Stopped(p) && !p.awaitingManual && !p.awaitingCallback
  }

  function Advance(p: Pass, group: seq<WorkflowStep>, vendor: Vendor, order: seq<nat>): Pass {
    if Stopped(p) then p
    else if p.awaitingManual || p.awaitingCallback then p.(results := p.results + AllHeldBack(group))
    else ExecuteGroup(p, group, vendor, order)
  }

  /** The pass after its first k groups. */
  function After(w: Setting, flags: Flags, k: nat): Pass
    requires k <= |w.groups|
  {
    if k == 0 then Begin(flags) else Advance(After(w, flags, k - 1), w.groups[k - 1], w.vendor, w.completion(k - 1))
  }

  function Finished(p: Pass): Result<WorkflowResult, string> {
    if p.guardError.Some? then Err(p.guardError.value)
    else Ok(WorkflowResult(p.succeeded && !p.awaitingManual && !p.awaitingCallback, p.awaitingManual, p.awaitingCallback, p.results))
  }

  function SettingFor(steps: seq<WorkflowStep>, vendor: Vendor, completion: nat -> seq<nat>): Setting {
    Setting(GroupSteps(SortByOrder(steps)), vendor, completion)
  }

  function FinalPass(steps: seq<WorkflowStep>, flags: Flags, vendor: Vendor, completion: nat -> seq<nat>): Pass {
    var w := SettingFor(steps, vendor, completion);
    After(w, flags, |w.groups|)
  }

  /** The meaning of `executeWorkflow`. */
  function Execute(steps: seq<WorkflowStep>, flags: Flags, vendor: Vendor, completion: nat -> seq<nat>): Result<WorkflowResult, string> {
    Finished(FinalPass(steps, flags, vendor, completion))
  }

  lemma {:induction false} StoppedStays(w: Setting, flags: Flags, j: nat, k: nat)
    requires j <= k <= |w.groups|
    ensures Stopped(After(w, flags, j)) ==> After(w, flags, k) == After(w, flags, j)
    ensures !Live(After(w, flags, j)) ==> !Live(After(w, flags, k))
    decreases k
  {
    if j < k {
      StoppedStays(w, flags, j, k - 1);
    }
  }

  // ---- The object ----

  class Engine {
    const vendor: Vendor

    constructor (vendor: Vendor)
      ensures this.vendor == vendor
    {
      this.vendor := vendor;
    }

    static lemma PlacedNext(groups: seq<seq<WorkflowStep>>, current: seq<WorkflowStep>, s: WorkflowStep)
      ensures current == [] ==> Placed([], s) == [[s]]
      ensures current != [] ==>
                Placed(groups + [current], s) == if Together(Last(current), s) then groups + [current + [s]] else groups + [current] + [[s]]
    {
      assert (groups + [current])[..|groups|] == groups;
    }

    static method GroupInOrder(ordered: seq<WorkflowStep>) returns (groups: seq<seq<WorkflowStep>>)
      ensures groups == GroupSteps(ordered)
    {
      hide Placed;
      groups := [];
      var currentGroupName: Option<string> := None;
      var currentGroup: seq<WorkflowStep> := [];
      for i := 0 to |ordered|
        invariant i > 0 ==> currentGroup != []
        invariant GroupSteps(ordered[..i]) == if currentGroup == [] then groups else groups + [currentGroup]
        invariant currentGroup != [] ==> currentGroupName == Last(currentGroup).parallelGroup
        invariant currentGroup == [] ==> groups == [] && currentGroupName == None
      {
        var step := ordered[i];
        assert ordered[..i + 1][..i] == ordered[..i];
        assert GroupSteps(ordered[..i + 1]) == Placed(GroupSteps(ordered[..i]), step);
        PlacedNext(groups, currentGroup, step);
        if step.parallelGroup.Some? && step.parallelGroup.value != "" && step.parallelGroup == currentGroupName {
          currentGroup := currentGroup + [step];
        } else {
          if |currentGroup| > 0 {
            groups := groups + [currentGroup];
          }
          currentGroup := [step];
          currentGroupName := step.parallelGroup;
        }
      }
      assert ordered[..|ordered|] == ordered;
      if |currentGroup| > 0 {
        groups := groups + [currentGroup];
      }
    }

    /** The scan over one group's results. */
    static method Inspect(groupResults: seq<StepResult>) returns (manual: bool, callback: bool, failed: bool)
      ensures manual <==> HaltsManually(groupResults)
      ensures callback <==> Awaits(groupResults)
      ensures failed <==> SomeFailed(groupResults)
    {
      manual, callback, failed := false, false, false;
      for i := 0 to |groupResults|
        invariant manual <==> HaltsManually(groupResults[..i])
        invariant callback <==> Awaits(groupResults[..i])
        invariant failed <==> SomeFailed(groupResults[..i])
      {
        var result := groupResults[i];
        assert groupResults[..i + 1] == groupResults[..i] + [result];
        if result.isManualStep && !result.skipped {
          manual := true;
        }
        if result.awaitingCallback {
          callback := true;
        }
        if !result.skipped && !result.succeeded {
          failed := true;
        }
      }
      assert groupResults[..|groupResults|] == groupResults;
    }

    method ExecuteWorkflow(steps: seq<WorkflowStep>, initialFlags: Flags, completion: nat -> seq<nat>)
      returns (r: Result<WorkflowResult, string>, ghost calls: seq<WorkflowStep>)
      ensures r == Execute(steps, initialFlags, vendor, completion)
      ensures calls == FinalPass(steps, initialFlags, vendor, completion).calls
    {
      var groups := GroupInOrder(SortByOrder(steps));
      ghost var w := SettingFor(steps, vendor, completion);
      hide HaltsManually, Awaits, SomeFailed, Results, Complete, GuardError, VendorCalls, GroupSteps, SortByOrder;
      var flags, stepResults := initialFlags, [];
      var awaitingManualStep, awaitingCallback, allStepsSucceeded := false, false, true;
      calls := [];
      var g := 0;
      while g < |groups| && allStepsSucceeded
        invariant g <= |groups|
        invariant After(w, initialFlags, g) == Pass(stepResults, calls, flags, awaitingManualStep, awaitingCallback, allStepsSucceeded, None)
      {
        var group := groups[g];
        g := g + 1;
        if awaitingManualStep || awaitingCallback {
          stepResults := stepResults + AllHeldBack(group);
        } else {
          calls := calls + VendorCalls(group, flags);
          var error := GuardError(group, flags);
          if error.Some? {
            StoppedStays(w, initialFlags, g, |groups|);
            return Err(error.value), calls;
          }
          var groupResults := Results(group, flags, vendor);
          stepResults := stepResults + groupResults;
          var manual, callback, failed := Inspect(groupResults);
          awaitingManualStep, awaitingCallback := awaitingManualStep || manual, awaitingCallback || callback;
          allStepsSucceeded := allStepsSucceeded && !failed;
          flags := Complete(group, flags, vendor, completion(g - 1));
        }
      }
      StoppedStays(w, initialFlags, g, |groups|);
      return Ok(WorkflowResult(allStepsSucceeded && !awaitingManualStep && !awaitingCallback, awaitingManualStep, awaitingCallback, stepResults)), calls;
    }
  }
}
