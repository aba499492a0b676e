/** A pass that halts for a human, and the pass repeated once the human has approved. */
module WorkflowResume {
  import opened Common
  import opened WorkflowPlan
  import opened WorkflowEngine

  function Approved(flags: Flags): Flags {
    flags[APPROVED := true]
  }

  lemma GuardBlindToApproval(expression: Option<string>, flags: Flags)
    requires APPROVED !in flags && EvaluateGuard(expression, flags).Ok?
    ensures EvaluateGuard(expression, Approved(flags)) == EvaluateGuard(expression, flags)
  {}

  lemma {:induction false} NoErrorMeansNone(group: seq<WorkflowStep>, flags: Flags)
    ensures GuardError(group, flags) == None <==> forall i :: 0 <= i < |group| ==> EvaluateGuard(group[i].guardExpression, flags).Ok?
  {
    if group != [] {
      NoErrorMeansNone(group[1..], flags);
      forall i | 0 < i < |group| ensures group[i] == group[1..][i - 1] {}
      if GuardError(group, flags) == None {
        forall i | 0 <= i < |group| ensures EvaluateGuard(group[i].guardExpression, flags).Ok? {
          if i > 0 {
            assert EvaluateGuard(group[1..][i - 1].guardExpression, flags).Ok?;
          }
        }
      }
    }
  }

  lemma {:induction false} CallsBlindToApproval(group: seq<WorkflowStep>, flags: Flags)
    requires APPROVED !in flags
    requires forall i :: 0 <= i < |group| ==> EvaluateGuard(group[i].guardExpression, flags).Ok?
    ensures VendorCalls(group, Approved(flags)) == VendorCalls(group, flags)
  {
    if group != [] {
      CallsBlindToApproval(group[..|group| - 1], flags);
      GuardBlindToApproval(Last(group).guardExpression, flags);
    }
  }

  lemma {:induction false} CompletionBlindToApproval(group: seq<WorkflowStep>, flags: Flags, vendor: Vendor, order: seq<nat>)
    requires APPROVED !in flags
    requires forall i :: 0 <= i < |group| ==> EvaluateGuard(group[i].guardExpression, flags).Ok?
    ensures Complete(group, Approved(flags), vendor, order) == Approved(Complete(group, flags, vendor, order))
    ensures APPROVED !in Complete(group, flags, vendor, order)
  {
    if order != [] {
      CompletionBlindToApproval(group, flags, vendor, order[..|order| - 1]);
      if Last(order) < |group| {
        GuardBlindToApproval(group[Last(order)].guardExpression, flags);
      }
    }
  }

  /** A result as the approved pass reports it: a manual step is done with, anything else is as before. */
  function Resumed(s: WorkflowStep, r: StepResult): StepResult {
    if s.isManualStep then r.(skipped := true) else r
  }

  lemma ResultAfterApproval(s: WorkflowStep, flags: Flags, vendor: Vendor)
    requires APPROVED !in flags && EvaluateGuard(s.guardExpression, flags).Ok?
    ensures ResultOf(s, Approved(flags), vendor) == Resumed(s, ResultOf(s, flags, vendor))
    ensures ResultOf(s, flags, vendor).isManualStep == s.isManualStep
    ensures s.isManualStep ==> !Ran(ResultOf(s, Approved(flags), vendor)) && ResultOf(s, flags, vendor).succeeded
  {
    GuardBlindToApproval(s.guardExpression, flags);
  }

  lemma ResultsAfterApproval(group: seq<WorkflowStep>, flags: Flags, vendor: Vendor)
    requires APPROVED !in flags && GuardError(group, flags) == None
    ensures GuardError(group, Approved(flags)) == None
    ensures VendorCalls(group, Approved(flags)) == VendorCalls(group, flags)
    ensures forall i :: 0 <= i < |group| ==>
              Results(group, Approved(flags), vendor)[i] == Resumed(group[i], Results(group, flags, vendor)[i])
    ensures !HaltsManually(Results(group, Approved(flags), vendor))
    ensures Awaits(Results(group, Approved(flags), vendor)) == Awaits(Results(group, flags, vendor))
    ensures SomeFailed(Results(group, Approved(flags), vendor)) == SomeFailed(Results(group, flags, vendor))
  {
    NoErrorMeansNone(group, flags);
    NoErrorMeansNone(group, Approved(flags));
    CallsBlindToApproval(group, flags);
    var before, after := Results(group, flags, vendor), Results(group, Approved(flags), vendor);
    forall i | 0 <= i < |group|
      ensures EvaluateGuard(group[i].guardExpression, Approved(flags)).Ok?
    {
      GuardBlindToApproval(group[i].guardExpression, flags);
    }
    forall i | 0 <= i < |group|
      ensures after[i] == Resumed(group[i], before[i])
      ensures before[i].isManualStep == group[i].isManualStep
      ensures group[i].isManualStep ==> !Ran(after[i]) && before[i].succeeded
    {
      ResultAfterApproval(group[i], flags, vendor);
    }
    hide ResultOf, EvaluateGuard, GuardError, VendorCalls, Results;
    SameAwaits(group, before, after);
  }

  lemma SameAwaits(group: seq<WorkflowStep>, before: seq<StepResult>, after: seq<StepResult>)
    requires |before| == |after| == |group|
    requires forall i :: 0 <= i < |group| ==> after[i] == Resumed(group[i], before[i])
    requires forall i :: 0 <= i < |group| ==> before[i].isManualStep == group[i].isManualStep
    requires forall i :: 0 <= i < |group| && group[i].isManualStep ==> !Ran(after[i]) && before[i].succeeded
    ensures !HaltsManually(after) && Awaits(after) == Awaits(before) && SomeFailed(after) == SomeFailed(before)
  {}

  lemma NoHaltNoChange(group: seq<WorkflowStep>, flags: Flags, vendor: Vendor)
    requires APPROVED !in flags && GuardError(group, flags) == None && !HaltsManually(Results(group, flags, vendor))
    ensures Results(group, Approved(flags), vendor) == Results(group, flags, vendor)
  {
    ResultsAfterApproval(group, flags, vendor);
    var before, after := Results(group, flags, vendor), Results(group, Approved(flags), vendor);
    forall i | 0 <= i < |group| ensures after[i] == before[i] {
      assert !(before[i].isManualStep && Ran(before[i]));
    }
  }

  /** While the first pass is still executing, the approved pass has done exactly the same. */
  lemma {:induction false} SamePrefix(w: Setting, flags: Flags, k: nat)
    requires k <= |w.groups| && APPROVED !in flags && Live(After(w, flags, k))
    ensures APPROVED !in After(w, flags, k).flags
    ensures After(w, Approved(flags), k) == After(w, flags, k).(flags := Approved(After(w, flags, k).flags))
  {
    if k > 0 {
      StoppedStays(w, flags, k - 1, k);
      SamePrefix(w, flags, k - 1);
      var p, group := After(w, flags, k - 1), w.groups[k - 1];
      NoHaltNoChange(group, p.flags, w.vendor);
      ResultsAfterApproval(group, p.flags, w.vendor);
      NoErrorMeansNone(group, p.flags);
      CompletionBlindToApproval(group, p.flags, w.vendor, w.completion(k - 1));
    }
  }

  /** The group at which a pass that waits for a human came to wait. */
  lemma {:induction false} HaltingGroup(w: Setting, flags: Flags, k: nat) returns (h: nat)
    requires k <= |w.groups| && After(w, flags, k).awaitingManual && After(w, flags, k).guardError == None
    ensures h < k && Live(After(w, flags, h)) && After(w, flags, h + 1).awaitingManual && After(w, flags, h + 1).guardError == None
    ensures HaltsManually(Results(w.groups[h], After(w, flags, h).flags, w.vendor))
  {
    if After(w, flags, k - 1).awaitingManual {
      h := HaltingGroup(w, flags, k - 1);
    } else {
      h := k - 1;
    }
  }

  /**
   A pass without the approval flag waits for a human at some group h. The
   pass repeated with the flag has done the same up to h, reports the same in
   h except that h's manual steps are skipped, and goes on executing beyond h
   exactly if nothing in h failed or awaits a callback.
   */
  lemma ResumeAgreement(w: Setting, flags: Flags) returns (h: nat)
    requires APPROVED !in flags
    requires After(w, flags, |w.groups|).awaitingManual && After(w, flags, |w.groups|).guardError == None
    ensures h < |w.groups|
    ensures var first, again := After(w, flags, h), After(w, Approved(flags), h);
            again.results == first.results && again.calls == first.calls
    ensures var prior := After(w, flags, h).results;
            var first, again := After(w, flags, h + 1), After(w, Approved(flags), h + 1);
            && again.guardError == None && again.calls == first.calls && !again.awaitingManual
            && |again.results| == |first.results| == |prior| + |w.groups[h]|
            && again.results[..|prior|] == first.results[..|prior|] == prior
            && (forall i :: 0 <= i < |w.groups[h]| ==>
                  again.results[|prior| + i] == Resumed(w.groups[h][i], first.results[|prior| + i]))
            && (Live(again) <==> first.succeeded && !first.awaitingCallback)
    ensures HaltsManually(Results(w.groups[h], After(w, flags, h).flags, w.vendor))
  {
    h := HaltingGroup(w, flags, |w.groups|);
    SamePrefix(w, flags, h);
    ResultsAfterApproval(w.groups[h], After(w, flags, h).flags, w.vendor);
    hide Results, Complete, GuardError, VendorCalls, HaltsManually, Awaits, SomeFailed, Resumed;
    assert After(w, flags, h + 1) == ExecuteGroup(After(w, flags, h), w.groups[h], w.vendor, w.completion(h));
    assert After(w, Approved(flags), h + 1) == ExecuteGroup(After(w, Approved(flags), h), w.groups[h], w.vendor, w.completion(h));
  }
}
