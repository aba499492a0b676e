/** What a pass reports, held against what it did: results, vendor calls and the success flag. */
module WorkflowAccounting {
  import opened Common
  import opened WorkflowPlan
  import opened WorkflowEngine

  /** The steps whose results say that they ran and were not a human's task. */
  function RanSteps(steps: seq<WorkflowStep>, results: seq<StepResult>): seq<WorkflowStep>
    requires |steps| == |results|
  {
    if steps == [] then []
    else RanSteps(steps[..|steps| - 1], results[..|results| - 1]) +
         (if Ran(Last(results)) && !Last(results).isManualStep then [Last(steps)] else [])
  }

  predicate Names(steps: seq<WorkflowStep>, results: seq<StepResult>) {
    |results| <= |steps| && forall i :: 0 <= i < |results| ==> results[i].stepName == steps[i].stepName
  }

  ghost predicate Accounted(p: Pass, done: seq<WorkflowStep>) {
    && Names(done, p.results)
    && (!Stopped(p) ==> |p.results| == |done|)
    && (p.guardError == None ==> p.calls == RanSteps(done[..|p.results|], p.results))
    && (p.awaitingManual <==> HaltsManually(p.results))
    && (p.awaitingCallback <==> Awaits(p.results))
    && (p.succeeded <==> !SomeFailed(p.results))
    && (!p.awaitingManual && !p.awaitingCallback ==> forall i :: 0 <= i < |p.results| ==> p.results[i].succeeded || Ran(p.results[i]))
  }

  lemma {:induction false} RanStepsConcat(s: seq<WorkflowStep>, t: seq<WorkflowStep>, rs: seq<StepResult>, rt: seq<StepResult>)
    requires |s| == |rs| && |t| == |rt|
    ensures RanSteps(s + t, rs + rt) == RanSteps(s, rs) + RanSteps(t, rt)
  {
    if t == [] {
      assert s + t == s && rs + rt == rs;
    } else {
      assert (s + t)[..|s + t| - 1] == s + t[..|t| - 1];
      assert (rs + rt)[..|rs + rt| - 1] == rs + rt[..|rt| - 1];
      RanStepsConcat(s, t[..|t| - 1], rs, rt[..|rt| - 1]);
    }
  }

  lemma {:induction false} CallsAreRanSteps(group: seq<WorkflowStep>, flags: Flags, vendor: Vendor)
    ensures RanSteps(group, Results(group, flags, vendor)) == VendorCalls(group, flags)
  {
    if group != [] {
      var front := group[..|group| - 1];
      CallsAreRanSteps(front, flags, vendor);
      assert Results(group, flags, vendor)[..|group| - 1] == Results(front, flags, vendor);
    }
  }

  lemma {:induction false} NothingRanHeldBack(group: seq<WorkflowStep>)
    ensures RanSteps(group, AllHeldBack(group)) == []
  {
    if group != [] {
      NothingRanHeldBack(group[..|group| - 1]);
      assert AllHeldBack(group)[..|group| - 1] == AllHeldBack(group[..|group| - 1]);
    }
  }

  lemma JoinedFlags(a: seq<StepResult>, b: seq<StepResult>)
    ensures HaltsManually(a + b) <==> HaltsManually(a) || HaltsManually(b)
    ensures Awaits(a + b) <==> Awaits(a) || Awaits(b)
    ensures SomeFailed(a + b) <==> SomeFailed(a) || SomeFailed(b)
  {
    forall i | 0 <= i < |b| ensures (a + b)[|a| + i] == b[i] {}
    if HaltsManually(b) {
      var i :| 0 <= i < |b| && b[i].isManualStep && Ran(b[i]);
      assert (a + b)[|a| + i] == b[i];
    }
    if Awaits(b) {
      var i :| 0 <= i < |b| && b[i].awaitingCallback;
      assert (a + b)[|a| + i] == b[i];
    }
    if SomeFailed(b) {
      var i :| 0 <= i < |b| && Ran(b[i]) && !b[i].succeeded;
      assert (a + b)[|a| + i] == b[i];
    }
    if HaltsManually(a) {
      var i :| 0 <= i < |a| && a[i].isManualStep && Ran(a[i]);
      assert (a + b)[i] == a[i];
    }
    if Awaits(a) {
      var i :| 0 <= i < |a| && a[i].awaitingCallback;
      assert (a + b)[i] == a[i];
    }
    if SomeFailed(a) {
      var i :| 0 <= i < |a| && Ran(a[i]) && !a[i].succeeded;
      assert (a + b)[i] == a[i];
    }
  }

  lemma AccountedAppend(p: Pass, done: seq<WorkflowStep>, group: seq<WorkflowStep>, rs: seq<StepResult>)
    requires Accounted(p, done) && !Stopped(p) && |rs| == |group|
    requires forall i :: 0 <= i < |rs| ==> rs[i].stepName == group[i].stepName
    ensures Names(done + group, p.results + rs)
    ensures RanSteps((done + group)[..|p.results + rs|], p.results + rs) == p.calls + RanSteps(group, rs)
  {
    assert done[..|p.results|] == done;
    assert (done + group)[..|p.results + rs|] == done + group;
    RanStepsConcat(done, group, p.results, rs);
  }

  lemma AccountedHeldBack(p: Pass, done: seq<WorkflowStep>, group: seq<WorkflowStep>)
    requires Accounted(p, done) && !Stopped(p) && !Live(p)
    ensures Accounted(p.(results := p.results + AllHeldBack(group)), done + group)
  {
    NothingRanHeldBack(group);
    NoEventHeldBack(group);
    JoinedFlags(p.results, AllHeldBack(group));
    AccountedAppend(p, done, group, AllHeldBack(group));
    hide RanSteps, HaltsManually, Awaits, SomeFailed, AllHeldBack, Names;
  }

  lemma NamesExtend(done: seq<WorkflowStep>, group: seq<WorkflowStep>, results: seq<StepResult>)
    requires Names(done, results)
    ensures Names(done + group, results)
  {}

  lemma AccountedExecute(p: Pass, done: seq<WorkflowStep>, group: seq<WorkflowStep>, vendor: Vendor, order: seq<nat>)
    requires Accounted(p, done) && Live(p)
    ensures Accounted(ExecuteGroup(p, group, vendor, order), done + group)
  {
    var rs := Results(group, p.flags, vendor);
    CallsAreRanSteps(group, p.flags, vendor);
    JoinedFlags(p.results, rs);
    AccountedAppend(p, done, group, rs);
    assert forall i :: 0 <= i < |rs| ==> rs[i].succeeded || Ran(rs[i]);
    assert |rs| == |group| && forall i :: 0 <= i < |rs| ==> rs[i].stepName == group[i].stepName;
    hide RanSteps, HaltsManually, Awaits, SomeFailed, GuardError, VendorCalls, Complete, Results, Ran, Names;
    var p' := ExecuteGroup(p, group, vendor, order);
    if p'.guardError == None {
      assert p'.results == p.results + rs && p'.calls == p.calls + RanSteps(group, rs);
      hide ExecuteGroup;
    } else {
      assert Names(done + group, p.results) by {
        hide *;
        NamesExtend(done, group, p.results);
      }
    }
  }

  lemma AccountedAdvance(p: Pass, done: seq<WorkflowStep>, group: seq<WorkflowStep>, vendor: Vendor, order: seq<nat>)
    requires Accounted(p, done)
    ensures Accounted(Advance(p, group, vendor, order), done + group)
  {
    if Stopped(p) {
      assert (done + group)[..|p.results|] == done[..|p.results|];
    } else if Live(p) {
      AccountedExecute(p, done, group, vendor, order);
    } else {
      AccountedHeldBack(p, done, group);
    }
    hide Accounted, ExecuteGroup;
  }

  lemma NoEventHeldBack(group: seq<WorkflowStep>)
    ensures !HaltsManually(AllHeldBack(group)) && !Awaits(AllHeldBack(group)) && !SomeFailed(AllHeldBack(group))
  {}

  lemma {:induction false} AccountedAfter(w: Setting, flags: Flags, k: nat)
    requires k <= |w.groups|
    ensures Accounted(After(w, flags, k), Flatten(w.groups[..k]))
  {
    if k > 0 {
      AccountedAfter(w, flags, k - 1);
      assert w.groups[..k][..k - 1] == w.groups[..k - 1];
      AccountedAdvance(After(w, flags, k - 1), Flatten(w.groups[..k - 1]), w.groups[k - 1], w.vendor, w.completion(k - 1));
    }
  }

  /**
   Results name a prefix of the ordered steps; the vendor was called for
   exactly the steps reported as run and not manual, in order; and overall
   success means that every step is reported, succeeded, and nothing waits.
   */
  lemma EngineAccounting(steps: seq<WorkflowStep>, flags: Flags, vendor: Vendor, completion: nat -> seq<nat>)
    requires Execute(steps, flags, vendor, completion).Ok?
    ensures var r := Execute(steps, flags, vendor, completion).value;
            var ordered := SortByOrder(steps);
            && Names(ordered, r.stepResults)
            && FinalPass(steps, flags, vendor, completion).calls == RanSteps(ordered[..|r.stepResults|], r.stepResults)
            && (r.allStepsSucceeded <==>
                  |r.stepResults| == |ordered| && (forall i :: 0 <= i < |ordered| ==> r.stepResults[i].succeeded)
                  && !r.awaitingManualStep && !r.awaitingCallback)
  {
    var w := SettingFor(steps, vendor, completion);
    AccountedAfter(w, flags, |w.groups|);
    assert w.groups[..|w.groups|] == w.groups;
    GroupStepsPartitions(SortByOrder(steps));
  }
}
