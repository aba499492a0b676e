/**
 Which configurations can run to the end, and which can meet an unknown flag.
 A live pass that began without flags knows at most what the last registry
 search found, so a walk over the groups with three values decides both.
 */
module WorkflowReach {
  import opened Common
  import opened WorkflowPlan
  import opened WorkflowEngine
  import opened WorkflowConfluence
  import opened WorkflowGuards
  import opened WorkflowResume

  // ---- The walk ----

  /** The flags of a live pass: what a registry search found, if one has run. */
  function FlagsOf(found: Option<bool>): Flags {
    if found.None? then map[] else map[CKYC_FOUND := found.value]
  }

  /** What vendors can ever do: `stalls` marks steps that never let a pass go on, `finds` those that can report an existing record. */
  datatype Nature = Nature(stalls: WorkflowStep -> bool, finds: WorkflowStep -> bool)

  predicate GoesOn(s: WorkflowStep, outcome: VendorOutcome) {
    outcome.Returned? && outcome.success && !(s.isAsync && outcome.awaitingCallback)
  }

  ghost predicate Obeys(vendor: Vendor, n: Nature) {
    forall s :: (n.stalls(s) ==> !GoesOn(s, vendor(s))) && (RecordFound(s, vendor) ==> n.finds(s))
  }

  /** Every guard of the group is known, and no step that runs is manual or stalls. */
  predicate Clears(group: seq<WorkflowStep>, found: Option<bool>, n: Nature) {
    GuardError(group, FlagsOf(found)) == None &&
    forall i :: 0 <= i < |group| && EvaluateGuard(group[i].guardExpression, FlagsOf(found)) == Ok(true) ==>
      !group[i].isManualStep && !n.stalls(group[i])
  }

  predicate IsSearch(s: WorkflowStep, found: Option<bool>) {
    s.stepName == "ckyc-search" && CallsVendor(s, FlagsOf(found))
  }

  predicate Searches(group: seq<WorkflowStep>, found: Option<bool>) {
    exists i :: 0 <= i < |group| && IsSearch(group[i], found)
  }

  /** What is known after a group whose searches, if any run, answer `record`. */
  function Learnt(group: seq<WorkflowStep>, found: Option<bool>, record: bool): Option<bool> {
    if Searches(group, found) then Some(record) else found
  }

  predicate IsFinder(group: seq<WorkflowStep>, found: Option<bool>, n: Nature, i: int) {
    0 <= i < |group| && IsSearch(group[i], found) && n.finds(group[i])
  }

  /** A record can only be found by a search that is able to. */
  predicate MayLearn(group: seq<WorkflowStep>, found: Option<bool>, n: Nature, record: bool) {
    record && Searches(group, found) ==> exists i :: 0 <= i < |group| && IsFinder(group, found, n, i)
  }

  datatype Goal = RunsToTheEnd | MeetsUnknownFlag

  /** Some answers of the registry searches lead to the goal. */
  predicate Reaches(goal: Goal, groups: seq<seq<WorkflowStep>>, found: Option<bool>, n: Nature)
    decreases |groups|
  {
    if groups == [] then goal == RunsToTheEnd
    else
      (goal == MeetsUnknownFlag && GuardError(groups[0], FlagsOf(found)).Some?) ||
      (Clears(groups[0], found, n) &&
       ((MayLearn(groups[0], found, n, true) && Reaches(goal, groups[1..], Learnt(groups[0], found, true), n)) ||
        Reaches(goal, groups[1..], Learnt(groups[0], found, false), n)))
  }

  predicate Ended(goal: Goal, p: Pass) {
    if goal == RunsToTheEnd then Live(p) else p.guardError.Some?
  }

  // ---- Every pass is a walk ----

  lemma {:induction false} CompletionShape(group: seq<WorkflowStep>, start: Flags, vendor: Vendor, order: seq<nat>)
    ensures Complete(group, start, vendor, order) == start
            || exists i :: IsHit(group, start, vendor, i) && Complete(group, start, vendor, order) == start[CKYC_FOUND := RecordFound(group[i], vendor)]
  {
    if order != [] {
      CompletionShape(group, start, vendor, order[..|order| - 1]);
    }
  }

  /** The result neither halts the pass, nor waits, nor fails. */
  predicate Uneventful(r: StepResult) {
    !(r.isManualStep && Ran(r)) && !r.awaitingCallback && !(Ran(r) && !r.succeeded)
  }

  lemma UneventfulResults(rs: seq<StepResult>)
    ensures !HaltsManually(rs) && !Awaits(rs) && !SomeFailed(rs) <==> forall i :: 0 <= i < |rs| ==> Uneventful(rs[i])
  {}

  /** Without an approval, a step is uneventful exactly if it is guarded off or a vendor lets it go on. */
  lemma UneventfulIff(s: WorkflowStep, found: Option<bool>, vendor: Vendor)
    ensures Uneventful(ResultOf(s, FlagsOf(found), vendor))
            <==> (EvaluateGuard(s.guardExpression, FlagsOf(found)) == Ok(true) ==> !s.isManualStep && GoesOn(s, vendor(s)))
  {
    hide EvaluateGuard;
  }

  /** Every search that runs succeeds. */
  predicate SearchesHit(group: seq<WorkflowStep>, found: Option<bool>, vendor: Vendor) {
    forall i :: 0 <= i < |group| && IsSearch(group[i], found) ==> IsHit(group, FlagsOf(found), vendor, i)
  }

  lemma GroupCleared(p: Pass, group: seq<WorkflowStep>, found: Option<bool>, vendor: Vendor, order: seq<nat>, n: Nature)
    requires Live(p) && p.flags == FlagsOf(found) && Obeys(vendor, n)
    requires Live(ExecuteGroup(p, group, vendor, order))
    ensures Clears(group, found, n)
    ensures SearchesHit(group, found, vendor)
  {
    var rs := Results(group, p.flags, vendor);
    UneventfulResults(rs);
    forall i | 0 <= i < |group|
      ensures EvaluateGuard(group[i].guardExpression, FlagsOf(found)) == Ok(true) ==> !group[i].isManualStep && GoesOn(group[i], vendor(group[i]))
    {
      UneventfulIff(group[i], found, vendor);
      assert Uneventful(rs[i]);
    }
    hide Uneventful, ResultOf, EvaluateGuard, Complete, VendorCalls, Results, HaltsManually, Awaits, SomeFailed;
  }

  lemma CompleteUnsearched(group: seq<WorkflowStep>, start: Flags, vendor: Vendor, order: seq<nat>)
    ensures (forall i :: 0 <= i < |group| ==> !IsHit(group, start, vendor, i)) ==> Complete(group, start, vendor, order) == start
  {
    if forall i :: 0 <= i < |group| ==> !IsHit(group, start, vendor, i) {
      CompleteWhenAgreed(group, start, vendor, order);
    }
  }

  lemma FlagsLearnt(group: seq<WorkflowStep>, found: Option<bool>, vendor: Vendor, order: seq<nat>, n: Nature) returns (record: bool)
    requires IsOrder(order, |group|) && Obeys(vendor, n) && SearchesHit(group, found, vendor)
    ensures Complete(group, FlagsOf(found), vendor, order) == FlagsOf(Learnt(group, found, record))
    ensures MayLearn(group, found, n, record)
  {
    var start := FlagsOf(found);
    CompletionShape(group, start, vendor, order);
    CompletionKeeps(group, start, vendor, order);
    CompleteUnsearched(group, start, vendor, order);
    hide Complete, CallsVendor;
    record := false;
    if Searches(group, found) {
      var j: nat :| j < |group| && IsSearch(group[j], found);
      LastHit(group, start, vendor, order, j);
      var i :| IsHit(group, start, vendor, i) && Complete(group, start, vendor, order) == start[CKYC_FOUND := RecordFound(group[i], vendor)];
      record := RecordFound(group[i], vendor);
      if record {
        HitIsFinder(group, found, vendor, n, i);
      }
    } else {
      NoSearchNoHit(group, found, vendor);
    }
  }

  lemma HitIsFinder(group: seq<WorkflowStep>, found: Option<bool>, vendor: Vendor, n: Nature, i: int)
    requires Obeys(vendor, n) && IsHit(group, FlagsOf(found), vendor, i) && RecordFound(group[i], vendor)
    ensures IsFinder(group, found, n, i)
  {}

  lemma NoSearchNoHit(group: seq<WorkflowStep>, found: Option<bool>, vendor: Vendor)
    requires !Searches(group, found)
    ensures forall i :: 0 <= i < |group| ==> !IsHit(group, FlagsOf(found), vendor, i)
  {}

  /** If some search succeeds, the flag is what one of them said. */
  lemma {:induction false} LastHit(group: seq<WorkflowStep>, start: Flags, vendor: Vendor, order: seq<nat>, j: nat)
    requires j in order && IsHit(group, start, vendor, j)
    ensures exists i :: IsHit(group, start, vendor, i) && Complete(group, start, vendor, order) == start[CKYC_FOUND := RecordFound(group[i], vendor)]
  {
    var front, last := order[..|order| - 1], Last(order);
    CompletionShape(group, start, vendor, front);
    if last < |group| && IsSearchHit(group[last], start, vendor) {
      assert IsHit(group, start, vendor, last);
    } else {
      assert j in front;
      LastHit(group, start, vendor, front, j);
    }
  }

  lemma {:induction false} NoLateError(w: Setting, flags: Flags, j: nat, k: nat)
    requires j <= k <= |w.groups| && !Live(After(w, flags, j)) && After(w, flags, j).guardError == None
    ensures After(w, flags, k).guardError == None
    decreases k
  {
    if j < k {
      NoLateError(w, flags, j, k - 1);
      StoppedStays(w, flags, j, k - 1);
    }
  }

  /** A pass that stops being live at a group reaches no goal but an unknown flag in that group. */
  lemma EndsWithError(goal: Goal, w: Setting, p: Pass, k: nat)
    requires k < |w.groups| && p == After(w, map[], k) && Live(p) && !Live(After(w, map[], k + 1))
    requires Ended(goal, After(w, map[], |w.groups|))
    ensures goal == MeetsUnknownFlag && GuardError(w.groups[k], p.flags).Some?
  {
    hide Results, Complete, VendorCalls, HaltsManually, Awaits, SomeFailed, GuardError;
    var next := After(w, map[], k + 1);
    assert next == ExecuteGroup(p, w.groups[k], w.vendor, w.completion(k));
    assert next.guardError == GuardError(w.groups[k], p.flags);
    hide After, ExecuteGroup;
    StoppedStays(w, map[], k + 1, |w.groups|);
    if next.guardError == None {
      NoLateError(w, map[], k + 1, |w.groups|);
    }
  }

  lemma ReachesNext(goal: Goal, groups: seq<seq<WorkflowStep>>, found: Option<bool>, n: Nature, record: bool)
    requires groups != [] && Clears(groups[0], found, n) && MayLearn(groups[0], found, n, record)
    requires Reaches(goal, groups[1..], Learnt(groups[0], found, record), n)
    ensures Reaches(goal, groups, found, n)
  {
    hide Clears, MayLearn, Learnt;
  }

  /** A group after which the pass is still live is a step of the walk. */
  lemma LiveStep(w: Setting, n: Nature, k: nat, found: Option<bool>) returns (record: bool)
    requires k < |w.groups| && Obeys(w.vendor, n) && ValidCompletion(w.completion, w.groups)
    requires Live(After(w, map[], k)) && After(w, map[], k).flags == FlagsOf(found) && Live(After(w, map[], k + 1))
    ensures Clears(w.groups[k], found, n) && MayLearn(w.groups[k], found, n, record)
    ensures After(w, map[], k + 1).flags == FlagsOf(Learnt(w.groups[k], found, record))
  {
    var p, group, order := After(w, map[], k), w.groups[k], w.completion(k);
    assert After(w, map[], k + 1) == ExecuteGroup(p, group, w.vendor, order);
    hide After, Clears, MayLearn, SearchesHit, FlagsOf, Learnt;
    GroupCleared(p, group, found, w.vendor, order, n);
    record := FlagsLearnt(group, found, w.vendor, order, n);
    hide Obeys, ValidCompletion, IsOrder, Complete, Results, GuardError, VendorCalls;
  }

  lemma {:induction false} PassToWalk(goal: Goal, w: Setting, n: Nature, k: nat, found: Option<bool>)
    requires k <= |w.groups| && Obeys(w.vendor, n) && ValidCompletion(w.completion, w.groups)
    requires Live(After(w, map[], k)) && After(w, map[], k).flags == FlagsOf(found)
    requires Ended(goal, After(w, map[], |w.groups|))
    ensures Reaches(goal, w.groups[k..], found, n)
    decreases |w.groups| - k
  {
    hide Clears, MayLearn, Learnt, Obeys, ValidCompletion, GuardError, After, FlagsOf;
    if k < |w.groups| {
      assert w.groups[k..][0] == w.groups[k] && w.groups[k..][1..] == w.groups[k + 1..];
      if Live(After(w, map[], k + 1)) {
        var record := LiveStep(w, n, k, found);
        PassToWalk(goal, w, n, k + 1, Learnt(w.groups[k], found, record));
        ReachesNext(goal, w.groups[k..], found, n, record);
      } else {
        EndsWithError(goal, w, After(w, map[], k), k);
      }
    }
  }

  // ---- Every walk is a pass ----

  /** What the searches of a group are to answer, and which of its calls is to complete last. */
  datatype Choice = Choice(record: bool, last: nat)

  /** The choice is one that searches able to find a record can make. */
  predicate Fits(group: seq<WorkflowStep>, found: Option<bool>, n: Nature, c: Choice) {
    c.record && Searches(group, found) ==> IsFinder(group, found, n, c.last)
  }

  /** The walk with the answers of the searches given group by group. */
  predicate Follows(goal: Goal, groups: seq<seq<WorkflowStep>>, found: Option<bool>, n: Nature, choices: seq<Choice>)
    requires |choices| == |groups|
    decreases |groups|
  {
    if groups == [] then goal == RunsToTheEnd
    else
      (goal == MeetsUnknownFlag && GuardError(groups[0], FlagsOf(found)).Some?) ||
      (Clears(groups[0], found, n) && Fits(groups[0], found, n, choices[0]) &&
       Follows(goal, groups[1..], Learnt(groups[0], found, choices[0].record), n, choices[1..]))
  }

  lemma {:induction false} Choose(goal: Goal, groups: seq<seq<WorkflowStep>>, found: Option<bool>, n: Nature)
    returns (choices: seq<Choice>)
    requires Reaches(goal, groups, found, n)
    ensures |choices| == |groups| && Follows(goal, groups, found, n, choices)
    decreases |groups|
  {
    if groups == [] {
      choices := [];
    } else if goal == MeetsUnknownFlag && GuardError(groups[0], FlagsOf(found)).Some? {
      choices := seq(|groups|, _ => Choice(false, 0));
    } else {
      var record := MayLearn(groups[0], found, n, true) && Reaches(goal, groups[1..], Learnt(groups[0], found, true), n);
      var choice := Choice(record, 0);
      if record && Searches(groups[0], found) {
        var i :| 0 <= i < |groups[0]| && IsFinder(groups[0], found, n, i);
        choice := Choice(record, i);
      }
      var rest := Choose(goal, groups[1..], Learnt(groups[0], found, record), n);
      choices := [choice] + rest;
      assert choices[1..] == rest;
    }
  }

  /** No step stands in two groups. */
  predicate Apart(groups: seq<seq<WorkflowStep>>) {
    forall g, h :: 0 <= g < h < |groups| ==> forall i, j :: 0 <= i < |groups[g]| && 0 <= j < |groups[h]| ==> groups[g][i] != groups[h][j]
  }

  /** The steps that find a record if they can. */
  function Finders(groups: seq<seq<WorkflowStep>>, choices: seq<Choice>): set<WorkflowStep>
    requires |choices| == |groups|
  {
    set g, i | 0 <= g < |groups| && choices[g].record && 0 <= i < |groups[g]| :: groups[g][i]
  }

  /** Vendors that let every step go on that can, with searches that find a record as told. */
  ghost predicate Realises(vendor: Vendor, finders: set<WorkflowStep>, n: Nature) {
    forall s :: !n.stalls(s) ==> GoesOn(s, vendor(s)) && (RecordFound(s, vendor) <==> s in finders && n.finds(s))
  }

  lemma FindersOfGroup(groups: seq<seq<WorkflowStep>>, choices: seq<Choice>, k: nat, i: nat)
    requires |choices| == |groups| && k < |groups| && i < |groups[k]| && Apart(groups)
    ensures groups[k][i] in Finders(groups, choices) <==> choices[k].record
  {}

  /** All n calls of a group, in the order in which they were made but for one that completes last. */
  function OrderFor(n: nat, last: nat): seq<nat> {
    if last < n then Finally(n, last) else seq(n, i => i)
  }

  lemma OrderForIsOrder(n: nat, last: nat)
    ensures IsOrder(OrderFor(n, last), n) && (last < n ==> OrderFor(n, last) != [] && Last(OrderFor(n, last)) == last)
  {
    if last < n {
      FinallyIsOrder(n, last);
    } else {
      var order := OrderFor(n, last);
      forall i: nat | i < n ensures i in order {
        assert order[i] == i;
      }
    }
  }

  lemma LastOneWins(group: seq<WorkflowStep>, start: Flags, vendor: Vendor, order: seq<nat>)
    requires order != [] && IsHit(group, start, vendor, Last(order))
    ensures Complete(group, start, vendor, order) == start[CKYC_FOUND := RecordFound(group[Last(order)], vendor)]
  {
    CompletionShape(group, start, vendor, order[..|order| - 1]);
  }

  /** The flags after the group are what the choice says. */
  lemma ChoiceLearnt(group: seq<WorkflowStep>, found: Option<bool>, vendor: Vendor, order: seq<nat>, n: Nature, c: Choice)
    requires IsOrder(order, |group|) && Fits(group, found, n, c) && SearchesHit(group, found, vendor)
    requires forall i :: 0 <= i < |group| && IsSearch(group[i], found) ==> (RecordFound(group[i], vendor) <==> c.record && n.finds(group[i]))
    requires c.last < |group| ==> order != [] && Last(order) == c.last
    ensures Complete(group, FlagsOf(found), vendor, order) == FlagsOf(Learnt(group, found, c.record))
  {
    var start := FlagsOf(found);
    if Searches(group, found) {
      if c.record {
        assert IsHit(group, start, vendor, c.last) && RecordFound(group[c.last], vendor);
        LastOneWins(group, start, vendor, order);
      } else {
        var j: nat :| j < |group| && IsSearch(group[j], found);
        LastHit(group, start, vendor, order, j);
      }
      hide Complete, CallsVendor, RecordFound, IsOrder;
    } else {
      NoSearchNoHit(group, found, vendor);
      CompleteUnsearched(group, start, vendor, order);
    }
  }

  lemma GroupRuns(p: Pass, group: seq<WorkflowStep>, found: Option<bool>, vendor: Vendor, order: seq<nat>, n: Nature, c: Choice)
    requires Live(p) && p.flags == FlagsOf(found) && Clears(group, found, n) && IsOrder(order, |group|) && Fits(group, found, n, c)
    requires c.last < |group| ==> order != [] && Last(order) == c.last
    requires forall i :: 0 <= i < |group| && !n.stalls(group[i]) ==>
               GoesOn(group[i], vendor(group[i])) && (RecordFound(group[i], vendor) <==> c.record && n.finds(group[i]))
    ensures var next := ExecuteGroup(p, group, vendor, order);
            Live(next) && next.flags == FlagsOf(Learnt(group, found, c.record))
  {
    var rs := Results(group, p.flags, vendor);
    forall i | 0 <= i < |group| ensures Uneventful(rs[i]) {
      UneventfulIff(group[i], found, vendor);
    }
    UneventfulResults(rs);
    assert SearchesHit(group, found, vendor);
    ChoiceLearnt(group, found, vendor, order, n, c);
    hide Complete, IsOrder, VendorCalls, Results;
  }

  lemma {:induction false} WalkToPass(goal: Goal, w: Setting, n: Nature, choices: seq<Choice>, k: nat, found: Option<bool>)
    requires k <= |w.groups| == |choices| && Apart(w.groups) && Realises(w.vendor, Finders(w.groups, choices), n)
    requires forall g :: 0 <= g < |w.groups| ==> w.completion(g) == OrderFor(|w.groups[g]|, choices[g].last)
    requires Live(After(w, map[], k)) && After(w, map[], k).flags == FlagsOf(found)
    requires Follows(goal, w.groups[k..], found, n, choices[k..])
    ensures Ended(goal, After(w, map[], |w.groups|))
    decreases |w.groups| - k
  {
    if k < |w.groups| {
      var p, group, order, c := After(w, map[], k), w.groups[k], w.completion(k), choices[k];
      assert After(w, map[], k + 1) == ExecuteGroup(p, group, w.vendor, order);
      assert w.groups[k..][1..] == w.groups[k + 1..] && choices[k..][1..] == choices[k + 1..];
      if goal == MeetsUnknownFlag && GuardError(group, p.flags).Some? {
        StoppedStays(w, map[], k + 1, |w.groups|);
      } else {
        forall i | 0 <= i < |group| && !n.stalls(group[i])
          ensures GoesOn(group[i], w.vendor(group[i])) && (RecordFound(group[i], w.vendor) <==> c.record && n.finds(group[i]))
        {
          FindersOfGroup(w.groups, choices, k, i);
        }
        OrderForIsOrder(|group|, c.last);
        GroupRuns(p, group, found, w.vendor, order, n, c);
        hide ExecuteGroup, After, Apart, Finders, Realises, Clears, Fits, OrderFor;
        WalkToPass(goal, w, n, choices, k + 1, Learnt(group, found, c.record));
      }
    }
  }

  // ---- Configurations ----

  /** What the loader insists on. */
  predicate DistinctOrders(steps: seq<WorkflowStep>) {
    forall i, j :: 0 <= i < j < |steps| ==> steps[i].order != steps[j].order
  }

  lemma {:induction false} EachOnce(steps: seq<WorkflowStep>, s: WorkflowStep)
    requires DistinctOrders(steps)
    ensures multiset(steps)[s] <= 1
  {
    if steps != [] {
      var front, last := steps[..|steps| - 1], Last(steps);
      EachOnce(front, s);
      assert steps == front + [last];
      assert last !in front;
    }
  }

  lemma {:induction false} InFlatten(groups: seq<seq<WorkflowStep>>, g: nat, i: nat)
    requires g < |groups| && i < |groups[g]|
    ensures groups[g][i] in Flatten(groups)
  {
    if g < |groups| - 1 {
      InFlatten(groups[..|groups| - 1], g, i);
    }
  }

  lemma {:induction false} ApartIfOnce(groups: seq<seq<WorkflowStep>>)
    requires forall s :: multiset(Flatten(groups))[s] <= 1
    ensures Apart(groups)
  {
    if groups != [] {
      var front, last := groups[..|groups| - 1], Last(groups);
      forall s ensures multiset(Flatten(front))[s] <= 1 && !(s in Flatten(front) && s in last) {
        assert multiset(Flatten(groups))[s] == multiset(Flatten(front))[s] + multiset(last)[s];
      }
      hide Flatten, Apart;
      ApartIfOnce(front);
      forall g: nat, i: nat, j: nat | g < |front| && i < |front[g]| && j < |last| ensures front[g][i] != last[j] {
        InFlatten(front, g, i);
      }
      ApartSnoc(front, last);
      assert groups == front + [last];
    }
  }

  lemma ApartSnoc(front: seq<seq<WorkflowStep>>, last: seq<WorkflowStep>)
    requires Apart(front)
    requires forall g: nat, i: nat, j: nat :: g < |front| && i < |front[g]| && j < |last| ==> front[g][i] != last[j]
    ensures Apart(front + [last])
  {
    var groups := front + [last];
    forall g, h | 0 <= g < h < |groups|
      ensures forall i, j :: 0 <= i < |groups[g]| && 0 <= j < |groups[h]| ==> groups[g][i] != groups[h][j]
    {
      if h < |front| {
        assert groups[g] == front[g] && groups[h] == front[h];
      }
    }
  }

  lemma GroupsAreApart(steps: seq<WorkflowStep>)
    requires DistinctOrders(steps)
    ensures Apart(GroupSteps(SortByOrder(steps)))
  {
    var ordered := SortByOrder(steps);
    SortIsSort(steps);
    GroupStepsPartitions(ordered);
    forall s ensures multiset(Flatten(GroupSteps(ordered)))[s] <= 1 {
      EachOnce(steps, s);
      assert multiset(Flatten(GroupSteps(ordered))) == multiset(steps);
    }
    ApartIfOnce(GroupSteps(ordered));
  }

  /** How a whole pass counts as having reached the goal. */
  predicate Came(goal: Goal, r: Result<WorkflowResult, string>) {
    if goal == RunsToTheEnd then r.Ok? && r.value.allStepsSucceeded else r.Err?
  }

  lemma CameIsEnded(goal: Goal, steps: seq<WorkflowStep>, vendor: Vendor, completion: nat -> seq<nat>)
    ensures var w := SettingFor(steps, vendor, completion);
            Came(goal, Execute(steps, map[], vendor, completion)) <==> Ended(goal, After(w, map[], |w.groups|))
  {
    hide After, GroupSteps, SortByOrder;
  }

  /** One pass that reaches the goal means that the walk does — for any configuration. */
  lemma PassMeansWalk(goal: Goal, steps: seq<WorkflowStep>, vendor: Vendor, completion: nat -> seq<nat>, n: Nature)
    requires Obeys(vendor, n) && ValidCompletion(completion, GroupSteps(SortByOrder(steps)))
    requires Came(goal, Execute(steps, map[], vendor, completion))
    ensures Reaches(goal, GroupSteps(SortByOrder(steps)), None, n)
  {
    var w := SettingFor(steps, vendor, completion);
    CameIsEnded(goal, steps, vendor, completion);
    PassToWalk(goal, w, n, 0, None);
    assert w.groups[0..] == w.groups;
  }

  /** All calls of group g complete in the order in which they were made. */
  function Promptly(groups: seq<seq<WorkflowStep>>): nat -> seq<nat> {
    (g: nat) => seq(if g < |groups| then |groups[g]| else 0, i => i)
  }

  lemma PromptlyIsValid(groups: seq<seq<WorkflowStep>>)
    ensures ValidCompletion(Promptly(groups), groups)
  {
    forall g: nat | g < |groups| ensures IsOrder(Promptly(groups)(g), |groups[g]|) {
      var order := Promptly(groups)(g);
      forall i: nat | i < |groups[g]| ensures i in order {
        assert order[i] == i;
      }
    }
  }

  function Completing(groups: seq<seq<WorkflowStep>>, choices: seq<Choice>): nat -> seq<nat>
    requires |choices| == |groups|
  {
    (g: nat) => if g < |groups| then OrderFor(|groups[g]|, choices[g].last) else []
  }

  /** A walk that reaches the goal says what vendors have to find, and in which order, for a pass to reach it. */
  lemma WalkMeansPass(goal: Goal, steps: seq<WorkflowStep>, n: Nature) returns (finders: set<WorkflowStep>, completion: nat -> seq<nat>)
    requires DistinctOrders(steps) && Reaches(goal, GroupSteps(SortByOrder(steps)), None, n)
    ensures ValidCompletion(completion, GroupSteps(SortByOrder(steps)))
    ensures forall vendor :: Realises(vendor, finders, n) ==> Came(goal, Execute(steps, map[], vendor, completion))
  {
    var groups := GroupSteps(SortByOrder(steps));
    var choices := Choose(goal, groups, None, n);
    finders, completion := Finders(groups, choices), Completing(groups, choices);
    GroupsAreApart(steps);
    forall g: nat | g < |groups| ensures IsOrder(completion(g), |groups[g]|) {
      OrderForIsOrder(|groups[g]|, choices[g].last);
    }
    assert groups[0..] == groups && choices[0..] == choices;
    forall vendor | Realises(vendor, finders, n) ensures Came(goal, Execute(steps, map[], vendor, completion)) {
      WalkToPass(goal, SettingFor(steps, vendor, completion), n, choices, 0, None);
      CameIsEnded(goal, steps, vendor, completion);
    }
  }

  // ---- Unknown flags ----

  /** Vendors of which nothing is known. */
  const ANYTHING: Nature := Nature(s => false, s => true)

  function Willing(finders: set<WorkflowStep>, s: WorkflowStep): VendorOutcome {
    Returned(true, false, if s in finders then Some("CKYC_EXISTING_RECORD") else None)
  }

  /** Some vendors of this nature lead a pass that begins without flags to a guard on an unknown flag. */
  predicate CanMeetUnknownFlag(groups: seq<seq<WorkflowStep>>, n: Nature) {
    Reaches(MeetsUnknownFlag, groups, None, n)
  }

  /** The walk decides exactly whether any vendors, completing in any order, can make a pass throw. */
  lemma UnknownFlagIff(steps: seq<WorkflowStep>)
    requires DistinctOrders(steps)
    ensures var groups := GroupSteps(SortByOrder(steps));
            (exists vendor, completion :: ValidCompletion(completion, groups) && Execute(steps, map[], vendor, completion).Err?)
            <==> CanMeetUnknownFlag(groups, ANYTHING)
  {
    var groups := GroupSteps(SortByOrder(steps));
    if vendor, completion :| ValidCompletion(completion, groups) && Execute(steps, map[], vendor, completion).Err? {
      PassMeansWalk(MeetsUnknownFlag, steps, vendor, completion, ANYTHING);
    }
    if CanMeetUnknownFlag(groups, ANYTHING) {
      var finders, completion := WalkMeansPass(MeetsUnknownFlag, steps, ANYTHING);
      var vendor: Vendor := s => Willing(finders, s);
      assert Realises(vendor, finders, ANYTHING);
      assert Execute(steps, map[], vendor, completion).Err?;
    }
  }

  /** What vendors of some nature can reach, vendors of which nothing is known can. */
  lemma {:induction false} ReachesAnyway(goal: Goal, groups: seq<seq<WorkflowStep>>, found: Option<bool>, n: Nature)
    requires Reaches(goal, groups, found, n)
    ensures Reaches(goal, groups, found, ANYTHING)
    decreases |groups|
  {
    if groups != [] && !(goal == MeetsUnknownFlag && GuardError(groups[0], FlagsOf(found)).Some?) {
      assert Clears(groups[0], found, ANYTHING);
      if MayLearn(groups[0], found, n, true) && Reaches(goal, groups[1..], Learnt(groups[0], found, true), n) {
        ReachesAnyway(goal, groups[1..], Learnt(groups[0], found, true), n);
        AnythingMayBeLearnt(groups[0], found);
      } else {
        ReachesAnyway(goal, groups[1..], Learnt(groups[0], found, false), n);
      }
    }
  }

  lemma AnythingMayBeLearnt(group: seq<WorkflowStep>, found: Option<bool>)
    ensures MayLearn(group, found, ANYTHING, true)
  {
    if Searches(group, found) {
      var i :| 0 <= i < |group| && IsSearch(group[i], found);
      assert IsFinder(group, found, ANYTHING, i);
    }
  }

  /** Established guards are one way to be safe. */
  lemma EstablishedMeansSafe(steps: seq<WorkflowStep>, n: Nature)
    requires DistinctOrders(steps) && GuardsEstablished(GroupSteps(SortByOrder(steps)))
    ensures !CanMeetUnknownFlag(GroupSteps(SortByOrder(steps)), n)
  {
    if CanMeetUnknownFlag(GroupSteps(SortByOrder(steps)), n) {
      ReachesAnyway(MeetsUnknownFlag, GroupSteps(SortByOrder(steps)), None, n);
      var finders, completion := WalkMeansPass(MeetsUnknownFlag, steps, ANYTHING);
      var vendor: Vendor := s => Willing(finders, s);
      assert Realises(vendor, finders, ANYTHING);
      NoGuardError(steps, map[], vendor, completion);
    }
  }

  // ---- Running to the end ----

  /** An unguarded manual or stalling step is never passed. */
  lemma {:induction false} UnguardedBlocks(groups: seq<seq<WorkflowStep>>, found: Option<bool>, n: Nature, g: nat, i: nat)
    requires g < |groups| && i < |groups[g]|
    requires !IsGuarded(groups[g][i].guardExpression) && (groups[g][i].isManualStep || n.stalls(groups[g][i]))
    ensures !Reaches(RunsToTheEnd, groups, found, n)
    decreases g
  {
    if g > 0 {
      assert groups[1..][g - 1] == groups[g];
      UnguardedBlocks(groups[1..], Learnt(groups[0], found, true), n, g - 1, i);
      UnguardedBlocks(groups[1..], Learnt(groups[0], found, false), n, g - 1, i);
    }
  }

  predicate AllGuardedOff(groups: seq<seq<WorkflowStep>>) {
    forall g, i :: 0 <= g < |groups| && 0 <= i < |groups[g]| ==> EvaluateGuard(groups[g][i].guardExpression, map[]) == Ok(false)
  }

  /** If no step ever goes on, only a workflow that runs no step at all comes to its end. */
  lemma {:induction false} NothingGoesOn(groups: seq<seq<WorkflowStep>>, n: Nature)
    requires forall s :: n.stalls(s)
    ensures Reaches(RunsToTheEnd, groups, None, n) <==> AllGuardedOff(groups)
    decreases |groups|
  {
    if groups != [] {
      GroupGuardedOff(groups[0], n);
      NothingGoesOn(groups[1..], n);
      var first := Clears(groups[0], None, n);
      assert AllGuardedOff(groups) <==> first && AllGuardedOff(groups[1..]) by {
        AllInFront(groups);
        hide Clears, AllGuardedOff;
      }
      hide Clears, AllGuardedOff, MayLearn;
    }
  }

  lemma AllInFront(groups: seq<seq<WorkflowStep>>)
    requires groups != []
    ensures AllGuardedOff(groups) <==>
            (forall i :: 0 <= i < |groups[0]| ==> EvaluateGuard(groups[0][i].guardExpression, map[]) == Ok(false)) && AllGuardedOff(groups[1..])
  {
    hide EvaluateGuard;
    forall g, i | 0 < g < |groups| && 0 <= i < |groups[g]| ensures groups[g][i] == groups[1..][g - 1][i] {}
    if AllGuardedOff(groups[1..]) && (forall i :: 0 <= i < |groups[0]| ==> EvaluateGuard(groups[0][i].guardExpression, map[]) == Ok(false)) {
      forall g, i | 0 <= g < |groups| && 0 <= i < |groups[g]| ensures EvaluateGuard(groups[g][i].guardExpression, map[]) == Ok(false) {
        if g > 0 {
          assert groups[g][i] == groups[1..][g - 1][i];
        }
      }
    }
  }

  lemma GroupGuardedOff(group: seq<WorkflowStep>, n: Nature)
    requires forall s :: n.stalls(s)
    ensures Clears(group, None, n) <==> forall i :: 0 <= i < |group| ==> EvaluateGuard(group[i].guardExpression, map[]) == Ok(false)
    ensures Clears(group, None, n) ==> !Searches(group, None)
  {
    NoErrorMeansNone(group, map[]);
    assert FlagsOf(None) == map[];
    hide EvaluateGuard, GuardError, FlagsOf;
    if Clears(group, None, n) {
      forall i | 0 <= i < |group| ensures EvaluateGuard(group[i].guardExpression, map[]) == Ok(false) {
        assert EvaluateGuard(group[i].guardExpression, map[]).Ok?;
        assert EvaluateGuard(group[i].guardExpression, map[]) != Ok(true);
      }
    }
  }
}
