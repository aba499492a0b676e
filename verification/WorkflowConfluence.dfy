/** Parallel completions: when the order in which a group's vendor calls finish cannot be told from the outcome. */
module WorkflowConfluence {
  import opened WorkflowPlan
  import opened WorkflowEngine

  predicate IsHit(group: seq<WorkflowStep>, start: Flags, vendor: Vendor, i: int) {
    0 <= i < |group| && IsSearchHit(group[i], start, vendor)
  }

  /** All registry searches of the group that succeed say the same. */
  ghost predicate SearchesAgree(group: seq<WorkflowStep>, start: Flags, vendor: Vendor) {
    forall i, j :: IsHit(group, start, vendor, i) && IsHit(group, start, vendor, j) ==>
      RecordFound(group[i], vendor) == RecordFound(group[j], vendor)
  }

  lemma {:induction false} CompleteWhenAgreed(group: seq<WorkflowStep>, start: Flags, vendor: Vendor, order: seq<nat>)
    requires SearchesAgree(group, start, vendor)
    ensures (forall i :: i in order ==> !IsHit(group, start, vendor, i)) ==> Complete(group, start, vendor, order) == start
    ensures forall i :: i in order && IsHit(group, start, vendor, i) ==>
              Complete(group, start, vendor, order) == start[CKYC_FOUND := RecordFound(group[i], vendor)]
  {
    if order != [] {
      var front, last := order[..|order| - 1], Last(order);
      CompleteWhenAgreed(group, start, vendor, front);
      assert forall i :: i in order <==> i in front || i == last;
    }
  }

  lemma AgreedIsConfluent(group: seq<WorkflowStep>, start: Flags, vendor: Vendor, o1: seq<nat>, o2: seq<nat>)
    requires SearchesAgree(group, start, vendor) && IsOrder(o1, |group|) && IsOrder(o2, |group|)
    ensures Complete(group, start, vendor, o1) == Complete(group, start, vendor, o2)
  {
    CompleteWhenAgreed(group, start, vendor, o1);
    CompleteWhenAgreed(group, start, vendor, o2);
    if i :| i in o1 && IsHit(group, start, vendor, i) {
      assert i in o2;
    } else {
      assert forall i :: i in o2 ==> i in o1;
    }
  }

  /** All of 0..n, with i moved to the end. */
  function Finally(n: nat, i: nat): seq<nat>
    requires i < n
  {
    seq(n, k requires 0 <= k < n => if k < i then k else if k < n - 1 then k + 1 else i)
  }

  lemma FinallyIsOrder(n: nat, i: nat)
    requires i < n
    ensures IsOrder(Finally(n, i), n) && Last(Finally(n, i)) == i
  {
    var o := Finally(n, i);
    forall k: nat | k < n ensures k in o {
      if k < i {
        assert o[k] == k;
      } else if k == i {
        assert o[n - 1] == k;
      } else {
        assert o[k - 1] == k;
      }
    }
    forall k: nat | k in o ensures k < n {
      var j :| 0 <= j < |o| && o[j] == k;
    }
  }

  /** Every completion order of a group leaves the same flags exactly when its successful searches agree. */
  lemma GroupConfluentIff(group: seq<WorkflowStep>, start: Flags, vendor: Vendor)
    ensures (forall o1, o2 :: IsOrder(o1, |group|) && IsOrder(o2, |group|) ==>
               Complete(group, start, vendor, o1) == Complete(group, start, vendor, o2))
            <==> SearchesAgree(group, start, vendor)
  {
    if SearchesAgree(group, start, vendor) {
      forall o1, o2 | IsOrder(o1, |group|) && IsOrder(o2, |group|)
        ensures Complete(group, start, vendor, o1) == Complete(group, start, vendor, o2)
      {
        AgreedIsConfluent(group, start, vendor, o1, o2);
      }
    } else {
      var i, j :| IsHit(group, start, vendor, i) && IsHit(group, start, vendor, j)
                  && RecordFound(group[i], vendor) != RecordFound(group[j], vendor);
      FinallyIsOrder(|group|, i);
      FinallyIsOrder(|group|, j);
      assert Complete(group, start, vendor, Finally(|group|, i))[CKYC_FOUND] == RecordFound(group[i], vendor);
      assert Complete(group, start, vendor, Finally(|group|, j))[CKYC_FOUND] == RecordFound(group[j], vendor);
    }
  }

  predicate OneSearchPerGroup(groups: seq<seq<WorkflowStep>>) {
    forall g :: 0 <= g < |groups| ==> forall i, j :: 0 <= i < j < |groups[g]| ==>
      !(groups[g][i].stepName == "ckyc-search" && groups[g][j].stepName == "ckyc-search")
  }

  ghost predicate ValidCompletion(completion: nat -> seq<nat>, groups: seq<seq<WorkflowStep>>) {
    forall g :: 0 <= g < |groups| ==> IsOrder(completion(g), |groups[g]|)
  }

  lemma {:induction false} PassIsConfluent(w1: Setting, w2: Setting, flags: Flags, k: nat)
    requires w1.groups == w2.groups && w1.vendor == w2.vendor && k <= |w1.groups|
    requires OneSearchPerGroup(w1.groups)
    requires ValidCompletion(w1.completion, w1.groups) && ValidCompletion(w2.completion, w1.groups)
    ensures After(w1, flags, k) == After(w2, flags, k)
  {
    if k > 0 {
      PassIsConfluent(w1, w2, flags, k - 1);
      var p, group := After(w1, flags, k - 1), w1.groups[k - 1];
      assert SearchesAgree(group, p.flags, w1.vendor);
      AgreedIsConfluent(group, p.flags, w1.vendor, w1.completion(k - 1), w2.completion(k - 1));
      hide SearchesAgree, ValidCompletion, OneSearchPerGroup, Results, Complete, HaltsManually, Awaits, SomeFailed, GuardError, VendorCalls;
    }
  }

  /** With at most one registry search per group, whole passes agree — results, their order, calls and flags — under any completion orders. */
  lemma WorkflowIsConfluent(steps: seq<WorkflowStep>, flags: Flags, vendor: Vendor, c1: nat -> seq<nat>, c2: nat -> seq<nat>)
    requires OneSearchPerGroup(GroupSteps(SortByOrder(steps)))
    requires ValidCompletion(c1, GroupSteps(SortByOrder(steps))) && ValidCompletion(c2, GroupSteps(SortByOrder(steps)))
    ensures FinalPass(steps, flags, vendor, c1) == FinalPass(steps, flags, vendor, c2)
    ensures Execute(steps, flags, vendor, c1) == Execute(steps, flags, vendor, c2)
  {
    var w := SettingFor(steps, vendor, c1);
    PassIsConfluent(w, SettingFor(steps, vendor, c2), flags, |w.groups|);
  }
}
