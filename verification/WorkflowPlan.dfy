/** What a workflow configuration says: steps, guard expressions, execution order and parallel groups. */
module WorkflowPlan {
  import opened Common

  // ---- Guard expressions ----

  type Flags = map<string, bool>

  const CKYC_FOUND := "ckycRecordFound"
  const APPROVED := "complianceApproved"

  /** Names every JavaScript object answers to, with truthy values, although nobody set them. */
  const INHERITED: set<string> := {
    "constructor", "hasOwnProperty", "isPrototypeOf", "propertyIsEnumerable", "toLocaleString", "toString", "valueOf",
    "__proto__", "__defineGetter__", "__defineSetter__", "__lookupGetter__", "__lookupSetter__"}

  predicate IsSpace(c: char) {
    c == ' ' || '\t' <= c <= '\r' || c == '\U{00A0}' || c == '\U{1680}' || '\U{2000}' <= c <= '\U{200A}' ||
    c == '\U{2028}' || c == '\U{2029}' || c == '\U{202F}' || c == '\U{205F}' || c == '\U{3000}' || c == '\U{FEFF}'
  }

  function TrimStart(s: string): string {
    if s != [] && IsSpace(s[0]) then TrimStart(s[1..]) else s
  }

  function TrimEnd(s: string): string {
    if s != [] && IsSpace(s[|s| - 1]) then TrimEnd(s[..|s| - 1]) else s
  }

  function Trim(s: string): string {
    TrimEnd(TrimStart(s))
  }

  predicate IsNegated(expression: string) {
    Trim(expression) != [] && Trim(expression)[0] == '!'
  }

  function FlagName(expression: string): string {
    if IsNegated(expression) then Trim(expression)[1..] else Trim(expression)
  }

  /** A missing or empty expression is no guard. */
  predicate IsGuarded(expression: Option<string>) {
    expression.Some? && expression.value != ""
  }

  /** The value of a guard, or the name of the flag nobody defined. */
  function EvaluateGuard(expression: Option<string>, flags: Flags): Result<bool, string> {
    if !IsGuarded(expression) then Ok(true)
    else
      var name := FlagName(expression.value);
      if name in flags then Ok(flags[name] != IsNegated(expression.value))
      else if name in INHERITED then Ok(!IsNegated(expression.value))
      else Err(name)
  }

  predicate Blank(s: string) {
    forall c :: c in s ==> IsSpace(c)
  }

  lemma {:induction false} TrimStartPadded(pad: string, s: string)
    requires Blank(pad) && s != "" && !IsSpace(s[0])
    ensures TrimStart(pad + s) == s
  {
    hide IsSpace;
    if pad == "" {
      assert pad + s == s;
    } else {
      assert (pad + s)[1..] == pad[1..] + s;
      TrimStartPadded(pad[1..], s);
    }
  }

  lemma {:induction false} TrimEndPadded(s: string, pad: string)
    requires Blank(pad) && s != "" && !IsSpace(s[|s| - 1])
    ensures TrimEnd(s + pad) == s
  {
    hide IsSpace;
    if pad == "" {
      assert s + pad == s;
    } else {
      assert (s + pad)[..|s + pad| - 1] == s + pad[..|pad| - 1];
      TrimEndPadded(s, pad[..|pad| - 1]);
    }
  }

  lemma {:induction false} TrimStartBlank(s: string)
    ensures Blank(TrimStart(s)) <==> Blank(s)
    ensures TrimStart(s) == "" <==> Blank(s)
  {
    hide IsSpace;
    if s != "" && IsSpace(s[0]) {
      TrimStartBlank(s[1..]);
      assert s == [s[0]] + s[1..];
    }
  }

  lemma {:induction false} TrimEndBlank(s: string)
    ensures TrimEnd(s) == "" <==> Blank(s)
  {
    hide IsSpace;
    if s != "" && IsSpace(s[|s| - 1]) {
      TrimEndBlank(s[..|s| - 1]);
      assert s == s[..|s| - 1] + [s[|s| - 1]];
    }
  }

  lemma TrimBlank(s: string)
    ensures Trim(s) == "" <==> Blank(s)
  {
    TrimStartBlank(s);
    TrimEndBlank(TrimStart(s));
    hide IsSpace, Blank;
  }

  lemma TrimPadded(left: string, s: string, right: string)
    requires Blank(left) && Blank(right) && s != "" && !IsSpace(s[0]) && !IsSpace(s[|s| - 1])
    ensures Trim(left + s + right) == s
  {
    hide IsSpace, Blank;
    assert left + s + right == left + (s + right);
    TrimStartPadded(left, s + right);
    TrimEndPadded(s, right);
  }

  /**
   What a guard means: a flag's name stands for the flag's value and `!name`
   for its opposite, blanks around it do not matter, and a name that neither
   the flags nor every object know is an error.
   */
  lemma GuardValue(left: string, name: string, right: string, flags: Flags)
    requires Blank(left) && Blank(right)
    requires name != "" && name[0] != '!' && !IsSpace(name[0]) && !IsSpace(name[|name| - 1])
    ensures EvaluateGuard(None, flags) == EvaluateGuard(Some(""), flags) == Ok(true)
    ensures var (plain, negated) := (EvaluateGuard(Some(left + name + right), flags), EvaluateGuard(Some(left + "!" + name + right), flags));
            && (name in flags ==> plain == Ok(flags[name]) && negated == Ok(!flags[name]))
            && (name !in flags && name in INHERITED ==> plain == Ok(true) && negated == Ok(false))
            && (name !in flags && name !in INHERITED ==> plain == Err(name) && negated == Err(name))
  {
    assert left + "!" + name + right == left + ("!" + name) + right;
    assert !IsSpace('!');
    hide IsSpace, Blank, Trim, INHERITED, EvaluateGuard;
    TrimPadded(left, name, right);
    TrimPadded(left, "!" + name, right);
    PlainGuard(left + name + right, name, flags);
    NegatedGuard(left + "!" + name + right, name, flags);
    NoGuard(flags);
  }

  lemma NoGuard(flags: Flags)
    ensures EvaluateGuard(None, flags) == EvaluateGuard(Some(""), flags) == Ok(true)
  {}

  lemma PlainGuard(e: string, name: string, flags: Flags)
    requires Trim(e) == name && e != "" && name != "" && name[0] != '!'
    ensures EvaluateGuard(Some(e), flags) == if name in flags then Ok(flags[name]) else if name in INHERITED then Ok(true) else Err(name)
  {
    hide Trim, INHERITED;
  }

  lemma NegatedGuard(e: string, name: string, flags: Flags)
    requires Trim(e) == "!" + name && e != ""
    ensures EvaluateGuard(Some(e), flags) == if name in flags then Ok(!flags[name]) else if name in INHERITED then Ok(false) else Err(name)
  {
    hide Trim, INHERITED;
    assert ("!" + name)[0] == '!' && ("!" + name)[1..] == name;
  }

  // ---- Steps ----

  datatype WorkflowStep = WorkflowStep(
    stepName: string, vendorType: Option<string>, order: int, parallelGroup: Option<string>,
    guardExpression: Option<string>, isAsync: bool, isManualStep: bool)

  // ---- Ordering and grouping ----

  /** Stable insertion into a list ascending by order. */
  function InsertStep(sorted: seq<WorkflowStep>, s: WorkflowStep): seq<WorkflowStep> {
    if sorted == [] || sorted[|sorted| - 1].order <= s.order then sorted + [s]
    else InsertStep(sorted[..|sorted| - 1], s) + sorted[|sorted| - 1..]
  }

  /** A stable sort by `order`. */
  function SortByOrder(steps: seq<WorkflowStep>): seq<WorkflowStep> {
    if steps == [] then [] else InsertStep(SortByOrder(steps[..|steps| - 1]), steps[|steps| - 1])
  }

  predicate Ascending(steps: seq<WorkflowStep>) {
    forall i, j :: 0 <= i < j < |steps| ==> steps[i].order <= steps[j].order
  }

  lemma {:induction false} InsertPermutes(sorted: seq<WorkflowStep>, s: WorkflowStep)
    ensures multiset(InsertStep(sorted, s)) == multiset(sorted) + multiset{s}
    ensures forall t :: t in InsertStep(sorted, s) ==> t in sorted || t == s
  {
    if sorted != [] && sorted[|sorted| - 1].order > s.order {
      InsertPermutes(sorted[..|sorted| - 1], s);
      assert sorted == sorted[..|sorted| - 1] + sorted[|sorted| - 1..];
    }
  }

  lemma {:induction false} InsertAscends(sorted: seq<WorkflowStep>, s: WorkflowStep)
    requires Ascending(sorted)
    ensures Ascending(InsertStep(sorted, s))
  {
    if sorted != [] && sorted[|sorted| - 1].order > s.order {
      var front := sorted[..|sorted| - 1];
      InsertAscends(front, s);
      InsertPermutes(front, s);
      var inserted := InsertStep(front, s);
      forall i | 0 <= i < |inserted| ensures inserted[i].order <= sorted[|sorted| - 1].order {
        assert inserted[i] in inserted;
      }
    }
  }

  lemma {:induction false} SortIsSort(steps: seq<WorkflowStep>)
    ensures Ascending(SortByOrder(steps)) && multiset(SortByOrder(steps)) == multiset(steps)
  {
    if steps != [] {
      var front, last := steps[..|steps| - 1], steps[|steps| - 1];
      assert steps == front + [last] && SortByOrder(steps) == InsertStep(SortByOrder(front), last);
      hide InsertStep, SortByOrder, Ascending;
      SortIsSort(front);
      InsertPermutes(SortByOrder(front), last);
      InsertAscends(SortByOrder(front), last);
    }
  }

  /** The steps of one order value. */
  function OfOrder(steps: seq<WorkflowStep>, order: int): seq<WorkflowStep> {
    if steps == [] then []
    else OfOrder(steps[..|steps| - 1], order) + (if steps[|steps| - 1].order == order then steps[|steps| - 1..] else [])
  }

  lemma OfOrderSnoc(steps: seq<WorkflowStep>, s: WorkflowStep, order: int)
    ensures OfOrder(steps + [s], order) == OfOrder(steps, order) + (if s.order == order then [s] else [])
  {
    assert (steps + [s])[..|steps|] == steps && (steps + [s])[|steps|..] == [s];
  }

  lemma {:induction false} InsertIsStable(sorted: seq<WorkflowStep>, s: WorkflowStep, order: int)
    ensures OfOrder(InsertStep(sorted, s), order) == OfOrder(sorted, order) + (if s.order == order then [s] else [])
    decreases sorted
  {
    if sorted == [] || sorted[|sorted| - 1].order <= s.order {
      OfOrderSnoc(sorted, s, order);
    } else {
      var front, last := sorted[..|sorted| - 1], sorted[|sorted| - 1];
      assert sorted == front + [last] && InsertStep(sorted, s) == InsertStep(front, s) + [last];
      hide InsertStep, OfOrder;
      InsertIsStable(front, s, order);
      OfOrderSnoc(InsertStep(front, s), last, order);
      OfOrderSnoc(front, last, order);
    }
  }

  /** Steps of equal order keep the sequence of the configuration. */
  lemma {:induction false} SortIsStable(steps: seq<WorkflowStep>, order: int)
    ensures OfOrder(SortByOrder(steps), order) == OfOrder(steps, order)
  {
    if steps != [] {
      var front, last := steps[..|steps| - 1], steps[|steps| - 1];
      assert steps == front + [last] && SortByOrder(steps) == InsertStep(SortByOrder(front), last);
      hide InsertStep, SortByOrder, OfOrder;
      SortIsStable(front, order);
      InsertIsStable(SortByOrder(front), last, order);
      OfOrderSnoc(front, last, order);
    }
  }

  lemma {:induction false} SortedAlready(steps: seq<WorkflowStep>)
    requires Ascending(steps)
    ensures SortByOrder(steps) == steps
  {
    if steps != [] {
      SortedAlready(steps[..|steps| - 1]);
    }
  }

  /** Two neighbours share a parallel group; an empty name is no group. */
  predicate Together(a: WorkflowStep, b: WorkflowStep) {
    b.parallelGroup.Some? && b.parallelGroup.value != "" && a.parallelGroup == b.parallelGroup
  }

  function Last<T>(s: seq<T>): T
    requires s != []
  {
    s[|s| - 1]
  }

  function Joins(groups: seq<seq<WorkflowStep>>, s: WorkflowStep): bool {
    groups != [] && Last(groups) != [] && Together(Last(Last(groups)), s)
  }

  function GroupSteps(steps: seq<WorkflowStep>): seq<seq<WorkflowStep>> {
    if steps == [] then [] else Placed(GroupSteps(steps[..|steps| - 1]), Last(steps))
  }

  function Flatten<T>(groups: seq<seq<T>>): seq<T> {
    if groups == [] then [] else Flatten(groups[..|groups| - 1]) + Last(groups)
  }

  /** A partition into maximal runs of one parallel group. */
  predicate IsGrouping(steps: seq<WorkflowStep>, groups: seq<seq<WorkflowStep>>) {
    && Flatten(groups) == steps
    && (forall g :: 0 <= g < |groups| ==> groups[g] != [])
    && (forall g, i :: 0 <= g < |groups| && 0 < i < |groups[g]| ==> Together(groups[g][i - 1], groups[g][i]))
    && (forall g :: 0 < g < |groups| ==> !Together(Last(groups[g - 1]), groups[g][0]))
  }

  lemma FlattenSnoc<T>(groups: seq<seq<T>>, g: seq<T>)
    ensures Flatten(groups + [g]) == Flatten(groups) + g
  {
    assert (groups + [g])[..|groups|] == groups;
  }

  /** The groups once one more step has been placed. */
  function Placed(groups: seq<seq<WorkflowStep>>, s: WorkflowStep): seq<seq<WorkflowStep>> {
    if Joins(groups, s) then groups[..|groups| - 1] + [Last(groups) + [s]] else groups + [[s]]
  }

  lemma PlacedFlattens(groups: seq<seq<WorkflowStep>>, s: WorkflowStep)
    ensures Flatten(Placed(groups, s)) == Flatten(groups) + [s]
  {
    if Joins(groups, s) {
      FlattenSnoc(groups[..|groups| - 1], Last(groups) + [s]);
    } else {
      FlattenSnoc(groups, [s]);
    }
  }

  lemma PlacedIsGrouping(steps: seq<WorkflowStep>, groups: seq<seq<WorkflowStep>>, s: WorkflowStep)
    requires IsGrouping(steps, groups)
    ensures IsGrouping(steps + [s], Placed(groups, s))
  {
    PlacedFlattens(groups, s);
    hide Flatten, Together;
    var placed := Placed(groups, s);
    if Joins(groups, s) {
      var n := |groups| - 1;
      forall g, i | 0 <= g < |placed| && 0 < i < |placed[g]| ensures Together(placed[g][i - 1], placed[g][i]) {
        if g < n {
          assert placed[g] == groups[g];
        } else if i < |groups[n]| {
          assert placed[g][i - 1] == groups[n][i - 1] && placed[g][i] == groups[n][i];
        }
      }
      forall g | 0 < g < |placed| ensures !Together(Last(placed[g - 1]), placed[g][0]) {
        assert placed[g - 1] == groups[g - 1] && placed[g][0] == groups[g][0];
      }
    }
  }

  lemma {:induction false} GroupStepsPartitions(steps: seq<WorkflowStep>)
    ensures IsGrouping(steps, GroupSteps(steps))
  {
    if steps != [] {
      GroupStepsPartitions(steps[..|steps| - 1]);
      PlacedIsGrouping(steps[..|steps| - 1], GroupSteps(steps[..|steps| - 1]), Last(steps));
      assert steps == steps[..|steps| - 1] + [Last(steps)];
      hide IsGrouping, Placed;
    }
  }

  /** Inside a group neighbours carry the same nonempty group name; across a border they do not. */
  lemma GroupNames(steps: seq<WorkflowStep>, g: nat, i: nat)
    requires var groups := GroupSteps(steps);
             g < |groups| && i < |groups[g]|
    ensures var groups := GroupSteps(steps);
            var s := groups[g][i];
            && (i > 0 ==> s.parallelGroup.Some? && s.parallelGroup.value != "" && groups[g][i - 1].parallelGroup == s.parallelGroup)
            && (i == 0 && g > 0 ==>
                  && groups[g - 1] != []
                  && (s.parallelGroup.None? || s.parallelGroup.value == "" || groups[g - 1][|groups[g - 1]| - 1].parallelGroup != s.parallelGroup))
  {
    var groups := GroupSteps(steps);
    GroupStepsPartitions(steps);
    hide GroupSteps, Flatten;
    assert i > 0 ==> Together(groups[g][i - 1], groups[g][i]);
    assert g > 0 ==> !Together(Last(groups[g - 1]), groups[g][0]);
  }

  /** A partition without its very last step. */
  function Shrunk(groups: seq<seq<WorkflowStep>>): seq<seq<WorkflowStep>>
    requires groups != [] && Last(groups) != []
  {
    var init, g := groups[..|groups| - 1], Last(groups);
    if |g| == 1 then init else init + [g[..|g| - 1]]
  }

  lemma FlattenShrunk(groups: seq<seq<WorkflowStep>>)
    requires groups != [] && Last(groups) != []
    ensures Flatten(groups) == Flatten(Shrunk(groups)) + [Last(Last(groups))]
  {
    var init, g := groups[..|groups| - 1], Last(groups);
    FlattenSnoc(init, g[..|g| - 1]);
    assert g == g[..|g| - 1] + [Last(g)];
  }

  lemma ShrunkIsGrouping(steps: seq<WorkflowStep>, groups: seq<seq<WorkflowStep>>)
    requires IsGrouping(steps, groups) && groups != []
    ensures steps != [] && Last(steps) == Last(Last(groups))
    ensures IsGrouping(steps[..|steps| - 1], Shrunk(groups))
  {
    FlattenShrunk(groups);
    hide Flatten, Together;
    var shrunk, n := Shrunk(groups), |groups| - 1;
    forall g, i | 0 <= g < |shrunk| && 0 < i < |shrunk[g]| ensures Together(shrunk[g][i - 1], shrunk[g][i]) {
      assert shrunk[g][i - 1] == groups[g][i - 1] && shrunk[g][i] == groups[g][i];
    }
    forall g | 0 < g < |shrunk| ensures !Together(Last(shrunk[g - 1]), shrunk[g][0]) {
      assert shrunk[g - 1] == groups[g - 1] && shrunk[g][0] == groups[g][0];
    }
  }

  lemma Regrown(steps: seq<WorkflowStep>, groups: seq<seq<WorkflowStep>>)
    requires IsGrouping(steps, groups) && groups != []
    ensures var s := Last(Last(groups));
            groups == Placed(Shrunk(groups), s)
  {
    hide Flatten, Together;
    var init, g := groups[..|groups| - 1], Last(groups);
    assert groups == init + [g];
    if |g| == 1 {
      assert g == [Last(g)];
    } else {
      assert Together(g[|g| - 2], g[|g| - 1]);
      assert g == g[..|g| - 1] + [Last(g)];
      assert Shrunk(groups)[..|init|] == init;
    }
  }

  /** There is only one such partition. */
  lemma {:induction false} GroupingIsUnique(steps: seq<WorkflowStep>, groups: seq<seq<WorkflowStep>>)
    requires IsGrouping(steps, groups)
    ensures groups == GroupSteps(steps)
    decreases |steps|
  {
    if groups == [] {
      assert steps == [];
    } else {
      ShrunkIsGrouping(steps, groups);
      Regrown(steps, groups);
      GroupingIsUnique(steps[..|steps| - 1], Shrunk(groups));
    }
  }
}
