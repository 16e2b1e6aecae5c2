/**
 * Shared budgets across a task tree (internal/controller/hierarchy_budget.go). A root task
 * may carry a hierarchy budget; every finished descendant adds its usage to the root's
 * counters, and once the budget is spent the still-running members of the tree are
 * cancelled. A namespace lookup is a map from task name to the stored task; a namespace
 * listing is a sequence of tasks in list order. Cost strings are parsed and rendered by
 * oracles (`strconv.ParseFloat`, `%.4f`, `%.6f`).
 */
module HierarchyBudget {
  import opened Wrappers
  import opened Strs
  import opened Api
  import Budget

  const MaxHierarchyDepth: nat := 10

  type Namespace = map<string, TaskObject>

  const DepthExceeded: string := "hierarchy depth exceeded max of " + NatToString(MaxHierarchyDepth)

  // ---------------------------------------------------------------------------------------
  // Finding the root
  // ---------------------------------------------------------------------------------------

  /** The `k`-th ancestor of `t`, following parent names through the namespace. */
  function Ancestor(ns: Namespace, t: TaskObject, k: nat): (r: Option<TaskObject>)
    ensures k == 0 ==> r == Some(t)
    decreases k
  {
    if k == 0 then Some(t)
    else match Ancestor(ns, t, k - 1)
         case None => None
         case Some(a) => if a.spec.parentTaskId != "" && a.spec.parentTaskId in ns then Some(ns[a.spec.parentTaskId]) else None
  }

  /** What `findRootTask` computes when `steps` loop iterations remain for `t`. */
  function RootWithin(ns: Namespace, t: TaskObject, steps: nat): (r: Result<TaskObject>)
    ensures r.Ok? ==> r.value.spec.parentTaskId == ""
    ensures steps == 0 ==> r == Err(DepthExceeded)
    ensures steps > 0 && t.spec.parentTaskId == "" ==> r == Ok(t)
    decreases steps
  {
    if steps == 0 then Err(DepthExceeded)
    else if t.spec.parentTaskId == "" then Ok(t)
    else if t.spec.parentTaskId !in ns then Err("failed to fetch parent " + t.spec.parentTaskId)
    else RootWithin(ns, ns[t.spec.parentTaskId], steps - 1)
  }

  /** `findRootTask`. */
  method FindRootTask(ns: Namespace, task: TaskObject) returns (r: Result<TaskObject>)
    ensures r == RootWithin(ns, task, MaxHierarchyDepth)
  {
    var current := task;
    var i := 0;
    while i < MaxHierarchyDepth
      invariant 0 <= i <= MaxHierarchyDepth
      invariant RootWithin(ns, current, MaxHierarchyDepth - i) == RootWithin(ns, task, MaxHierarchyDepth)
    {
      if current.spec.parentTaskId == "" {
        return Ok(current);
      }
      if current.spec.parentTaskId !in ns {
        return Err("failed to fetch parent " + current.spec.parentTaskId);
      }
      current := ns[current.spec.parentTaskId];
      i := i + 1;
    }
    return Err(DepthExceeded);
  }

  /** One step up: the ancestors of a task's parent are its own ancestors shifted by one. */
  lemma {:induction false} AncestorShift(ns: Namespace, t: TaskObject, k: nat)
    requires t.spec.parentTaskId != "" && t.spec.parentTaskId in ns
    ensures Ancestor(ns, t, k + 1) == Ancestor(ns, ns[t.spec.parentTaskId], k)
    decreases k
  {
    if k > 0 {
      AncestorShift(ns, t, k - 1);
    }
  }

  /** The `k`-th ancestor exists and has no parent. */
  predicate ParentlessAt(ns: Namespace, t: TaskObject, k: nat)
  {
    Ancestor(ns, t, k).Some? && Ancestor(ns, t, k).value.spec.parentTaskId == ""
  }

  /** The first `k` ancestors exist and all have parents. */
  predicate ParentedBelow(ns: Namespace, t: TaskObject, k: nat)
  {
    forall j :: 0 <= j < k ==> Ancestor(ns, t, j).Some? && Ancestor(ns, t, j).value.spec.parentTaskId != ""
  }

  /** The root found is the first ancestor without a parent, and it is found within `steps`
      steps exactly when such an ancestor sits at a depth below `steps`. */
  lemma {:induction false} RootIsFirstParentless(ns: Namespace, t: TaskObject, steps: nat)
    ensures RootWithin(ns, t, steps).Ok? <==> exists k :: 0 <= k < steps && ParentlessAt(ns, t, k)
    ensures RootWithin(ns, t, steps).Ok? ==>
              exists k :: 0 <= k < steps && Ancestor(ns, t, k) == Some(RootWithin(ns, t, steps).value) && ParentedBelow(ns, t, k)
    decreases steps
  {
    if steps == 0 {
    } else if t.spec.parentTaskId == "" {
      assert ParentlessAt(ns, t, 0);
      assert Ancestor(ns, t, 0) == Some(RootWithin(ns, t, steps).value) && ParentedBelow(ns, t, 0);
    } else if t.spec.parentTaskId !in ns {
      forall k | 0 <= k < steps ensures !ParentlessAt(ns, t, k) {
        if k > 0 { AncestorNoneAfter(ns, t, k); }
      }
    } else {
      var p := ns[t.spec.parentTaskId];
      RootIsFirstParentless(ns, p, steps - 1);
      if RootWithin(ns, p, steps - 1).Ok? {
        var k :| 0 <= k < steps - 1 && Ancestor(ns, p, k) == Some(RootWithin(ns, p, steps - 1).value) && ParentedBelow(ns, p, k);
        AncestorShift(ns, t, k);
        assert ParentlessAt(ns, t, k + 1);
        forall j | 0 <= j < k + 1 ensures Ancestor(ns, t, j).Some? && Ancestor(ns, t, j).value.spec.parentTaskId != "" {
          if j > 0 { AncestorShift(ns, t, j - 1); }
        }
        assert ParentedBelow(ns, t, k + 1);
      } else {
        forall k | 0 <= k < steps ensures !ParentlessAt(ns, t, k) {
          if k > 0 {
            AncestorShift(ns, t, k - 1);
            assert !ParentlessAt(ns, p, k - 1);
          }
        }
      }
    }
  }

  /** Past a missing parent there are no more ancestors. */
  lemma {:induction false} AncestorNoneAfter(ns: Namespace, t: TaskObject, k: nat)
    requires t.spec.parentTaskId != "" && t.spec.parentTaskId !in ns && k > 0
    ensures Ancestor(ns, t, k).None?
    decreases k
  {
    if k > 1 { AncestorNoneAfter(ns, t, k - 1); }
  }

  // ---------------------------------------------------------------------------------------
  // Checking the budget
  // ---------------------------------------------------------------------------------------

  /** The root's hierarchy token usage has reached its cap (exactly at the cap counts). */
  predicate TokensExhausted(root: TaskObject)
  {
    root.spec.hierarchyBudget.Some? && root.spec.hierarchyBudget.value.maxTokens.Some? &&
    root.status.hierarchyTokensUsed.Some? &&
    root.status.hierarchyTokensUsed.value.input + root.status.hierarchyTokensUsed.value.output >=
      root.spec.hierarchyBudget.value.maxTokens.value
  }

  /** The root's hierarchy cost has reached its cap; both strings must parse. */
  predicate CostExhausted(root: TaskObject, parseFloat: Budget.FloatParser)
  {
    root.spec.hierarchyBudget.Some? && root.spec.hierarchyBudget.value.maxCostUsd != "" &&
    root.status.hierarchyCostUsed != "" &&
    parseFloat(root.spec.hierarchyBudget.value.maxCostUsd).Some? &&
    parseFloat(root.status.hierarchyCostUsed).Some? &&
    parseFloat(root.status.hierarchyCostUsed).value >= parseFloat(root.spec.hierarchyBudget.value.maxCostUsd).value
  }

  /** `isHierarchyBudgetExceeded`: the token reason first, then the cost reason, else "". */
  function IsHierarchyBudgetExceeded(root: TaskObject, parseFloat: Budget.FloatParser, format4: Budget.CostFormatter): (r: string)
    ensures r != "" <==> TokensExhausted(root) || CostExhausted(root, parseFloat)
    ensures TokensExhausted(root) ==>
              var u := root.status.hierarchyTokensUsed.value;
              r == "hierarchy token budget exhausted: " + IntToString(u.input + u.output) + "/" +
                   IntToString(root.spec.hierarchyBudget.value.maxTokens.value)
    ensures !TokensExhausted(root) && CostExhausted(root, parseFloat) ==>
              r == "hierarchy cost budget exhausted: $" + format4(parseFloat(root.status.hierarchyCostUsed).value) +
                   "/$" + format4(parseFloat(root.spec.hierarchyBudget.value.maxCostUsd).value)
  {
    if root.spec.hierarchyBudget.None? then ""
    else
      var b := root.spec.hierarchyBudget.value;
      if b.maxTokens.Some? && root.status.hierarchyTokensUsed.Some? &&
         root.status.hierarchyTokensUsed.value.input + root.status.hierarchyTokensUsed.value.output >= b.maxTokens.value then
        var total := root.status.hierarchyTokensUsed.value.input + root.status.hierarchyTokensUsed.value.output;
        "hierarchy token budget exhausted: " + IntToString(total) + "/" + IntToString(b.maxTokens.value)
      else if b.maxCostUsd != "" && root.status.hierarchyCostUsed != "" then
        var maxCost := parseFloat(b.maxCostUsd);
        var usedCost := parseFloat(root.status.hierarchyCostUsed);
        if maxCost.Some? && usedCost.Some? && usedCost.value >= maxCost.value then
          "hierarchy cost budget exhausted: $" + format4(usedCost.value) + "/$" + format4(maxCost.value)
        else ""
      else ""
  }

  /** `checkHierarchyBudgetExhausted`: "" for a task without a parent, when the root cannot be
      found, or when the root has no hierarchy budget; otherwise the root's verdict. */
  function CheckHierarchyBudgetExhausted(ns: Namespace, task: TaskObject, parseFloat: Budget.FloatParser,
                                         format4: Budget.CostFormatter): (r: string)
    ensures task.spec.parentTaskId == "" ==> r == ""
    ensures RootWithin(ns, task, MaxHierarchyDepth).Err? ==> r == ""
    ensures RootWithin(ns, task, MaxHierarchyDepth).Ok? && RootWithin(ns, task, MaxHierarchyDepth).value.spec.hierarchyBudget.None? ==> r == ""
    ensures task.spec.parentTaskId != "" && RootWithin(ns, task, MaxHierarchyDepth).Ok? ==>
              r == IsHierarchyBudgetExceeded(RootWithin(ns, task, MaxHierarchyDepth).value, parseFloat, format4)
  {
    if task.spec.parentTaskId == "" then ""
    else match RootWithin(ns, task, MaxHierarchyDepth)
         case Err(_) => ""
         case Ok(root) => if root.spec.hierarchyBudget.None? then "" else IsHierarchyBudgetExceeded(root, parseFloat, format4)
  }

  /** A tree whose root's counted tokens sit exactly at the cap is already exhausted. */
  lemma AtHierarchyCap(root: TaskObject, parseFloat: Budget.FloatParser, format4: Budget.CostFormatter)
    requires root.spec.hierarchyBudget.Some? && root.spec.hierarchyBudget.value.maxTokens.Some?
    requires root.status.hierarchyTokensUsed.Some?
    requires root.status.hierarchyTokensUsed.value.input + root.status.hierarchyTokensUsed.value.output ==
             root.spec.hierarchyBudget.value.maxTokens.value
    ensures IsHierarchyBudgetExceeded(root, parseFloat, format4) != ""
  {
    assert TokensExhausted(root);
  }

  // ---------------------------------------------------------------------------------------
  // Adding a task's usage to the root
  // ---------------------------------------------------------------------------------------

  /** The root's counters after a finished task reports: tokens are added (from 0 when the
      root had none yet) and a parseable cost is added to the existing one (0 when absent or
      unparseable). Nothing else in the status changes. */
  function AddUsage(root: TaskStatus, task: TaskStatus, parseFloat: Budget.FloatParser, format6: Budget.CostFormatter): (r: TaskStatus)
    ensures r.hierarchyTokensUsed.Some?
    ensures var before := if root.hierarchyTokensUsed.Some? then root.hierarchyTokensUsed.value else TokenUsage(0, 0);
            var added := if task.tokensUsed.Some? then task.tokensUsed.value else TokenUsage(0, 0);
            r.hierarchyTokensUsed.value == TokenUsage(before.input + added.input, before.output + added.output)
    ensures task.estimatedCostUsd == "" || parseFloat(task.estimatedCostUsd).None? ==> r.hierarchyCostUsed == root.hierarchyCostUsed
    ensures task.estimatedCostUsd != "" && parseFloat(task.estimatedCostUsd).Some? ==>
              r.hierarchyCostUsed == format6(ExistingCost(root.hierarchyCostUsed, parseFloat) + parseFloat(task.estimatedCostUsd).value)
    ensures r.(hierarchyTokensUsed := root.hierarchyTokensUsed, hierarchyCostUsed := root.hierarchyCostUsed) == root
  {
    var before := if root.hierarchyTokensUsed.Some? then root.hierarchyTokensUsed.value else TokenUsage(0, 0);
    var tokens := if task.tokensUsed.Some? then TokenUsage(before.input + task.tokensUsed.value.input, before.output + task.tokensUsed.value.output)
                  else before;
    var cost := if task.estimatedCostUsd != "" && parseFloat(task.estimatedCostUsd).Some? then
                  format6(ExistingCost(root.hierarchyCostUsed, parseFloat) + parseFloat(task.estimatedCostUsd).value)
                else root.hierarchyCostUsed;
    root.(hierarchyTokensUsed := Some(tokens), hierarchyCostUsed := cost)
  }

  /** The cost already counted: 0 when empty; Go ignores the parse error, which leaves 0. */
  function ExistingCost(s: string, parseFloat: Budget.FloatParser): (c: real)
    ensures s == "" || parseFloat(s).None? ==> c == 0.0
  { if s != "" && parseFloat(s).Some? then parseFloat(s).value else 0.0 }

  /** Two reports in a row add up: the counters are additive. */
  lemma AddUsageAdditive(root: TaskStatus, t1: TaskStatus, t2: TaskStatus, parseFloat: Budget.FloatParser, format6: Budget.CostFormatter)
    requires t1.tokensUsed.Some? && t2.tokensUsed.Some?
    ensures var r := AddUsage(AddUsage(root, t1, parseFloat, format6), t2, parseFloat, format6);
            var before := if root.hierarchyTokensUsed.Some? then root.hierarchyTokensUsed.value else TokenUsage(0, 0);
            r.hierarchyTokensUsed.value.input == before.input + t1.tokensUsed.value.input + t2.tokensUsed.value.input &&
            r.hierarchyTokensUsed.value.output == before.output + t1.tokensUsed.value.output + t2.tokensUsed.value.output
  {}

  /** When the parser reads the formatted sum back, the root's counted cost after a report
      is the cost counted before plus the task's parseable cost. */
  lemma AddUsageCostAdds(root: TaskStatus, task: TaskStatus, parseFloat: Budget.FloatParser, format6: Budget.CostFormatter)
    requires task.estimatedCostUsd != "" && parseFloat(task.estimatedCostUsd).Some?
    requires var sum := ExistingCost(root.hierarchyCostUsed, parseFloat) + parseFloat(task.estimatedCostUsd).value;
             format6(sum) != "" && parseFloat(format6(sum)) == Some(sum)
    ensures ExistingCost(AddUsage(root, task, parseFloat, format6).hierarchyCostUsed, parseFloat) ==
            ExistingCost(root.hierarchyCostUsed, parseFloat) + parseFloat(task.estimatedCostUsd).value
  {
    var sum := ExistingCost(root.hierarchyCostUsed, parseFloat) + parseFloat(task.estimatedCostUsd).value;
    assert AddUsage(root, task, parseFloat, format6).hierarchyCostUsed == format6(sum);
    assert parseFloat(format6(sum)) == Some(sum);
  }

  /** Reports with non-negative counts never lower the root's token counters. */
  lemma AddUsageMonotone(root: TaskStatus, task: TaskStatus, parseFloat: Budget.FloatParser, format6: Budget.CostFormatter)
    requires root.hierarchyTokensUsed.Some?
    requires task.tokensUsed.Some? ==> task.tokensUsed.value.input >= 0 && task.tokensUsed.value.output >= 0
    ensures AddUsage(root, task, parseFloat, format6).hierarchyTokensUsed.value.input >= root.hierarchyTokensUsed.value.input
    ensures AddUsage(root, task, parseFloat, format6).hierarchyTokensUsed.value.output >= root.hierarchyTokensUsed.value.output
  {}

  // ---------------------------------------------------------------------------------------
  // Cancelling the tree
  // ---------------------------------------------------------------------------------------

  /** `t` names a known tree member as its parent. */
  predicate ChildOfMember(t: TaskObject, members: set<string>)
  {
    t.spec.parentTaskId != "" && t.spec.parentTaskId in members
  }

  /** One pass of the member loop over the listing: a task whose parent is already a member
      becomes one, and later tasks in the same pass see the growth. */
  function Pass(items: seq<TaskObject>, members: set<string>): (r: set<string>)
    ensures members <= r
    decreases |items|
  {
    if items == [] then members
    else
      var t := items[0];
      Pass(items[1..], if ChildOfMember(t, members) && t.name !in members then members + {t.name} else members)
  }

  /** Up to `passes` passes, stopping at the first one that adds nothing. */
  function Grow(items: seq<TaskObject>, members: set<string>, passes: nat): (r: set<string>)
    ensures members <= r
    decreases passes
  {
    if passes == 0 then members
    else
      var next := Pass(items, members);
      if next == members then members else Grow(items, next, passes - 1)
  }

  /** The tree members `cancelDescendants` collects from the listing. */
  function TreeMembers(items: seq<TaskObject>, rootName: string): (r: set<string>)
    ensures rootName in r
  { Grow(items, {rootName}, MaxHierarchyDepth) }

  /** Every child of a member is a member. */
  predicate ClosedUnderChildren(items: seq<TaskObject>, s: set<string>)
  {
    forall i :: 0 <= i < |items| && ChildOfMember(items[i], s) ==> items[i].name in s
  }

  /** A pass adds only children of members: it stays inside every child-closed superset. */
  lemma {:induction false} PassWithin(items: seq<TaskObject>, members: set<string>, s: set<string>)
    requires members <= s && ClosedUnderChildren(items, s)
    ensures Pass(items, members) <= s
    decreases |items|
  {
    if items != [] {
      var t := items[0];
      var m1 := if ChildOfMember(t, members) && t.name !in members then members + {t.name} else members;
      assert ClosedUnderChildren(items[1..], s) by {
        forall i | 0 <= i < |items[1..]| && ChildOfMember(items[1..][i], s) ensures items[1..][i].name in s {
          assert items[1..][i] == items[i + 1];
        }
      }
      if ChildOfMember(t, members) { assert items[0].name in s; }
      PassWithin(items[1..], m1, s);
    }
  }

  /** Passes stay inside every child-closed superset. */
  lemma {:induction false} GrowWithin(items: seq<TaskObject>, members: set<string>, s: set<string>, passes: nat)
    requires members <= s && ClosedUnderChildren(items, s)
    ensures Grow(items, members, passes) <= s
    decreases passes
  {
    if passes > 0 {
      PassWithin(items, members, s);
      GrowWithin(items, Pass(items, members), s, passes - 1);
    }
  }

  /** A pass takes in every child of a member it starts with. */
  lemma {:induction false} PassTakesChildren(items: seq<TaskObject>, members: set<string>, i: nat)
    requires i < |items| && ChildOfMember(items[i], members)
    ensures items[i].name in Pass(items, members)
    decreases |items|
  {
    var t := items[0];
    var m1 := if ChildOfMember(t, members) && t.name !in members then members + {t.name} else members;
    if i == 0 {
      assert t.name in m1;
    } else {
      assert items[1..][i - 1] == items[i];
      PassTakesChildren(items[1..], m1, i - 1);
    }
  }

  /** The members are the descendants of the root: they sit inside every child-closed set
      holding the root, and once a pass adds nothing they are child-closed themselves. */
  lemma TreeMembersAreDescendants(items: seq<TaskObject>, rootName: string, s: set<string>)
    requires rootName in s && ClosedUnderChildren(items, s)
    ensures TreeMembers(items, rootName) <= s
  {
    GrowWithin(items, {rootName}, s, MaxHierarchyDepth);
  }

  lemma FixpointClosed(items: seq<TaskObject>, members: set<string>)
    requires Pass(items, members) == members
    ensures ClosedUnderChildren(items, members)
  {
    forall i | 0 <= i < |items| && ChildOfMember(items[i], members) ensures items[i].name in members {
      PassTakesChildren(items, members, i);
    }
  }

  /** The cancelled form of a tree member. */
  function CancelledTask(t: TaskObject, reason: string, now: Time): (r: TaskObject)
    ensures r.status.phase == Cancelled && r.status.message == "Hierarchy budget exceeded: " + reason
    ensures r.status.completedAt == Some(now)
    ensures r.(status := t.status) == t
  { t.(status := Complete(t.status.(phase := Cancelled, message := "Hierarchy budget exceeded: " + reason), now)) }

  /** A listed task the cancellation applies to: a member other than the root, not yet finished. */
  predicate ToCancel(t: TaskObject, rootName: string, members: set<string>)
  {
    t.name != rootName && t.name in members && !IsTerminalPhase(t.status.phase)
  }

  /** The member loop of `cancelDescendants`. */
  method CollectMembers(items: seq<TaskObject>, rootName: string) returns (members: set<string>)
    ensures members == TreeMembers(items, rootName)
  {
    members := {rootName};
    var pass := 0;
    while pass < MaxHierarchyDepth
      invariant 0 <= pass <= MaxHierarchyDepth
      invariant Grow(items, members, MaxHierarchyDepth - pass) == TreeMembers(items, rootName)
    {
      ghost var start := members;
      var changed := false;
      for i := 0 to |items|
        invariant Pass(items[i..], members) == Pass(items, start)
        invariant start <= members && (changed <==> members != start)
      {
        var t := items[i];
        assert items[i..] == [t] + items[i + 1..];
        if t.spec.parentTaskId != "" && t.spec.parentTaskId in members && t.name !in members {
          members := members + {t.name};
          changed := true;
        }
      }
      assert items[|items|..] == [];
      if !changed {
        break;
      }
      pass := pass + 1;
    }
  }

  /** `cancelDescendants` over the namespace listing: the result is the listing with every
      non-terminal member other than the root cancelled. */
  method CancelDescendants(items: seq<TaskObject>, rootName: string, reason: string, now: Time) returns (out: seq<TaskObject>)
    ensures |out| == |items|
    ensures forall i :: 0 <= i < |items| ==>
              out[i] == if ToCancel(items[i], rootName, TreeMembers(items, rootName)) then CancelledTask(items[i], reason, now) else items[i]
  {
    var members := CollectMembers(items, rootName);
    out := [];
    for i := 0 to |items|
      invariant |out| == i
      invariant forall j :: 0 <= j < i ==>
                  out[j] == if ToCancel(items[j], rootName, members) then CancelledTask(items[j], reason, now) else items[j]
    {
      var t := items[i];
      if t.name == rootName || t.name !in members || IsTerminalPhase(t.status.phase) {
        out := out + [t];
      } else {
        out := out + [CancelledTask(t, reason, now)];
      }
    }
  }

  /** Cancellation never touches the root, a finished task, or a task outside the root's
      child-closed descendants; whatever it touches ends up Cancelled. */
  lemma CancelTouchesOnlyLiveDescendants(items: seq<TaskObject>, rootName: string, reason: string, now: Time,
                                         s: set<string>, i: nat)
    requires rootName in s && ClosedUnderChildren(items, s)
    requires i < |items|
    requires items[i].name == rootName || IsTerminalPhase(items[i].status.phase) || items[i].name !in s
    ensures !ToCancel(items[i], rootName, TreeMembers(items, rootName))
  {
    TreeMembersAreDescendants(items, rootName, s);
  }

  // ---------------------------------------------------------------------------------------
  // The whole update
  // ---------------------------------------------------------------------------------------

  /** The root `updateHierarchyBudget` writes back: the task's root within the depth limit with
      the task's usage added, when the task belongs to a hierarchy and that root has a
      hierarchy budget; None when nothing is written. */
  function UpdatedRoot(ns: Namespace, task: TaskObject, parseFloat: Budget.FloatParser, format6: Budget.CostFormatter): (r: Option<TaskObject>)
    ensures r.Some? ==> RootWithin(ns, task, MaxHierarchyDepth).Ok? && RootWithin(ns, task, MaxHierarchyDepth).value.spec.hierarchyBudget.Some?
    ensures r.Some? ==> r.value.name == RootWithin(ns, task, MaxHierarchyDepth).value.name
  {
    if task.spec.parentTaskId == "" && task.spec.hierarchyBudget.None? then None
    else match RootWithin(ns, task, MaxHierarchyDepth)
         case Err(_) => None
         case Ok(found) =>
           if found.spec.hierarchyBudget.None? then None
           else Some(found.(status := AddUsage(found.status, task.status, parseFloat, format6)))
  }

  /** The listing after the update: unchanged unless a written root is over its hierarchy
      budget, in which case its live descendants are cancelled with that reason. */
  function UpdatedListing(listing: seq<TaskObject>, root: Option<TaskObject>, parseFloat: Budget.FloatParser,
                          format4: Budget.CostFormatter, now: Time): (r: seq<TaskObject>)
    ensures |r| == |listing|
    ensures root.None? ==> r == listing
  {
    if root.None? || IsHierarchyBudgetExceeded(root.value, parseFloat, format4) == "" then listing
    else
      var reason := IsHierarchyBudgetExceeded(root.value, parseFloat, format4);
      var members := TreeMembers(listing, root.value.name);
      seq(|listing|, i requires 0 <= i < |listing| =>
        if ToCancel(listing[i], root.value.name, members) then CancelledTask(listing[i], reason, now) else listing[i])
  }

  /** `updateHierarchyBudget`: the root as written back (None when nothing is written) and
      the namespace listing after any cancellation. Writing the status is taken to succeed. */
  method UpdateHierarchyBudget(ns: Namespace, task: TaskObject, listing: seq<TaskObject>, now: Time,
                               parseFloat: Budget.FloatParser, format4: Budget.CostFormatter, format6: Budget.CostFormatter)
    returns (root: Option<TaskObject>, tasks: seq<TaskObject>)
    ensures task.spec.parentTaskId == "" && task.spec.hierarchyBudget.None? ==> root == None && tasks == listing
    ensures RootWithin(ns, task, MaxHierarchyDepth).Err? ==> root == None && tasks == listing
    ensures RootWithin(ns, task, MaxHierarchyDepth).Ok? && RootWithin(ns, task, MaxHierarchyDepth).value.spec.hierarchyBudget.None? ==>
              root == None && tasks == listing
    ensures (task.spec.parentTaskId != "" || task.spec.hierarchyBudget.Some?) &&
            RootWithin(ns, task, MaxHierarchyDepth).Ok? && RootWithin(ns, task, MaxHierarchyDepth).value.spec.hierarchyBudget.Some? ==>
              var found := RootWithin(ns, task, MaxHierarchyDepth).value;
              root == Some(found.(status := AddUsage(found.status, task.status, parseFloat, format6)))
    ensures root.Some? ==>
              var found := RootWithin(ns, task, MaxHierarchyDepth).value;
              found.spec.hierarchyBudget.Some? &&
              root.value == found.(status := AddUsage(found.status, task.status, parseFloat, format6))
    ensures root.Some? && IsHierarchyBudgetExceeded(root.value, parseFloat, format4) == "" ==> tasks == listing
    ensures root.Some? && IsHierarchyBudgetExceeded(root.value, parseFloat, format4) != "" ==>
              |tasks| == |listing| &&
              forall i :: 0 <= i < |listing| ==>
                tasks[i] == if ToCancel(listing[i], root.value.name, TreeMembers(listing, root.value.name))
                            then CancelledTask(listing[i], IsHierarchyBudgetExceeded(root.value, parseFloat, format4), now)
                            else listing[i]
    ensures root == UpdatedRoot(ns, task, parseFloat, format6)
    ensures tasks == UpdatedListing(listing, root, parseFloat, format4, now)
  {
    if task.spec.parentTaskId == "" && task.spec.hierarchyBudget.None? {
      return None, listing;
    }
    var found := FindRootTask(ns, task);
    if found.Err? {
      return None, listing;
    }
    var r := found.value;
    if r.spec.hierarchyBudget.None? {
      return None, listing;
    }
    r := r.(status := AddUsage(r.status, task.status, parseFloat, format6));
    root := Some(r);
    var reason := IsHierarchyBudgetExceeded(r, parseFloat, format4);
    if reason != "" {
      tasks := CancelDescendants(listing, r.name, reason, now);
    } else {
      tasks := listing;
    }
  }
}
