/**
 * AgentPolicy admission in the reconciler (internal/controller/policy.go): every policy in
 * the namespace must admit a task, checked in list order, and the first violation is the
 * reason the task is refused. Shell command lists and the read-only workspace flag are
 * merged across policies for the agent pod. Image globs (`path.Match`) and cost parsing
 * (`strconv.ParseFloat`) are oracles; a failed namespace listing is `None`.
 */
module Policy {
  import opened Wrappers
  import opened Strs
  import opened Api
  import Budget
  import ControllerHelpers

  /** `path.Match(pattern, name)`, true when the glob matches. */
  type GlobMatcher = (string, string) -> bool

  datatype PolicySpec = PolicySpec(
    allowedCapabilities: seq<string>,
    deniedCapabilities: seq<string>,
    allowedImages: seq<string>,
    maxBudget: Option<BudgetSpec>,
    maxTimeout: Option<int>,
    maxTier: string,
    maxConcurrentTasks: Option<int>,
    allowedShellCommands: seq<string>,
    deniedShellCommands: seq<string>,
    readOnlyWorkspace: bool)

  datatype AgentPolicy = AgentPolicy(name: string, spec: PolicySpec)

  /** `tierRank` of the reconciler: legionary 1, centurion 2, tribune 3, anything else 0. */
  function TierRank(tier: string): (r: int)
    ensures tier == "legionary" ==> r == 1
    ensures tier == "centurion" ==> r == 2
    ensures tier == "tribune" ==> r == 3
    ensures tier != "legionary" && tier != "centurion" && tier != "tribune" ==> r == 0
  {
    if tier == "legionary" then 1 else if tier == "centurion" then 2 else if tier == "tribune" then 3 else 0
  }

  /** The ranks order the three tiers strictly, and an unknown tier ranks below all of them. */
  lemma TierOrder(t: string)
    ensures TierRank("legionary") < TierRank("centurion") < TierRank("tribune")
    ensures t != "legionary" && t != "centurion" && t != "tribune" ==> TierRank(t) < TierRank("legionary")
  {}

  function Quote(s: string): string { "\"" + s + "\"" }

  /** The first entry of `xs` whose membership in `s` is `member`. */
  function FirstWhere(xs: seq<string>, s: set<string>, member: bool): (r: Option<string>)
    ensures r.None? <==> forall x :: x in xs ==> (x in s) != member
    ensures r.Some? ==> exists i :: 0 <= i < |xs| && xs[i] == r.value && (r.value in s) == member &&
                                    forall j :: 0 <= j < i ==> (xs[j] in s) != member
  {
    if xs == [] then None
    else if (xs[0] in s) == member then
      assert xs[0] == xs[0];
      Some(xs[0])
    else
      var rest := FirstWhere(xs[1..], s, member);
      assert forall x :: x in xs[1..] ==> x in xs;
      assert forall x :: x in xs ==> x == xs[0] || x in xs[1..];
      if rest.Some? then
        var i :| 0 <= i < |xs[1..]| && xs[1..][i] == rest.value && (rest.value in s) == member &&
                 forall j :: 0 <= j < i ==> (xs[1..][j] in s) != member;
        assert xs[i + 1] == rest.value;
        assert forall j :: 0 <= j < i + 1 ==> (xs[j] in s) != member by {
          forall j | 0 <= j < i + 1 ensures (xs[j] in s) != member {
            if j > 0 { assert xs[j] == xs[1..][j - 1]; }
          }
        }
        rest
      else rest
  }

  /** The tasks the listing shows as Running. */
  function RunningCount(tasks: seq<TaskObject>): (n: nat)
    ensures n <= |tasks|
  {
    if tasks == [] then 0 else RunningCount(tasks[..|tasks| - 1]) + (if tasks[|tasks| - 1].status.phase == Running then 1 else 0)
  }

  /** The image a task runs: its own, or the cluster default. */
  function EffectiveImage(spec: TaskSpec, defaultImage: string): string
  { if spec.image == "" then defaultImage else spec.image }

  /** The tier a task runs at: an empty tier is legionary. */
  function EffectiveTier(spec: TaskSpec): string
  { if spec.tier == "" then "legionary" else spec.tier }

  /** Everything one policy demands of a task, stated per capability and per limit. */
  predicate Admits(p: PolicySpec, spec: TaskSpec, defaultImage: string, tasks: Option<seq<TaskObject>>,
                   glob: GlobMatcher, parseFloat: Budget.FloatParser)
  {
    (forall c :: c in spec.capabilities ==> c !in p.deniedCapabilities) &&
    (|p.allowedCapabilities| > 0 ==> forall c :: c in spec.capabilities ==> c in p.allowedCapabilities) &&
    (|p.allowedImages| > 0 ==> exists pat :: pat in p.allowedImages && glob(pat, EffectiveImage(spec, defaultImage))) &&
    WithinLimits(p, spec, tasks, parseFloat)
  }

  /** The budget, timeout, tier and concurrency demands of one policy. */
  predicate WithinLimits(p: PolicySpec, spec: TaskSpec, tasks: Option<seq<TaskObject>>, parseFloat: Budget.FloatParser)
  {
    TokensWithin(p, spec) && CostWithin(p, spec, parseFloat) && TimeoutWithin(p, spec) && TierWithin(p, spec) &&
    ConcurrencyWithin(p, tasks)
  }

  predicate TokensWithin(p: PolicySpec, spec: TaskSpec)
  {
    p.maxBudget.Some? && spec.budget.Some? && p.maxBudget.value.maxTokens.Some? && spec.budget.value.maxTokens.Some? ==>
      spec.budget.value.maxTokens.value <= p.maxBudget.value.maxTokens.value
  }

  /** Only a cost both sides give and both parse is compared. */
  predicate CostWithin(p: PolicySpec, spec: TaskSpec, parseFloat: Budget.FloatParser)
  {
    p.maxBudget.Some? && spec.budget.Some? && p.maxBudget.value.maxCostUsd != "" && spec.budget.value.maxCostUsd != "" &&
    parseFloat(p.maxBudget.value.maxCostUsd).Some? && parseFloat(spec.budget.value.maxCostUsd).Some? ==>
      parseFloat(spec.budget.value.maxCostUsd).value <= parseFloat(p.maxBudget.value.maxCostUsd).value
  }

  predicate TimeoutWithin(p: PolicySpec, spec: TaskSpec)
  { p.maxTimeout.Some? && spec.timeout.Some? ==> spec.timeout.value <= p.maxTimeout.value }

  predicate TierWithin(p: PolicySpec, spec: TaskSpec)
  { p.maxTier != "" ==> TierRank(EffectiveTier(spec)) <= TierRank(p.maxTier) }

  /** The running count is compared only when the task listing succeeded. */
  predicate ConcurrencyWithin(p: PolicySpec, tasks: Option<seq<TaskObject>>)
  { p.maxConcurrentTasks.Some? && tasks.Some? ==> RunningCount(tasks.value) < p.maxConcurrentTasks.value }

  /** The violation one policy reports, checks in the source's order, "" when it admits. */
  function PolicyViolation(pol: AgentPolicy, spec: TaskSpec, defaultImage: string, tasks: Option<seq<TaskObject>>,
                           glob: GlobMatcher, parseFloat: Budget.FloatParser): (r: string)
    ensures r == "" <==> Admits(pol.spec, spec, defaultImage, tasks, glob, parseFloat)
    ensures FirstWhere(spec.capabilities, (set c | c in pol.spec.deniedCapabilities), true).Some? ==>
              r == "capability " + Quote(FirstWhere(spec.capabilities, (set c | c in pol.spec.deniedCapabilities), true).value) +
                   " is denied by policy " + pol.name
  {
    var p := pol.spec;
    var denied := set c | c in p.deniedCapabilities;
    var allowed := set c | c in p.allowedCapabilities;
    var image := EffectiveImage(spec, defaultImage);
    var firstDenied := FirstWhere(spec.capabilities, denied, true);
    var firstOutside := FirstWhere(spec.capabilities, allowed, false);
    if |p.deniedCapabilities| > 0 && firstDenied.Some? then
      "capability " + Quote(firstDenied.value) + " is denied by policy " + pol.name
    else if |p.allowedCapabilities| > 0 && firstOutside.Some? then
      "capability " + Quote(firstOutside.value) + " is not allowed by policy " + pol.name
    else if |p.allowedImages| > 0 && !(exists pat :: pat in p.allowedImages && glob(pat, image)) then
      "image " + Quote(image) + " is not allowed by policy " + pol.name
    else LimitViolation(pol, spec, tasks, parseFloat)
  }

  /** The budget, timeout, tier and concurrency checks, in the source's order, "" when all pass. */
  function LimitViolation(pol: AgentPolicy, spec: TaskSpec, tasks: Option<seq<TaskObject>>, parseFloat: Budget.FloatParser): (r: string)
    ensures r == "" <==> WithinLimits(pol.spec, spec, tasks, parseFloat)
  {
    var p := pol.spec;
    var tier := EffectiveTier(spec);
    if !TokensWithin(p, spec) then
      "token budget " + IntToString(spec.budget.value.maxTokens.value) + " exceeds policy " + pol.name +
      " limit of " + IntToString(p.maxBudget.value.maxTokens.value)
    else if !CostWithin(p, spec, parseFloat) then
      "cost budget " + spec.budget.value.maxCostUsd + " exceeds policy " + pol.name + " limit of " + p.maxBudget.value.maxCostUsd
    else if !TimeoutWithin(p, spec) then
      "timeout " + IntToString(spec.timeout.value) + " exceeds policy " + pol.name + " limit of " + IntToString(p.maxTimeout.value)
    else if !TierWithin(p, spec) then
      "tier " + Quote(tier) + " exceeds policy " + pol.name + " max tier " + Quote(p.maxTier)
    else if !ConcurrencyWithin(p, tasks) then
      "namespace has " + IntToString(RunningCount(tasks.value)) + " running tasks, policy " + pol.name +
      " limits to " + IntToString(p.maxConcurrentTasks.value)
    else ""
  }

  /** The first non-empty verdict of `f` along `xs`, "" when there is none. */
  function FirstBy<T>(xs: seq<T>, f: T -> string): (r: string)
    ensures r == "" <==> forall i :: 0 <= i < |xs| ==> f(xs[i]) == ""
    ensures r != "" ==> exists i :: 0 <= i < |xs| && r == f(xs[i]) && forall j :: 0 <= j < i ==> f(xs[j]) == ""
  {
    if xs == [] then ""
    else if f(xs[0]) != "" then f(xs[0])
    else
      var rest := FirstBy(xs[1..], f);
      assert forall i :: 1 <= i < |xs| ==> xs[i] == xs[1..][i - 1];
      if rest != "" then
        var i :| 0 <= i < |xs[1..]| && rest == f(xs[1..][i]) && forall j :: 0 <= j < i ==> f(xs[1..][j]) == "";
        assert rest == f(xs[i + 1]);
        rest
      else rest
  }

  /** One policy's verdict, as the loop asks it. */
  function ViolationOf(spec: TaskSpec, defaultImage: string, tasks: Option<seq<TaskObject>>,
                       glob: GlobMatcher, parseFloat: Budget.FloatParser): AgentPolicy -> string
  {
    pol => PolicyViolation(pol, spec, defaultImage, tasks, glob, parseFloat)
  }

  /** The first violation in policy order, "" when every policy admits the task. */
  function FirstViolation(policies: seq<AgentPolicy>, spec: TaskSpec, defaultImage: string, tasks: Option<seq<TaskObject>>,
                         glob: GlobMatcher, parseFloat: Budget.FloatParser): (r: string)
    ensures r == "" <==> forall i :: 0 <= i < |policies| ==> Admits(policies[i].spec, spec, defaultImage, tasks, glob, parseFloat)
    ensures r != "" ==> exists i :: 0 <= i < |policies| && r == PolicyViolation(policies[i], spec, defaultImage, tasks, glob, parseFloat) &&
                                    forall j :: 0 <= j < i ==> Admits(policies[j].spec, spec, defaultImage, tasks, glob, parseFloat)
  {
    var f := ViolationOf(spec, defaultImage, tasks, glob, parseFloat);
    var r := FirstBy(policies, f);
    assert forall i :: 0 <= i < |policies| ==> f(policies[i]) == PolicyViolation(policies[i], spec, defaultImage, tasks, glob, parseFloat);
    r
  }

  /** Unfolding the policy loop at position `i`. */
  lemma FirstViolationStep(ps: seq<AgentPolicy>, i: nat, spec: TaskSpec, defaultImage: string, tasks: Option<seq<TaskObject>>,
                           glob: GlobMatcher, parseFloat: Budget.FloatParser)
    requires i < |ps|
    ensures var v := PolicyViolation(ps[i], spec, defaultImage, tasks, glob, parseFloat);
            FirstViolation(ps[i..], spec, defaultImage, tasks, glob, parseFloat) ==
              if v != "" then v else FirstViolation(ps[i + 1..], spec, defaultImage, tasks, glob, parseFloat)
  {
    assert ps[i..][0] == ps[i] && ps[i..][1..] == ps[i + 1..];
  }

  /** A denied capability is refused even when the same policy also allows it. */
  lemma DenyOverridesAllow(pol: AgentPolicy, spec: TaskSpec, defaultImage: string, tasks: Option<seq<TaskObject>>,
                           glob: GlobMatcher, parseFloat: Budget.FloatParser, c: string)
    requires c in spec.capabilities && c in pol.spec.deniedCapabilities && c in pol.spec.allowedCapabilities
    ensures PolicyViolation(pol, spec, defaultImage, tasks, glob, parseFloat) != ""
    ensures StartsWith(PolicyViolation(pol, spec, defaultImage, tasks, glob, parseFloat), "capability ")
  {
    var denied := set x | x in pol.spec.deniedCapabilities;
    assert c in denied;
    assert FirstWhere(spec.capabilities, denied, true).Some?;
  }

  /** The running-task loop of the concurrency check. */
  method CountRunning(tasks: seq<TaskObject>) returns (n: nat)
    ensures n == RunningCount(tasks)
  {
    n := 0;
    for i := 0 to |tasks|
      invariant n == RunningCount(tasks[..i])
    {
      assert tasks[..i + 1][..i] == tasks[..i];
      if tasks[i].status.phase == Running {
        n := n + 1;
      }
    }
    assert tasks[..|tasks|] == tasks;
  }

  /** The capability loop shared by the deny and allow checks: the first capability whose
      membership in the policy's set is `member`. */
  method FindCapability(caps: seq<string>, listed: seq<string>, member: bool) returns (r: Option<string>)
    ensures r == FirstWhere(caps, (set c | c in listed), member)
  {
    var s := {};
    for i := 0 to |listed|
      invariant s == set c | c in listed[..i]
    {
      assert listed[..i + 1] == listed[..i] + [listed[i]];
      s := s + {listed[i]};
    }
    assert listed[..|listed|] == listed;
    var k := 0;
    while k < |caps|
      invariant 0 <= k <= |caps|
      invariant FirstWhere(caps[k..], s, member) == FirstWhere(caps, s, member)
    {
      if (caps[k] in s) == member {
        return Some(caps[k]);
      }
      assert caps[k..][1..] == caps[k + 1..];
      k := k + 1;
    }
    return None;
  }

  /** The image loop: does some allowed pattern match? */
  method MatchAny(patterns: seq<string>, image: string, glob: GlobMatcher) returns (matched: bool)
    ensures matched <==> exists pat :: pat in patterns && glob(pat, image)
  {
    matched := false;
    for i := 0 to |patterns|
      invariant !matched ==> forall j :: 0 <= j < i ==> !glob(patterns[j], image)
      invariant matched ==> exists pat :: pat in patterns && glob(pat, image)
    {
      if glob(patterns[i], image) {
        matched := true;
        break;
      }
    }
  }

  /** One iteration of `enforcePolicy`'s policy loop. */
  method CheckPolicy(pol: AgentPolicy, spec: TaskSpec, defaultImage: string, tasks: Option<seq<TaskObject>>,
                     glob: GlobMatcher, parseFloat: Budget.FloatParser) returns (v: string)
    ensures v == PolicyViolation(pol, spec, defaultImage, tasks, glob, parseFloat)
  {
    var p := pol.spec;
    if |p.deniedCapabilities| > 0 {
      var hit := FindCapability(spec.capabilities, p.deniedCapabilities, true);
      if hit.Some? {
        return "capability " + Quote(hit.value) + " is denied by policy " + pol.name;
      }
    }
    if |p.allowedCapabilities| > 0 {
      var miss := FindCapability(spec.capabilities, p.allowedCapabilities, false);
      if miss.Some? {
        return "capability " + Quote(miss.value) + " is not allowed by policy " + pol.name;
      }
    }
    if |p.allowedImages| > 0 {
      var image := EffectiveImage(spec, defaultImage);
      var matched := MatchAny(p.allowedImages, image, glob);
      if !matched {
        return "image " + Quote(image) + " is not allowed by policy " + pol.name;
      }
    }
    v := BudgetAndLimits(pol, spec, tasks, parseFloat);
  }

  /** The budget, timeout, tier and concurrency checks of one policy. */
  method BudgetAndLimits(pol: AgentPolicy, spec: TaskSpec, tasks: Option<seq<TaskObject>>, parseFloat: Budget.FloatParser)
    returns (v: string)
    ensures v == LimitViolation(pol, spec, tasks, parseFloat)
  {
    var p := pol.spec;
    if p.maxBudget.Some? && spec.budget.Some? {
      if p.maxBudget.value.maxTokens.Some? && spec.budget.value.maxTokens.Some? {
        if spec.budget.value.maxTokens.value > p.maxBudget.value.maxTokens.value {
          assert !TokensWithin(p, spec);
          return "token budget " + IntToString(spec.budget.value.maxTokens.value) + " exceeds policy " + pol.name +
                 " limit of " + IntToString(p.maxBudget.value.maxTokens.value);
        }
      }
      if p.maxBudget.value.maxCostUsd != "" && spec.budget.value.maxCostUsd != "" {
        var policyVal := parseFloat(p.maxBudget.value.maxCostUsd);
        var taskVal := parseFloat(spec.budget.value.maxCostUsd);
        if policyVal.Some? && taskVal.Some? && taskVal.value > policyVal.value {
          assert TokensWithin(p, spec) && !CostWithin(p, spec, parseFloat);
          return "cost budget " + spec.budget.value.maxCostUsd + " exceeds policy " + pol.name + " limit of " + p.maxBudget.value.maxCostUsd;
        }
      }
    }
    if p.maxTimeout.Some? && spec.timeout.Some? {
      if spec.timeout.value > p.maxTimeout.value {
        assert TokensWithin(p, spec) && CostWithin(p, spec, parseFloat) && !TimeoutWithin(p, spec);
        return "timeout " + IntToString(spec.timeout.value) + " exceeds policy " + pol.name + " limit of " + IntToString(p.maxTimeout.value);
      }
    }
    if p.maxTier != "" {
      var taskTier := EffectiveTier(spec);
      if TierRank(taskTier) > TierRank(p.maxTier) {
        assert TokensWithin(p, spec) && CostWithin(p, spec, parseFloat) && TimeoutWithin(p, spec) && !TierWithin(p, spec);
        return "tier " + Quote(taskTier) + " exceeds policy " + pol.name + " max tier " + Quote(p.maxTier);
      }
    }
    if p.maxConcurrentTasks.Some? && tasks.Some? {
      var running := CountRunning(tasks.value);
      if running >= p.maxConcurrentTasks.value {
        assert TokensWithin(p, spec) && CostWithin(p, spec, parseFloat) && TimeoutWithin(p, spec) && TierWithin(p, spec);
        assert !ConcurrencyWithin(p, tasks);
        return "namespace has " + IntToString(running) + " running tasks, policy " + pol.name +
               " limits to " + IntToString(p.maxConcurrentTasks.value);
      }
    }
    assert WithinLimits(p, spec, tasks, parseFloat);
    return "";
  }

  /** `enforcePolicy`: "" when the policy listing fails or is empty, else the first violation. */
  method EnforcePolicy(policies: Option<seq<AgentPolicy>>, spec: TaskSpec, defaultImage: string, tasks: Option<seq<TaskObject>>,
                       glob: GlobMatcher, parseFloat: Budget.FloatParser) returns (v: string)
    ensures policies.None? ==> v == ""
    ensures policies.Some? ==> v == FirstViolation(policies.value, spec, defaultImage, tasks, glob, parseFloat)
  {
    if policies.None? || |policies.value| == 0 {
      return "";
    }
    var ps := policies.value;
    var i := 0;
    while i < |ps|
      invariant 0 <= i <= |ps|
      invariant FirstViolation(ps[i..], spec, defaultImage, tasks, glob, parseFloat) == FirstViolation(ps, spec, defaultImage, tasks, glob, parseFloat)
    {
      var res := CheckPolicy(ps[i], spec, defaultImage, tasks, glob, parseFloat);
      FirstViolationStep(ps, i, spec, defaultImage, tasks, glob, parseFloat);
      if res != "" {
        return res;
      }
      i := i + 1;
    }
    return "";
  }

  // ---------------------------------------------------------------------------------------
  // Shell policy
  // ---------------------------------------------------------------------------------------

  /** `xs` without repeats, each entry kept where it is first seen. */
  function Dedup(xs: seq<string>): (r: seq<string>)
  {
    if xs == [] then [] else ControllerHelpers.AddOnce(Dedup(xs[..|xs| - 1]), xs[|xs| - 1])
  }

  /** The position where `x` first occurs in `xs`. */
  function FirstPos(xs: seq<string>, x: string): (k: nat)
    requires x in xs
    ensures k < |xs| && xs[k] == x && forall j :: 0 <= j < k ==> xs[j] != x
  {
    if xs[0] == x then 0 else FirstPos(xs[1..], x) + 1
  }

  /** Extending a list does not move an existing first occurrence. */
  lemma FirstPosSnoc(xs: seq<string>, y: string, x: string)
    requires x in xs
    ensures FirstPos(xs + [y], x) == FirstPos(xs, x)
  {
    var k := FirstPos(xs, x);
    assert (xs + [y])[k] == x;
  }

  /** Dedup keeps exactly the entries of `xs`, each once, in order of first occurrence. */
  lemma DedupSpec(xs: seq<string>)
    ensures forall x :: x in Dedup(xs) <==> x in xs
    ensures ControllerHelpers.NoDuplicates(Dedup(xs))
    ensures forall i, j :: 0 <= i < j < |Dedup(xs)| ==> FirstPos(xs, Dedup(xs)[i]) < FirstPos(xs, Dedup(xs)[j])
  {
    DedupMembers(xs);
    DedupNoDuplicates(xs);
    DedupOrder(xs);
  }

  lemma {:induction false} DedupMembers(xs: seq<string>)
    ensures forall x :: x in Dedup(xs) <==> x in xs
    decreases |xs|
  {
    if xs != [] {
      var init := xs[..|xs| - 1];
      var last := xs[|xs| - 1];
      assert xs == init + [last];
      DedupMembers(init);
      var d := Dedup(init);
      assert Dedup(xs) == ControllerHelpers.AddOnce(d, last);
      assert forall x :: x in Dedup(xs) <==> x in d || x == last;
    }
  }

  lemma {:induction false} DedupNoDuplicates(xs: seq<string>)
    ensures ControllerHelpers.NoDuplicates(Dedup(xs))
    decreases |xs|
  {
    if xs != [] {
      var init := xs[..|xs| - 1];
      DedupNoDuplicates(init);
      ControllerHelpers.AddOnceSpec(Dedup(init), xs[|xs| - 1]);
    }
  }

  lemma {:induction false} DedupOrder(xs: seq<string>)
    ensures forall x :: x in Dedup(xs) ==> x in xs
    ensures forall i, j :: 0 <= i < j < |Dedup(xs)| ==> FirstPos(xs, Dedup(xs)[i]) < FirstPos(xs, Dedup(xs)[j])
    decreases |xs|
  {
    DedupMembers(xs);
    if xs != [] {
      var init := xs[..|xs| - 1];
      var last := xs[|xs| - 1];
      assert xs == init + [last];
      DedupOrder(init);
      DedupMembers(init);
      DedupOrderStep(init, last);
    }
  }

  /** The step of DedupOrder: appending one command keeps the kept entries in first-seen order. */
  lemma DedupOrderStep(init: seq<string>, last: string)
    requires forall x :: x in Dedup(init) <==> x in init
    requires forall i, j :: 0 <= i < j < |Dedup(init)| ==> FirstPos(init, Dedup(init)[i]) < FirstPos(init, Dedup(init)[j])
    ensures forall i, j :: 0 <= i < j < |Dedup(init + [last])| ==>
              Dedup(init + [last])[i] in init + [last] && Dedup(init + [last])[j] in init + [last] &&
              FirstPos(init + [last], Dedup(init + [last])[i]) < FirstPos(init + [last], Dedup(init + [last])[j])
  {
    var xs := init + [last];
    assert xs[..|xs| - 1] == init && xs[|xs| - 1] == last;
    var d := Dedup(init);
    var r := Dedup(xs);
    assert r == ControllerHelpers.AddOnce(d, last);
    forall x | x in init ensures FirstPos(xs, x) == FirstPos(init, x) {
      FirstPosSnoc(init, last, x);
    }
    if last !in d {
      assert r == d + [last];
      assert last !in init;
      assert FirstPos(xs, last) == |init|;
      forall i, j | 0 <= i < j < |r| ensures r[i] in xs && r[j] in xs && FirstPos(xs, r[i]) < FirstPos(xs, r[j]) {
        assert r[i] == d[i] && d[i] in d && d[i] in init;
        assert FirstPos(xs, r[i]) == FirstPos(init, d[i]);
        if j < |d| {
          assert r[j] == d[j] && d[j] in d && d[j] in init;
          assert FirstPos(xs, r[j]) == FirstPos(init, d[j]);
        } else {
          assert r[j] == last;
        }
      }
    } else {
      assert r == d;
      forall i, j | 0 <= i < j < |r| ensures r[i] in xs && r[j] in xs && FirstPos(xs, r[i]) < FirstPos(xs, r[j]) {
        assert d[i] in d && d[j] in d && d[i] in init && d[j] in init;
        assert FirstPos(xs, d[i]) == FirstPos(init, d[i]) && FirstPos(xs, d[j]) == FirstPos(init, d[j]);
      }
    }
  }

  /** All the lists one field holds across the policies, in policy order. */
  function AllAllowedShell(ps: seq<AgentPolicy>): seq<string>
  { if ps == [] then [] else AllAllowedShell(ps[..|ps| - 1]) + ps[|ps| - 1].spec.allowedShellCommands }

  function AllDeniedShell(ps: seq<AgentPolicy>): seq<string>
  { if ps == [] then [] else AllDeniedShell(ps[..|ps| - 1]) + ps[|ps| - 1].spec.deniedShellCommands }

  /** `seen`-guarded appending of one command list, as the inner loops of `collectShellPolicy` do. */
  method AppendUnseen(acc: seq<string>, seen: set<string>, cmds: seq<string>, ghost before: seq<string>)
    returns (acc': seq<string>, seen': set<string>)
    requires acc == Dedup(before) && (forall x :: x in seen <==> x in acc)
    ensures acc' == Dedup(before + cmds) && (forall x :: x in seen' <==> x in acc')
  {
    acc', seen' := acc, seen;
    assert before + cmds[..0] == before;
    for j := 0 to |cmds|
      invariant acc' == Dedup(before + cmds[..j]) && (forall x :: x in seen' <==> x in acc')
    {
      assert (before + cmds[..j + 1])[..|before + cmds[..j + 1]| - 1] == before + cmds[..j];
      if cmds[j] !in seen' {
        seen' := seen' + {cmds[j]};
        acc' := acc' + [cmds[j]];
      }
    }
    assert cmds[..|cmds|] == cmds;
  }

  /** `collectShellPolicy`: nothing when the listing fails; else the first-seen unions of the
      allowed and denied shell commands, and whether any policy makes the workspace read-only. */
  method CollectShellPolicy(policies: Option<seq<AgentPolicy>>) returns (allowed: seq<string>, denied: seq<string>, readOnly: bool)
    ensures policies.None? ==> allowed == [] && denied == [] && !readOnly
    ensures policies.Some? ==> allowed == Dedup(AllAllowedShell(policies.value)) && denied == Dedup(AllDeniedShell(policies.value))
    ensures policies.Some? ==> (readOnly <==> exists i :: 0 <= i < |policies.value| && policies.value[i].spec.readOnlyWorkspace)
  {
    allowed, denied, readOnly := [], [], false;
    if policies.None? {
      return;
    }
    var ps := policies.value;
    var seenAllowed: set<string> := {};
    var seenDenied: set<string> := {};
    for i := 0 to |ps|
      invariant allowed == Dedup(AllAllowedShell(ps[..i])) && (forall x :: x in seenAllowed <==> x in allowed)
      invariant denied == Dedup(AllDeniedShell(ps[..i])) && (forall x :: x in seenDenied <==> x in denied)
      invariant readOnly <==> exists k :: 0 <= k < i && ps[k].spec.readOnlyWorkspace
    {
      assert ps[..i + 1][..i] == ps[..i] && ps[..i + 1][i] == ps[i];
      assert AllAllowedShell(ps[..i + 1]) == AllAllowedShell(ps[..i]) + ps[i].spec.allowedShellCommands;
      assert AllDeniedShell(ps[..i + 1]) == AllDeniedShell(ps[..i]) + ps[i].spec.deniedShellCommands;
      allowed, seenAllowed := AppendUnseen(allowed, seenAllowed, ps[i].spec.allowedShellCommands, AllAllowedShell(ps[..i]));
      denied, seenDenied := AppendUnseen(denied, seenDenied, ps[i].spec.deniedShellCommands, AllDeniedShell(ps[..i]));
      if ps[i].spec.readOnlyWorkspace {
        readOnly := true;
      } else {
        assert forall k :: 0 <= k < i + 1 && ps[k].spec.readOnlyWorkspace ==> k < i;
      }
    }
    assert ps[..|ps|] == ps;
  }
}
