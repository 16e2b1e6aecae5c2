/**
 * The validating admission webhook for AgentTask (internal/webhook/agenttask_webhook.go):
 * field checks on the task itself and, when the task has a parent, checks that the child
 * asks for no more than the parent has. Errors are collected, not short-circuited. Number
 * parsing (`strconv.ParseFloat`) is an oracle.
 */
module Webhook {
  import opened Wrappers
  import opened Strs
  import opened Api
  import Budget

  /** A `field.Error`: its kind, the field path, the offending value (Invalid only) and the detail. */
  datatype FieldError =
    | Required(path: string, detail: string)
    | Invalid(path: string, value: string, detail: string)
    | Forbidden(path: string, detail: string)

  /** The webhook's own `tierRank`: legionary and anything unknown 0, centurion 1, tribune 2. */
  function TierRank(tier: string): (r: int)
    ensures tier == "centurion" ==> r == 1
    ensures tier == "tribune" ==> r == 2
    ensures tier != "centurion" && tier != "tribune" ==> r == 0
  {
    if tier == "legionary" then 0 else if tier == "centurion" then 1 else if tier == "tribune" then 2 else 0
  }

  /** The capabilities a parent can hand down: its own, plus "spawn" when it is an agentic tier. */
  function ParentCapabilities(parent: TaskSpec): (s: set<string>)
    ensures forall c :: c in s <==> c in parent.capabilities || (c == "spawn" && (parent.tier == "tribune" || parent.tier == "centurion"))
  {
    (set c | c in parent.capabilities) + (if parent.tier == "tribune" || parent.tier == "centurion" then {"spawn"} else {})
  }

  function ModelErrors(spec: TaskSpec): seq<FieldError>
  {
    if spec.model.None? then [Required("spec.model", "model is required")]
    else
      (if spec.model.value.name == "" then [Required("spec.model.name", "model name is required")] else []) +
      (if spec.model.value.endpoint == "" then [Required("spec.model.endpoint", "model endpoint is required")] else [])
  }

  function TimeoutErrors(spec: TaskSpec): seq<FieldError>
  {
    if spec.timeout.Some? && spec.timeout.value <= 0 then [Invalid("spec.timeout", IntToString(spec.timeout.value), "timeout must be > 0")]
    else []
  }

  function BudgetErrors(spec: TaskSpec, parseFloat: Budget.FloatParser): seq<FieldError>
  {
    if spec.budget.None? then []
    else
      var b := spec.budget.value;
      (if b.maxTokens.Some? && b.maxTokens.value <= 0 then
         [Invalid("spec.budget.maxTokens", IntToString(b.maxTokens.value), "maxTokens must be > 0")] else []) +
      (if b.maxCostUsd == "" then []
       else if parseFloat(b.maxCostUsd).None? then [Invalid("spec.budget.maxCostUsd", b.maxCostUsd, "must be a valid number")]
       else if parseFloat(b.maxCostUsd).value <= 0.0 then [Invalid("spec.budget.maxCostUsd", b.maxCostUsd, "maxCostUsd must be > 0")]
       else [])
  }

  /** The tier and budget comparisons with the parent. */
  function ParentLimitErrors(spec: TaskSpec, parent: TaskSpec, parseFloat: Budget.FloatParser): seq<FieldError>
  {
    (if TierRank(spec.tier) > TierRank(parent.tier) then
       [Forbidden("spec.tier", "child tier " + "\"" + spec.tier + "\"" + " exceeds parent tier " + "\"" + parent.tier + "\"")] else []) +
    (if spec.budget.Some? && parent.budget.Some? then
       (if spec.budget.value.maxTokens.Some? && parent.budget.value.maxTokens.Some? &&
           spec.budget.value.maxTokens.value > parent.budget.value.maxTokens.value then
          [Forbidden("spec.budget.maxTokens", "child maxTokens exceeds parent maxTokens")] else []) +
       (if spec.budget.value.maxCostUsd != "" && parent.budget.value.maxCostUsd != "" &&
           parseFloat(spec.budget.value.maxCostUsd).Some? && parseFloat(parent.budget.value.maxCostUsd).Some? &&
           parseFloat(spec.budget.value.maxCostUsd).value > parseFloat(parent.budget.value.maxCostUsd).value then
          [Forbidden("spec.budget.maxCostUsd", "child maxCostUsd exceeds parent maxCostUsd")] else [])
     else [])
  }

  /** One error per child capability outside the parent's, in the child's order. The Go
      message also lists the parent's capabilities in map order, which is not modelled. */
  function CapabilityErrors(caps: seq<string>, parentCaps: set<string>): (r: seq<FieldError>)
    ensures |r| <= |caps|
    ensures r == [] <==> forall c :: c in caps ==> c in parentCaps
  {
    if caps == [] then []
    else CapabilityErrors(caps[..|caps| - 1], parentCaps) +
         (if caps[|caps| - 1] in parentCaps then []
          else [Forbidden("spec.capabilities", "child capability " + "\"" + caps[|caps| - 1] + "\"" + " not in parent capabilities")])
  }

  /** `ValidateAgentTask` as a composition of its checks, in the order they append. */
  function ValidationErrors(spec: TaskSpec, parent: Option<TaskSpec>, parseFloat: Budget.FloatParser): seq<FieldError>
  {
    ModelErrors(spec) + TimeoutErrors(spec) + BudgetErrors(spec, parseFloat) +
    (if parent.None? then []
     else ParentLimitErrors(spec, parent.value, parseFloat) + CapabilityErrors(spec.capabilities, ParentCapabilities(parent.value)))
  }

  /** What an admissible task satisfies, condition by condition: its own fields, then the
      limits its parent sets when it has one. */
  predicate Admissible(spec: TaskSpec, parent: Option<TaskSpec>, parseFloat: Budget.FloatParser)
  {
    OwnFieldsValid(spec, parseFloat) && (parent.Some? ==> WithinParent(spec, parent.value, parseFloat))
  }

  predicate OwnFieldsValid(spec: TaskSpec, parseFloat: Budget.FloatParser)
  {
    spec.model.Some? && spec.model.value.name != "" && spec.model.value.endpoint != "" &&
    (spec.timeout.Some? ==> spec.timeout.value > 0) &&
    (spec.budget.Some? && spec.budget.value.maxTokens.Some? ==> spec.budget.value.maxTokens.value > 0) &&
    (spec.budget.Some? && spec.budget.value.maxCostUsd != "" ==>
       parseFloat(spec.budget.value.maxCostUsd).Some? && parseFloat(spec.budget.value.maxCostUsd).value > 0.0)
  }

  predicate LimitsWithinParent(spec: TaskSpec, parent: TaskSpec, parseFloat: Budget.FloatParser)
  {
    TierRank(spec.tier) <= TierRank(parent.tier) &&
    (spec.budget.Some? && parent.budget.Some? && spec.budget.value.maxTokens.Some? && parent.budget.value.maxTokens.Some? ==>
       spec.budget.value.maxTokens.value <= parent.budget.value.maxTokens.value) &&
    (spec.budget.Some? && parent.budget.Some? && spec.budget.value.maxCostUsd != "" && parent.budget.value.maxCostUsd != "" &&
     parseFloat(spec.budget.value.maxCostUsd).Some? && parseFloat(parent.budget.value.maxCostUsd).Some? ==>
       parseFloat(spec.budget.value.maxCostUsd).value <= parseFloat(parent.budget.value.maxCostUsd).value)
  }

  predicate WithinParent(spec: TaskSpec, parent: TaskSpec, parseFloat: Budget.FloatParser)
  {
    LimitsWithinParent(spec, parent, parseFloat) &&
    (forall c :: c in spec.capabilities ==>
       c in parent.capabilities || (c == "spawn" && (parent.tier == "tribune" || parent.tier == "centurion")))
  }

  /** A task passes validation exactly when it is admissible. */
  lemma NoErrorsIffAdmissible(spec: TaskSpec, parent: Option<TaskSpec>, parseFloat: Budget.FloatParser)
    ensures ValidationErrors(spec, parent, parseFloat) == [] <==> Admissible(spec, parent, parseFloat)
  {
    OwnFieldChecks(spec, parseFloat);
    if parent.Some? {
      ParentLimitChecks(spec, parent.value, parseFloat);
      var pc := ParentCapabilities(parent.value);
      assert CapabilityErrors(spec.capabilities, pc) == [] <==> forall c :: c in spec.capabilities ==> c in pc;
      EmptyConcat(ModelErrors(spec) + TimeoutErrors(spec) + BudgetErrors(spec, parseFloat),
                  ParentLimitErrors(spec, parent.value, parseFloat), CapabilityErrors(spec.capabilities, pc));
    } else {
      assert ValidationErrors(spec, parent, parseFloat) == ModelErrors(spec) + TimeoutErrors(spec) + BudgetErrors(spec, parseFloat);
    }
  }

  /** The task's own checks report nothing exactly when its own fields are valid. */
  lemma OwnFieldChecks(spec: TaskSpec, parseFloat: Budget.FloatParser)
    ensures ModelErrors(spec) + TimeoutErrors(spec) + BudgetErrors(spec, parseFloat) == [] <==> OwnFieldsValid(spec, parseFloat)
  {
  }

  /** The tier and budget comparisons report nothing exactly when the child stays within its parent's limits. */
  lemma ParentLimitChecks(spec: TaskSpec, parent: TaskSpec, parseFloat: Budget.FloatParser)
    ensures ParentLimitErrors(spec, parent, parseFloat) == [] <==> LimitsWithinParent(spec, parent, parseFloat)
  {
  }

  lemma EmptyConcat<T>(a: seq<T>, b: seq<T>, c: seq<T>)
    ensures a + (b + c) == [] <==> a == [] && b == [] && c == []
  {
  }

  /** Without a parent no error is a Forbidden one: every error concerns the task's own fields. */
  lemma NoParentNoForbidden(spec: TaskSpec, parseFloat: Budget.FloatParser)
    ensures forall e :: e in ValidationErrors(spec, None, parseFloat) ==> !e.Forbidden?
  {
    var own := ModelErrors(spec) + TimeoutErrors(spec) + BudgetErrors(spec, parseFloat);
    assert forall e :: e in ModelErrors(spec) ==> !e.Forbidden?;
    assert forall e :: e in TimeoutErrors(spec) ==> !e.Forbidden?;
    assert forall e :: e in BudgetErrors(spec, parseFloat) ==> !e.Forbidden?;
    assert ValidationErrors(spec, None, parseFloat) == own + [];
  }

  /** A child at its parent's tier never gets a tier error, and a tribune child under a
      centurion always does. */
  lemma TierChecks(spec: TaskSpec, parent: TaskSpec, parseFloat: Budget.FloatParser)
    ensures spec.tier == parent.tier ==>
              (ParentLimitErrors(spec, parent, parseFloat) == [] || ParentLimitErrors(spec, parent, parseFloat)[0].path != "spec.tier")
    ensures spec.tier == "tribune" && parent.tier == "centurion" ==> ParentLimitErrors(spec, parent, parseFloat)[0].path == "spec.tier"
  {}

  /** The capability loop: one error per capability not in the parent's set. */
  method CheckCapabilities(errs: seq<FieldError>, caps: seq<string>, parentCaps: set<string>) returns (errs': seq<FieldError>)
    ensures errs' == errs + CapabilityErrors(caps, parentCaps)
  {
    errs' := errs;
    for i := 0 to |caps|
      invariant errs' == errs + CapabilityErrors(caps[..i], parentCaps)
    {
      assert caps[..i + 1][..i] == caps[..i];
      if caps[i] !in parentCaps {
        errs' := errs' + [Forbidden("spec.capabilities", "child capability " + "\"" + caps[i] + "\"" + " not in parent capabilities")];
      }
    }
    assert caps[..|caps|] == caps;
  }

  /** The loop that fills `parentCaps`. */
  method CollectParentCapabilities(parent: TaskSpec) returns (s: set<string>)
    ensures s == ParentCapabilities(parent)
  {
    s := {};
    for i := 0 to |parent.capabilities|
      invariant s == set c | c in parent.capabilities[..i]
    {
      assert parent.capabilities[..i + 1] == parent.capabilities[..i] + [parent.capabilities[i]];
      s := s + {parent.capabilities[i]};
    }
    assert parent.capabilities[..|parent.capabilities|] == parent.capabilities;
    if parent.tier == "tribune" || parent.tier == "centurion" {
      s := s + {"spawn"};
    }
  }

  /** `ValidateAgentTask`. */
  method ValidateAgentTask(spec: TaskSpec, parent: Option<TaskSpec>, parseFloat: Budget.FloatParser) returns (errs: seq<FieldError>)
    ensures errs == ValidationErrors(spec, parent, parseFloat)
    ensures errs == [] <==> Admissible(spec, parent, parseFloat)
  {
    errs := ModelErrors(spec) + TimeoutErrors(spec) + BudgetErrors(spec, parseFloat);
    if parent.Some? {
      errs := errs + ParentLimitErrors(spec, parent.value, parseFloat);
      var parentCaps := CollectParentCapabilities(parent.value);
      errs := CheckCapabilities(errs, spec.capabilities, parentCaps);
    }
    NoErrorsIffAdmissible(spec, parent, parseFloat);
  }
}
