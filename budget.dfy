/**
 * Per-task budgets and the model price map (internal/controller/budget.go). Prices and
 * costs are exact reals: IEEE rounding is not modelled. Parsing a cost string
 * (`strconv.ParseFloat`) and rendering one (`strconv.FormatFloat(c, 'f', 6, 64)`) are
 * oracles passed in by the caller.
 */
module Budget {
  import opened Wrappers
  import opened Api

  type FloatParser = string -> Option<real>
  type CostFormatter = real -> string

  datatype ModelPricing = ModelPricing(inputCostPerToken: real, outputCostPerToken: real)

  /** The provider prefixes LiteLLM puts in front of bare model names, in lookup order. */
  const Prefixes: seq<string> := ["anthropic/", "openai/", "azure/", "google/",
                                  "bedrock/", "vertex_ai/", "groq/", "together_ai/"]

  /** The keys `GetPricing` tries, in order: the name itself, then each prefixed form. */
  function Candidates(model: string): (c: seq<string>)
    ensures |c| == |Prefixes| + 1 && c[0] == model
    ensures forall i :: 0 <= i < |Prefixes| ==> c[i + 1] == Prefixes[i] + model
  { [model] + PrefixedAll(Prefixes, model) }

  function PrefixedAll(ps: seq<string>, model: string): (r: seq<string>)
    ensures |r| == |ps| && forall i :: 0 <= i < |ps| ==> r[i] == ps[i] + model
  { if ps == [] then [] else [ps[0] + model] + PrefixedAll(ps[1..], model) }

  /** The index of the first candidate with a price, if any. */
  function FirstHit(prices: map<string, ModelPricing>, cands: seq<string>): (r: Option<nat>)
    ensures r.Some? ==> r.value < |cands| && cands[r.value] in prices &&
                        forall j :: 0 <= j < r.value ==> cands[j] !in prices
    ensures r.None? ==> forall j :: 0 <= j < |cands| ==> cands[j] !in prices
  {
    if cands == [] then None
    else if cands[0] in prices then Some(0)
    else match FirstHit(prices, cands[1..])
         case None => None
         case Some(k) => Some(k + 1)
  }

  /** The price `GetPricing` returns: exact name first, then the first prefixed hit. */
  function Lookup(prices: map<string, ModelPricing>, model: string): (r: Option<ModelPricing>)
    ensures model in prices ==> r == Some(prices[model])
    ensures r.None? <==> forall c :: c in Candidates(model) ==> c !in prices
  {
    var c := Candidates(model);
    match FirstHit(prices, c)
    case None => None
    case Some(k) => Some(prices[c[k]])
  }

  /** A hit with misses before it is the first hit. */
  lemma {:induction false} FirstHitAt(prices: map<string, ModelPricing>, cands: seq<string>, i: nat)
    requires i < |cands| && cands[i] in prices
    requires forall j :: 0 <= j < i ==> cands[j] !in prices
    ensures FirstHit(prices, cands) == Some(i)
  {
    if i > 0 {
      FirstHitAt(prices, cands[1..], i - 1);
    }
  }

  /** A prefixed name is used only when the bare name and every earlier prefix miss. */
  lemma LookupPrefix(prices: map<string, ModelPricing>, model: string, i: nat)
    requires i < |Prefixes| && Prefixes[i] + model in prices
    requires model !in prices && forall j :: 0 <= j < i ==> Prefixes[j] + model !in prices
    ensures Lookup(prices, model) == Some(prices[Prefixes[i] + model])
  {
    var c := Candidates(model);
    forall j | 0 <= j < i + 1 ensures c[j] !in prices {
      if j > 0 { assert c[j] == Prefixes[j - 1] + model; }
    }
    FirstHitAt(prices, c, i + 1);
  }

  /** `PriceMap`: model prices and when they were fetched. */
  class PriceMap {
    var prices: map<string, ModelPricing>
    var fetchedAt: Time
    const refreshH: int

    /** `NewPriceMap`: an empty map refreshed every `refreshIntervalHours`, or 24 when that is not positive. */
    constructor (refreshIntervalHours: int)
      ensures prices == map[] && fetchedAt == 0
      ensures refreshIntervalHours > 0 ==> refreshH == refreshIntervalHours
      ensures refreshIntervalHours <= 0 ==> refreshH == 24
    {
      prices := map[];
      fetchedAt := 0;
      refreshH := if refreshIntervalHours <= 0 then 24 else refreshIntervalHours;
    }

    /** `RefreshIfStale` with the network fetch as `fetched` (None when it fails). */
    method RefreshIfStale(now: Time, fetched: Option<map<string, ModelPricing>>)
      modifies this
      ensures now - old(fetchedAt) < refreshH * Hour && |old(prices)| > 0 ==> prices == old(prices) && fetchedAt == old(fetchedAt)
      ensures !(now - old(fetchedAt) < refreshH * Hour && |old(prices)| > 0) && fetched.Some? ==> prices == fetched.value && fetchedAt == now
      ensures fetched.None? ==> prices == old(prices) && fetchedAt == old(fetchedAt)
    {
      if now - fetchedAt < refreshH * Hour && |prices| > 0 {
        return;
      }
      if fetched.Some? {
        prices := fetched.value;
        fetchedAt := now;
      }
    }

    /** `GetPricing`: the exact name, then the prefixed names in order. */
    method GetPricing(model: string) returns (p: ModelPricing, ok: bool)
      ensures ok <==> Lookup(prices, model).Some?
      ensures ok ==> p == Lookup(prices, model).value
      ensures !ok ==> p == ModelPricing(0.0, 0.0)
    {
      if model in prices {
        return prices[model], true;
      }
      var i := 0;
      while i < |Prefixes|
        invariant 0 <= i <= |Prefixes|
        invariant forall j :: 0 <= j < i ==> Prefixes[j] + model !in prices
      {
        if Prefixes[i] + model in prices {
          LookupPrefix(prices, model, i);
          return prices[Prefixes[i] + model], true;
        }
        i := i + 1;
      }
      assert forall c :: c in Candidates(model) ==> c !in prices;
      return ModelPricing(0.0, 0.0), false;
    }

    /** `CalculateCost`: tokens times the per-token prices; an error without a price. */
    method CalculateCost(model: string, tokensIn: int, tokensOut: int) returns (r: Result<real>)
      ensures Lookup(prices, model).None? ==> r == Err("no pricing found for model \"" + model + "\"")
      ensures Lookup(prices, model).Some? ==> r == Ok(Cost(TokenUsage(tokensIn, tokensOut), Lookup(prices, model).value))
    {
      var pricing, ok := GetPricing(model);
      if !ok {
        return Err("no pricing found for model \"" + model + "\"");
      }
      return Ok(Cost(TokenUsage(tokensIn, tokensOut), pricing));
    }

    /** `CalculateTaskCost`: the formatted cost, or "" without usage, model name or price. */
    method CalculateTaskCost(spec: TaskSpec, status: TaskStatus, format: CostFormatter) returns (s: string)
      ensures status.tokensUsed.None? ==> s == ""
      ensures ModelName(spec) == "" ==> s == ""
      ensures Lookup(prices, ModelName(spec)).None? ==> s == ""
      ensures status.tokensUsed.Some? && ModelName(spec) != "" && Lookup(prices, ModelName(spec)).Some? ==>
                s == format(Cost(status.tokensUsed.value, Lookup(prices, ModelName(spec)).value))
    {
      if status.tokensUsed.None? {
        return "";
      }
      var model := ModelName(spec);
      if model == "" {
        return "";
      }
      var u := status.tokensUsed.value;
      var cost := CalculateCost(model, u.input, u.output);
      assert TokenUsage(u.input, u.output) == u;
      if cost.Err? {
        return "";
      }
      return format(cost.value);
    }
  }

  /** The model name a task asks for, "" without a model. */
  function ModelName(spec: TaskSpec): (n: string)
    ensures spec.model.Some? ==> n == spec.model.value.name
    ensures spec.model.None? ==> n == ""
  { if spec.model.Some? then spec.model.value.name else "" }

  /** The cost of a usage at a price (exact, where Go computes in float64). */
  function Cost(u: TokenUsage, p: ModelPricing): real
  { u.input as real * p.inputCostPerToken + u.output as real * p.outputCostPerToken }

  /** The token part of the budget: both a cap and a usage, and the usage at or over the cap. */
  predicate TokensOverBudget(b: BudgetSpec, used: Option<TokenUsage>)
  { b.maxTokens.Some? && used.Some? && used.value.input + used.value.output >= b.maxTokens.value }

  /** `IsBudgetExceeded`: the token cap, then the cost cap on a positive estimated cost. */
  function IsBudgetExceeded(spec: TaskSpec, status: TaskStatus, estimatedCost: real, parseFloat: FloatParser): (r: bool)
    ensures spec.budget.None? ==> !r
    ensures spec.budget.Some? && TokensOverBudget(spec.budget.value, status.tokensUsed) ==> r
    ensures spec.budget.Some? && (spec.budget.value.maxCostUsd == "" || estimatedCost <= 0.0) ==>
              (r <==> TokensOverBudget(spec.budget.value, status.tokensUsed))
    ensures r && spec.budget.Some? && !TokensOverBudget(spec.budget.value, status.tokensUsed) ==>
              parseFloat(spec.budget.value.maxCostUsd).Some? && estimatedCost >= parseFloat(spec.budget.value.maxCostUsd).value
  {
    if spec.budget.None? then false
    else
      var b := spec.budget.value;
      if b.maxTokens.Some? && status.tokensUsed.Some? &&
         status.tokensUsed.value.input + status.tokensUsed.value.output >= b.maxTokens.value then true
      else if b.maxCostUsd != "" && estimatedCost > 0.0 then
        var maxCost := parseFloat(b.maxCostUsd);
        maxCost.Some? && estimatedCost >= maxCost.value
      else false
  }

  /** Being exactly at the token cap already counts as over budget. */
  lemma AtTokenCap(spec: TaskSpec, status: TaskStatus, cost: real, parseFloat: FloatParser)
    requires spec.budget.Some? && spec.budget.value.maxTokens.Some? && status.tokensUsed.Some?
    requires status.tokensUsed.value.input + status.tokensUsed.value.output == spec.budget.value.maxTokens.value
    ensures IsBudgetExceeded(spec, status, cost, parseFloat)
  {}
}
