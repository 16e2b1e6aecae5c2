/**
 * What the reconciler derives from a task to run it (internal/controller/pod_builder.go):
 * the storage claim, the agent image, the container environment, the volume mounts and
 * the resource requests. Kubernetes objects are reduced to the fields these decisions
 * set; `resource.ParseQuantity` is an oracle that accepts or rejects a quantity string.
 */
module PodBuilder {
  import opened Wrappers
  import opened Strs
  import opened Api
  import opened ControllerConfig
  import opened ControllerHelpers

  type QuantityCheck = string -> bool

  /** `isAgenticTier`: the tiers that run the Python agentic runtime. */
  predicate IsAgenticTier(tier: string)
  { tier == "tribune" || tier == "centurion" }

  // ---------------------------------------------------------------- ensurePVC

  const RetentionAnnotation := "hortator.ai/retention"

  /** The outcome of looking up the task's claim. */
  datatype ClaimLookup = Found | NotFound | LookupError(message: string)

  datatype PvcPlan = PvcPlan(name: string, size: string, annotations: map<string, string>, storageClass: Option<string>)

  /** The requested claim size: 256Mi, 1Gi for agentic tiers, or the spec's own size. */
  function PvcSize(spec: TaskSpec): (size: string)
    ensures spec.storage.Some? && spec.storage.value.size != "" ==> size == spec.storage.value.size
    ensures !(spec.storage.Some? && spec.storage.value.size != "") && IsAgenticTier(spec.tier) ==> size == "1Gi"
    ensures !(spec.storage.Some? && spec.storage.value.size != "") && !IsAgenticTier(spec.tier) ==> size == "256Mi"
  {
    var size := if spec.tier == "centurion" || spec.tier == "tribune" then "1Gi" else "256Mi";
    if spec.storage.Some? && spec.storage.value.size != "" then spec.storage.value.size else size
  }

  /** The claim's annotations: a retention of "<N>d" when the spec sets RetainDays. */
  function PvcAnnotations(spec: TaskSpec): (a: map<string, string>)
    ensures RetentionAnnotation in a <==> spec.storage.Some? && spec.storage.value.retainDays.Some?
    ensures RetentionAnnotation in a ==> a[RetentionAnnotation] == IntToString(spec.storage.value.retainDays.value) + "d"
    ensures a.Keys <= {RetentionAnnotation}
  {
    if spec.storage.Some? && spec.storage.value.retainDays.Some? then
      map[RetentionAnnotation := IntToString(spec.storage.value.retainDays.value) + "d"]
    else map[]
  }

  /** `ensurePVC`: Ok(None) when the claim exists, the lookup error, a size error, or the claim to create. */
  function EnsurePVC(name: string, spec: TaskSpec, existing: ClaimLookup, validQuantity: QuantityCheck): (r: Result<Option<PvcPlan>>)
    ensures existing == Found ==> r == Ok(None)
    ensures existing.LookupError? ==> r == Err(existing.message)
    ensures existing == NotFound && validQuantity(PvcSize(spec)) ==>
              r.Ok? && r.value.Some? && r.value.value.name == name + "-storage" &&
              r.value.value.size == PvcSize(spec) && r.value.value.annotations == PvcAnnotations(spec) &&
              (r.value.value.storageClass.Some? <==> spec.storage.Some? && spec.storage.value.storageClass != "") &&
              (r.value.value.storageClass.Some? ==> r.value.value.storageClass.value == spec.storage.value.storageClass)
    ensures existing == NotFound && !validQuantity(PvcSize(spec)) ==> r.Err?
  {
    match existing
    case Found => Ok(None)
    case LookupError(m) => Err(m)
    case NotFound =>
      var size := PvcSize(spec);
      if !validQuantity(size) then Err("invalid PVC storage size \"" + size + "\"")
      else
        var sc := if spec.storage.Some? && spec.storage.value.storageClass != "" then Some(spec.storage.value.storageClass) else None;
        Ok(Some(PvcPlan(name + "-storage", size, PvcAnnotations(spec), sc)))
  }

  /** The retention a claim records reads back, through `parseDurationString`, as that many days. */
  lemma RetentionRoundTrip(spec: TaskSpec, goParse: GoDurationParser)
    requires spec.storage.Some? && spec.storage.value.retainDays.Some? && spec.storage.value.retainDays.value >= 0
    requires goParse(PvcAnnotations(spec)[RetentionAnnotation]).None?
    ensures ParseDurationString(PvcAnnotations(spec)[RetentionAnnotation], goParse) == Ok(spec.storage.value.retainDays.value * Day)
  {
    var n := spec.storage.value.retainDays.value;
    assert IntToString(n) == NatToString(n);
    ParseDays(n, goParse);
  }

  // ---------------------------------------------------------------- buildPod

  /** The agent image: the spec's, else the agentic or the default image of the cluster. */
  function PodImage(spec: TaskSpec, defaults: ClusterDefaults): (image: string)
    ensures spec.image != "" ==> image == spec.image
    ensures spec.image == "" && IsAgenticTier(spec.tier) ==> image == defaults.agenticImage
    ensures spec.image == "" && !IsAgenticTier(spec.tier) ==> image == defaults.defaultImage
  {
    if spec.image != "" then spec.image
    else if IsAgenticTier(spec.tier) then defaults.agenticImage
    else defaults.defaultImage
  }

  /** The variable that carries the API key, chosen by the endpoint's provider. */
  function ApiKeyEnvName(endpoint: string): (n: string)
    ensures n in {"ANTHROPIC_API_KEY", "OPENAI_API_KEY", "LLM_API_KEY"}
    ensures Contains(Lower(endpoint), "anthropic") ==> n == "ANTHROPIC_API_KEY"
    ensures !Contains(Lower(endpoint), "anthropic") && Contains(Lower(endpoint), "openai") ==> n == "OPENAI_API_KEY"
    ensures !Contains(Lower(endpoint), "anthropic") && !Contains(Lower(endpoint), "openai") ==> n == "LLM_API_KEY"
  {
    if endpoint != "" then
      var e := Lower(endpoint);
      if Contains(e, "anthropic") then "ANTHROPIC_API_KEY"
      else if Contains(e, "openai") then "OPENAI_API_KEY"
      else "LLM_API_KEY"
    else
      assert !Contains(Lower(endpoint), "anthropic") by { assert forall i :: !OccursAt(Lower(endpoint), "anthropic", i); }
      assert !Contains(Lower(endpoint), "openai") by { assert forall i :: !OccursAt(Lower(endpoint), "openai", i); }
      "LLM_API_KEY"
  }

  /** The variables every agent gets, then capabilities, model and API key when the spec has them. */
  function PreludeEnv(name: string, namespace: string, spec: TaskSpec): (env: seq<EnvVar>)
    ensures 5 <= |env| <= 8
    ensures env[..5] == [EnvVar("HORTATOR_PROMPT", spec.prompt, None), EnvVar("HORTATOR_TASK_NAME", name, None),
                         EnvVar("HORTATOR_TASK_NAMESPACE", namespace, None), EnvVar("HORTATOR_TIER", spec.tier, None),
                         EnvVar("HORTATOR_ROLE", spec.role, None)]
    ensures EnvVar("HORTATOR_CAPABILITIES", Join(spec.capabilities, ","), None) in env <==> |spec.capabilities| > 0
    ensures (exists e :: e in env && e.secretRef.Some?) <==> spec.model.Some? && spec.model.value.apiKeyRef.Some?
    ensures spec.model.Some? && spec.model.value.apiKeyRef.Some? ==>
              env[|env| - 1] == EnvVar(ApiKeyEnvName(spec.model.value.endpoint), "", spec.model.value.apiKeyRef)
  {
    var base := [EnvVar("HORTATOR_PROMPT", spec.prompt, None), EnvVar("HORTATOR_TASK_NAME", name, None),
                 EnvVar("HORTATOR_TASK_NAMESPACE", namespace, None), EnvVar("HORTATOR_TIER", spec.tier, None),
                 EnvVar("HORTATOR_ROLE", spec.role, None)];
    var caps := CapabilitiesEnv(spec);
    var model := ModelEnv(spec);
    var key := ApiKeyEnv(spec);
    var env := base + caps + model + key;
    assert env[..5] == base;
    Members4(base, caps, model, key);
    FixedEnvNames(name, namespace, spec);
    env
  }

  /** None of the five fixed variables is the capabilities variable or reads a secret. */
  lemma FixedEnvNames(name: string, namespace: string, spec: TaskSpec)
    ensures forall e :: e in [EnvVar("HORTATOR_PROMPT", spec.prompt, None), EnvVar("HORTATOR_TASK_NAME", name, None),
                              EnvVar("HORTATOR_TASK_NAMESPACE", namespace, None), EnvVar("HORTATOR_TIER", spec.tier, None),
                              EnvVar("HORTATOR_ROLE", spec.role, None)] ==>
              e.name != "HORTATOR_CAPABILITIES" && e.secretRef.None?
  {
  }

  /** `HORTATOR_CAPABILITIES`, the comma-joined capabilities, when there are any. */
  function CapabilitiesEnv(spec: TaskSpec): (r: seq<EnvVar>)
    ensures |r| <= 1
    ensures r != [] <==> |spec.capabilities| > 0
    ensures forall e :: e in r ==> e == EnvVar("HORTATOR_CAPABILITIES", Join(spec.capabilities, ","), None)
  { if |spec.capabilities| > 0 then [EnvVar("HORTATOR_CAPABILITIES", Join(spec.capabilities, ","), None)] else [] }

  /** `HORTATOR_MODEL`, when the task names a model. */
  function ModelEnv(spec: TaskSpec): (r: seq<EnvVar>)
    ensures |r| <= 1
    ensures r != [] <==> spec.model.Some? && spec.model.value.name != ""
    ensures forall e :: e in r ==> e.name == "HORTATOR_MODEL" && e.secretRef.None?
    ensures forall e :: e in r ==> e.value == spec.model.value.name
  { if spec.model.Some? && spec.model.value.name != "" then [EnvVar("HORTATOR_MODEL", spec.model.value.name, None)] else [] }

  /** The provider's API-key variable, read from the task's secret, when it gives one. */
  function ApiKeyEnv(spec: TaskSpec): (r: seq<EnvVar>)
    ensures |r| <= 1
    ensures r != [] <==> spec.model.Some? && spec.model.value.apiKeyRef.Some?
    ensures r != [] ==> r == [EnvVar(ApiKeyEnvName(spec.model.value.endpoint), "", spec.model.value.apiKeyRef)]
    ensures forall e :: e in r ==> e.secretRef.Some?
  {
    if spec.model.Some? && spec.model.value.apiKeyRef.Some?
    then [EnvVar(ApiKeyEnvName(spec.model.value.endpoint), "", spec.model.value.apiKeyRef)] else []
  }

  /** An entry of four concatenated lists is an entry of one of them. */
  lemma Members4<T>(a: seq<T>, b: seq<T>, c: seq<T>, d: seq<T>)
    ensures forall x :: x in a + b + c + d <==> x in a || x in b || x in c || x in d
  {
  }

  /** A custom variable: a secret reference is passed on, otherwise the literal value. */
  function CopyEnv(e: EnvVar): (c: EnvVar)
    ensures c.name == e.name
    ensures e.secretRef.Some? ==> c == EnvVar(e.name, "", e.secretRef)
    ensures e.secretRef.None? ==> c == EnvVar(e.name, e.value, None)
  { if e.secretRef.Some? then EnvVar(e.name, "", e.secretRef) else EnvVar(e.name, e.value, None) }

  /** `PRESIDIO_ENDPOINT`, when Presidio is on for the cluster or the task and has an endpoint. */
  function PresidioEnv(spec: TaskSpec, defaults: ClusterDefaults): (env: seq<EnvVar>)
    ensures |env| <= 1
    ensures |env| == 1 <==> (defaults.presidioEnabled || spec.presidio) && defaults.presidioEndpoint != ""
    ensures |env| == 1 ==> env[0] == EnvVar("PRESIDIO_ENDPOINT", defaults.presidioEndpoint, None)
  {
    if (defaults.presidioEnabled || spec.presidio) && defaults.presidioEndpoint != "" then
      [EnvVar("PRESIDIO_ENDPOINT", defaults.presidioEndpoint, None)]
    else []
  }

  /** The agent container's environment as `buildPod` appends it. */
  method BuildEnv(name: string, namespace: string, spec: TaskSpec, defaults: ClusterDefaults) returns (env: seq<EnvVar>)
    ensures env == PreludeEnv(name, namespace, spec) + CopyAll(spec.env) + PresidioEnv(spec, defaults)
  {
    var prelude := PreludeEnv(name, namespace, spec);
    env := AppendCopies(prelude, spec.env);
    env := env + PresidioEnv(spec, defaults);
  }

  /** Every custom variable copied, in order. */
  function CopyAll(custom: seq<EnvVar>): (r: seq<EnvVar>)
    ensures |r| == |custom| && forall i :: 0 <= i < |custom| ==> r[i] == CopyEnv(custom[i])
  {
    if custom == [] then [] else CopyAll(custom[..|custom| - 1]) + [CopyEnv(custom[|custom| - 1])]
  }

  /** The loop over the task's own variables: each one copied after `prefix`, in order. */
  method AppendCopies(prefix: seq<EnvVar>, custom: seq<EnvVar>) returns (env: seq<EnvVar>)
    ensures env == prefix + CopyAll(custom)
  {
    env := prefix;
    for i := 0 to |custom|
      invariant env == prefix + CopyAll(custom[..i])
    {
      assert custom[..i + 1][..i] == custom[..i];
      env := env + [CopyEnv(custom[i])];
    }
    assert custom[..|custom|] == custom;
  }

  /** The environment in the order `buildPod` appends it: the prelude first, each custom
      variable at its own position after it, and the Presidio variable last. */
  lemma BuildEnvLayout(name: string, namespace: string, spec: TaskSpec, defaults: ClusterDefaults)
    ensures var env := PreludeEnv(name, namespace, spec) + CopyAll(spec.env) + PresidioEnv(spec, defaults);
            var n := |PreludeEnv(name, namespace, spec)|;
            |env| == n + |spec.env| + |PresidioEnv(spec, defaults)| &&
            env[..n] == PreludeEnv(name, namespace, spec) &&
            (forall i :: 0 <= i < |spec.env| ==> env[n + i] == CopyEnv(spec.env[i])) &&
            env[|env| - |PresidioEnv(spec, defaults)|..] == PresidioEnv(spec, defaults)
  {
    var prelude, copies, presidio := PreludeEnv(name, namespace, spec), CopyAll(spec.env), PresidioEnv(spec, defaults);
    ThreeParts(prelude, copies, presidio);
  }

  lemma ThreeParts<T>(a: seq<T>, b: seq<T>, c: seq<T>)
    ensures (a + b + c)[..|a|] == a
    ensures forall i :: 0 <= i < |b| ==> (a + b + c)[|a| + i] == b[i]
    ensures (a + b + c)[|a + b + c| - |c|..] == c
  {
    assert (a + b + c)[..|a|] == a;
    assert (a + b + c)[|a + b + c| - |c|..] == c;
  }

  // ---------------------------------------------------------------- buildVolumes

  datatype Volume = EmptyDir(name: string) | Claim(name: string, claimName: string)
  datatype Mount = Mount(volume: string, path: string, subPath: string)

  /** `buildVolumes`: an ephemeral inbox and the task's claim; outbox, workspace and memory on the
      claim, and the inbox on the claim only for agentic tiers. */
  function BuildVolumes(name: string, tier: string): (r: (seq<Volume>, seq<Mount>))
    ensures r.0 == [EmptyDir("inbox-ephemeral"), Claim("storage", name + "-storage")]
    ensures |r.1| == 4
    ensures forall i :: 0 <= i < 3 ==> r.1[i].volume == "storage" && r.1[i].path == "/" + r.1[i].subPath
    ensures r.1[3].path == "/inbox"
    ensures IsAgenticTier(tier) ==> r.1[3] == Mount("storage", "/inbox", "inbox")
    ensures !IsAgenticTier(tier) ==> r.1[3] == Mount("inbox-ephemeral", "/inbox", "")
  {
    var mounts := [Mount("storage", "/outbox", "outbox"), Mount("storage", "/workspace", "workspace"),
                   Mount("storage", "/memory", "memory")];
    var inbox := if IsAgenticTier(tier) then Mount("storage", "/inbox", "inbox") else Mount("inbox-ephemeral", "/inbox", "");
    ([EmptyDir("inbox-ephemeral"), Claim("storage", name + "-storage")], mounts + [inbox])
  }

  /** The init container's /inbox mount, which writes task.json. */
  function InitInboxMount(tier: string): (m: Mount)
    ensures m.path == "/inbox"
  {
    var vol := if IsAgenticTier(tier) then "storage" else "inbox-ephemeral";
    Mount(vol, "/inbox", if IsAgenticTier(tier) then "inbox" else "")
  }

  /** The init container writes task.json into the same /inbox the agent reads. */
  lemma InitInboxAgrees(name: string, tier: string)
    ensures InitInboxMount(tier) == BuildVolumes(name, tier).1[3]
  {}

  // ---------------------------------------------------------------- buildResources

  /** Quantities keyed by "cpu" and "memory". */
  type Quantities = map<string, string>

  datatype Resources = Resources(requests: Option<Quantities>, limits: Option<Quantities>)

  /** Every non-empty quantity of the list passes the check. */
  predicate Accepted(l: ResourceList, valid: QuantityCheck) {
    (l.cpu == "" || valid(l.cpu)) && (l.memory == "" || valid(l.memory))
  }

  /** `q` holds exactly the list's non-empty quantities, under "cpu" and "memory". */
  predicate ListedAs(q: Quantities, l: ResourceList) {
    q.Keys <= {"cpu", "memory"} &&
    ("cpu" in q <==> l.cpu != "") && ("memory" in q <==> l.memory != "") &&
    (l.cpu != "" ==> q["cpu"] == l.cpu) && (l.memory != "" ==> q["memory"] == l.memory)
  }

  /** One resource list: each non-empty quantity, checked in the order cpu, memory. */
  function QuantityList(l: ResourceList, cpuLabel: string, memLabel: string, valid: QuantityCheck): (r: Result<Quantities>)
    ensures r.Ok? <==> Accepted(l, valid)
    ensures r.Ok? ==> ListedAs(r.value, l)
    ensures r.Ok? <==> (l.cpu == "" || valid(l.cpu)) && (l.memory == "" || valid(l.memory))
    ensures r.Ok? ==> ("cpu" in r.value <==> l.cpu != "") && ("memory" in r.value <==> l.memory != "")
    ensures r.Ok? ==> r.value.Keys <= {"cpu", "memory"}
    ensures r.Ok? && l.cpu != "" ==> r.value["cpu"] == l.cpu
    ensures r.Ok? && l.memory != "" ==> r.value["memory"] == l.memory
  {
    if l.cpu != "" && !valid(l.cpu) then Err("invalid " + cpuLabel + " \"" + l.cpu + "\"")
    else if l.memory != "" && !valid(l.memory) then Err("invalid " + memLabel + " \"" + l.memory + "\"")
    else
      var withCpu: Quantities := if l.cpu != "" then map["cpu" := l.cpu] else map[];
      Ok(if l.memory != "" then withCpu["memory" := l.memory] else withCpu)
  }

  /** `buildResources`: the spec's requests and limits as given (a missing list stays absent),
      or, without a spec, both lists from the cluster defaults. */
  function BuildResources(spec: TaskSpec, defaults: ClusterDefaults, valid: QuantityCheck): (r: Result<Resources>)
    ensures spec.resources.Some? && r.Ok? ==>
              (r.value.requests.None? <==> spec.resources.value.requests.None?) &&
              (r.value.limits.None? <==> spec.resources.value.limits.None?)
    ensures spec.resources.None? && r.Ok? ==> r.value.requests.Some? && r.value.limits.Some?
    ensures spec.resources.None? ==>
              (r.Ok? <==> QuantityList(ResourceList(defaults.defaultRequestsCpu, defaults.defaultRequestsMemory), "", "", valid).Ok? &&
                          QuantityList(ResourceList(defaults.defaultLimitsCpu, defaults.defaultLimitsMemory), "", "", valid).Ok?)
    ensures spec.resources.Some? ==>
              (r.Ok? <==> (spec.resources.value.requests.Some? ==> Accepted(spec.resources.value.requests.value, valid)) &&
                          (spec.resources.value.limits.Some? ==> Accepted(spec.resources.value.limits.value, valid)))
    ensures spec.resources.Some? && spec.resources.value.requests.Some? && r.Ok? ==>
              r.value.requests.Some? && ListedAs(r.value.requests.value, spec.resources.value.requests.value)
    ensures spec.resources.Some? && spec.resources.value.limits.Some? && r.Ok? ==>
              r.value.limits.Some? && ListedAs(r.value.limits.value, spec.resources.value.limits.value)
    ensures spec.resources.None? && r.Ok? ==>
              ListedAs(r.value.requests.value, ResourceList(defaults.defaultRequestsCpu, defaults.defaultRequestsMemory)) &&
              ListedAs(r.value.limits.value, ResourceList(defaults.defaultLimitsCpu, defaults.defaultLimitsMemory))
    ensures spec.resources.None? ==>
              (r.Ok? <==> Accepted(ResourceList(defaults.defaultRequestsCpu, defaults.defaultRequestsMemory), valid) &&
                          Accepted(ResourceList(defaults.defaultLimitsCpu, defaults.defaultLimitsMemory), valid))
  {
    match spec.resources
    case Some(res) =>
      var requests := if res.requests.Some? then QuantityList(res.requests.value, "CPU request", "memory request", valid) else Ok(map[]);
      if requests.Err? then Err(requests.error)
      else
        var limits := if res.limits.Some? then QuantityList(res.limits.value, "CPU limit", "memory limit", valid) else Ok(map[]);
        if limits.Err? then Err(limits.error)
        else Ok(Resources(if res.requests.Some? then Some(requests.value) else None,
                          if res.limits.Some? then Some(limits.value) else None))
    case None =>
      var requests := QuantityList(ResourceList(defaults.defaultRequestsCpu, defaults.defaultRequestsMemory),
                                   "default CPU request", "default memory request", valid);
      if requests.Err? then Err(requests.error)
      else
        var limits := QuantityList(ResourceList(defaults.defaultLimitsCpu, defaults.defaultLimitsMemory),
                                   "default CPU limit", "default memory limit", valid);
        if limits.Err? then Err(limits.error)
        else Ok(Resources(Some(requests.value), Some(limits.value)))
  }

  /** With the built-in defaults and every quantity accepted, a task without resources asks for
      100m CPU and 128Mi memory, limited to 500m and 512Mi. */
  lemma DefaultResources(spec: TaskSpec, env: map<string, string>, valid: QuantityCheck)
    requires spec.resources.None?
    requires forall q :: valid(q)
    ensures BuildResources(spec, BaseDefaults(env), valid) ==
              Ok(Resources(Some(map["cpu" := "100m", "memory" := "128Mi"]), Some(map["cpu" := "500m", "memory" := "512Mi"])))
  {}
}
