/**
 * The cluster defaults the operator caches from the `hortator-config` ConfigMap
 * (internal/controller/agenttask_controller.go types, internal/controller/helpers.go
 * `loadClusterDefaults` and `refreshDefaultsIfStale`).
 */
module ControllerConfig {
  import opened Wrappers
  import opened Strs
  import opened Api

  datatype WarmPoolConfig = WarmPoolConfig(enabled: bool, size: int)
  datatype BudgetConfig = BudgetConfig(enabled: bool, refreshIntervalH: int)
  datatype StuckDetectionConfig = StuckDetectionConfig(enabled: bool, toolDiversityMin: real, maxRepeatedPrompts: int,
                                                       statusStaleMinutes: int, checkWindowMinutes: int, action: string)
  datatype HealthConfig = HealthConfig(enabled: bool, stuckDetection: StuckDetectionConfig)
  datatype StorageRetainedConfig = StorageRetainedConfig(discovery: string, autoMount: bool, maxRetainedPerNs: int)
  datatype CleanupTtlConfig = CleanupTtlConfig(completed: string, failed: string, cancelled: string)

  /** `ClusterDefaults`. */
  datatype ClusterDefaults = ClusterDefaults(
    defaultTimeout: int,
    defaultImage: string,
    agenticImage: string,
    defaultRequestsCpu: string,
    defaultRequestsMemory: string,
    defaultLimitsCpu: string,
    defaultLimitsMemory: string,
    enforceNamespaceLabels: bool,
    presidioEnabled: bool,
    presidioEndpoint: string,
    warmPool: WarmPoolConfig,
    resultCacheEnabled: bool,
    resultCacheTtl: Duration,
    resultCacheMaxEntries: int,
    budget: BudgetConfig,
    health: HealthConfig,
    storageRetained: StorageRetainedConfig,
    cleanupTtl: CleanupTtlConfig)

  const ConfigCacheTtl: Duration := 30 * Second
  const FallbackImage := "ghcr.io/hortator-ai/agent:latest"
  const FallbackAgenticImage := "ghcr.io/hortator-ai/agent-agentic:latest"

  /** An environment variable, or the fallback when it is unset or empty. */
  function EnvOr(env: map<string, string>, name: string, fallback: string): (r: string)
    ensures name in env && env[name] != "" ==> r == env[name]
    ensures !(name in env && env[name] != "") ==> r == fallback
  { if name in env && env[name] != "" then env[name] else fallback }

  /** The defaults before any ConfigMap key is applied; every other field is Go's zero value. */
  function BaseDefaults(env: map<string, string>): ClusterDefaults
  {
    ClusterDefaults(600, EnvOr(env, "HORTATOR_DEFAULT_AGENT_IMAGE", FallbackImage),
                    EnvOr(env, "HORTATOR_AGENTIC_IMAGE", FallbackAgenticImage),
                    "100m", "128Mi", "500m", "512Mi", false, false, "", WarmPoolConfig(false, 0),
                    false, 0, 0, BudgetConfig(false, 0),
                    HealthConfig(false, StuckDetectionConfig(false, 0.0, 0, 0, 0, "")),
                    StorageRetainedConfig("", false, 0), CleanupTtlConfig("", "", ""))
  }

  /** A non-empty ConfigMap value, else the current setting. */
  function StrKey(data: map<string, string>, key: string, current: string): (r: string)
    ensures key in data && data[key] != "" ==> r == data[key]
    ensures !(key in data && data[key] != "") ==> r == current
  { if key in data && data[key] != "" then data[key] else current }

  /** A ConfigMap flag: present means `value == "true"`, absent keeps the current setting. */
  function BoolKey(data: map<string, string>, key: string, current: bool): (r: bool)
    ensures key in data ==> (r <==> data[key] == "true")
    ensures key !in data ==> r == current
  { if key in data then data[key] == "true" else current }

  /** A ConfigMap integer: applied only when `strconv.Atoi` accepts it. */
  function IntKey(data: map<string, string>, key: string, current: int): (r: int)
    ensures key in data && Atoi(data[key]).Some? ==> r == Atoi(data[key]).value
    ensures !(key in data && Atoi(data[key]).Some?) ==> r == current
  { if key in data && Atoi(data[key]).Some? then Atoi(data[key]).value else current }

  /** `loadClusterDefaults`: `configMap` is None when the ConfigMap could not be read. */
  function LoadClusterDefaults(configMap: Option<map<string, string>>, env: map<string, string>): (d: ClusterDefaults)
    ensures configMap.None? ==> d == BaseDefaults(env)
    ensures configMap.Some? ==> d.warmPool.size != 0
    ensures configMap.Some? ==>
              var data := configMap.value;
              d.defaultTimeout == IntKey(data, "defaultTimeout", 600) &&
              d.defaultImage == StrKey(data, "defaultImage", EnvOr(env, "HORTATOR_DEFAULT_AGENT_IMAGE", FallbackImage)) &&
              d.agenticImage == StrKey(data, "agenticImage", EnvOr(env, "HORTATOR_AGENTIC_IMAGE", FallbackAgenticImage))
    ensures configMap.Some? ==>
              var data := configMap.value;
              d.defaultRequestsCpu == StrKey(data, "defaultRequestsCPU", "100m") &&
              d.defaultRequestsMemory == StrKey(data, "defaultRequestsMemory", "128Mi") &&
              d.defaultLimitsCpu == StrKey(data, "defaultLimitsCPU", "500m") &&
              d.defaultLimitsMemory == StrKey(data, "defaultLimitsMemory", "512Mi")
    ensures configMap.Some? ==>
              var data := configMap.value;
              d.enforceNamespaceLabels == BoolKey(data, "enforceNamespaceLabels", false) &&
              d.presidioEnabled == BoolKey(data, "presidioEnabled", false) &&
              d.presidioEndpoint == StrKey(data, "presidioEndpoint", "") &&
              d.warmPool.enabled == BoolKey(data, "warmPoolEnabled", false) &&
              (IntKey(data, "warmPoolSize", 0) != 0 ==> d.warmPool.size == IntKey(data, "warmPoolSize", 0))
    ensures configMap.Some? ==>
              var data := configMap.value;
              d.resultCacheEnabled == BoolKey(data, "resultCacheEnabled", false) &&
              d.resultCacheTtl == IntKey(data, "resultCacheTTLSeconds", 0) * Second &&
              d.resultCacheMaxEntries == IntKey(data, "resultCacheMaxEntries", 0)
    ensures d.storageRetained == StorageRetainedConfig("", false, 0)
    ensures d.cleanupTtl == CleanupTtlConfig("", "", "")
    ensures d.health.enabled == false && d.budget.enabled == false
  {
    var b := BaseDefaults(env);
    match configMap
    case None => b
    case Some(data) =>
      var size := IntKey(data, "warmPoolSize", 0);
      b.(defaultTimeout := IntKey(data, "defaultTimeout", 600),
         defaultImage := StrKey(data, "defaultImage", b.defaultImage),
         agenticImage := StrKey(data, "agenticImage", b.agenticImage),
         defaultRequestsCpu := StrKey(data, "defaultRequestsCPU", "100m"),
         defaultRequestsMemory := StrKey(data, "defaultRequestsMemory", "128Mi"),
         defaultLimitsCpu := StrKey(data, "defaultLimitsCPU", "500m"),
         defaultLimitsMemory := StrKey(data, "defaultLimitsMemory", "512Mi"),
         enforceNamespaceLabels := BoolKey(data, "enforceNamespaceLabels", false),
         presidioEnabled := BoolKey(data, "presidioEnabled", false),
         presidioEndpoint := StrKey(data, "presidioEndpoint", ""),
         warmPool := WarmPoolConfig(BoolKey(data, "warmPoolEnabled", false), if size == 0 then 2 else size),
         resultCacheEnabled := BoolKey(data, "resultCacheEnabled", false),
         resultCacheTtl := IntKey(data, "resultCacheTTLSeconds", 0) * Second,
         resultCacheMaxEntries := IntKey(data, "resultCacheMaxEntries", 0))
  }

  /** A readable but empty ConfigMap gives the documented defaults: a 600-second timeout, the
      image variables or their fallbacks, 100m/128Mi requests and 500m/512Mi limits, a disabled
      warm pool of 2 and no result cache. It differs from an unreadable ConfigMap only in the
      warm-pool size. */
  lemma EmptyConfigMapDefaults(env: map<string, string>)
    ensures var d := LoadClusterDefaults(Some(map[]), env);
            d.defaultTimeout == 600 &&
            d.defaultImage == EnvOr(env, "HORTATOR_DEFAULT_AGENT_IMAGE", FallbackImage) &&
            d.agenticImage == EnvOr(env, "HORTATOR_AGENTIC_IMAGE", FallbackAgenticImage) &&
            d.defaultRequestsCpu == "100m" && d.defaultRequestsMemory == "128Mi" &&
            d.defaultLimitsCpu == "500m" && d.defaultLimitsMemory == "512Mi" &&
            d.warmPool == WarmPoolConfig(false, 2) &&
            !d.resultCacheEnabled && d.resultCacheTtl == 0 && d.resultCacheMaxEntries == 0
    ensures LoadClusterDefaults(Some(map[]), env) == LoadClusterDefaults(None, env).(warmPool := WarmPoolConfig(false, 2))
  {
    var d := LoadClusterDefaults(Some(map[]), env);
    assert d.defaultTimeout == IntKey(map[], "defaultTimeout", 600) == 600;
  }

  /** A readable ConfigMap without a usable non-zero `warmPoolSize` gives a warm pool of 2;
      an unreadable one leaves the size at Go's zero value. */
  lemma WarmPoolSizeDefault(data: map<string, string>, env: map<string, string>)
    ensures ("warmPoolSize" !in data || Atoi(data["warmPoolSize"]) in {None, Some(0)}) ==>
              LoadClusterDefaults(Some(data), env).warmPool.size == 2
    ensures ("warmPoolSize" in data && Atoi(data["warmPoolSize"]).Some? && Atoi(data["warmPoolSize"]).value != 0) ==>
              LoadClusterDefaults(Some(data), env).warmPool.size == Atoi(data["warmPoolSize"]).value
    ensures LoadClusterDefaults(None, env).warmPool.size == 0
  {}

  /** The reconciler's cached defaults and when they were loaded. */
  class DefaultsCache {
    var defaults: ClusterDefaults
    var defaultsAt: Time
    const defaultsTtl: Duration

    constructor (ttl: Duration)
      ensures defaultsTtl == ttl && defaultsAt == 0
    {
      defaults := BaseDefaults(map[]);
      defaultsAt := 0;
      defaultsTtl := ttl;
    }

    /** The TTL in force: 0 means the 30-second default. */
    function Ttl(): (t: Duration)
      reads this
      ensures defaultsTtl != 0 ==> t == defaultsTtl
      ensures defaultsTtl == 0 ==> t == ConfigCacheTtl
    { if defaultsTtl == 0 then ConfigCacheTtl else defaultsTtl }

    /** Whether the cache is still within its TTL at `now`. */
    predicate Fresh(now: Time)
      reads this
    { now - defaultsAt < Ttl() }

    /** `refreshDefaultsIfStale`: reload only once the TTL has run out. */
    method RefreshDefaultsIfStale(now: Time, configMap: Option<map<string, string>>, env: map<string, string>)
      modifies this
      ensures old(Fresh(now)) ==> defaults == old(defaults) && defaultsAt == old(defaultsAt)
      ensures !old(Fresh(now)) ==> defaults == LoadClusterDefaults(configMap, env) && defaultsAt == now
      ensures !old(Fresh(now)) && Ttl() > 0 ==> Fresh(now)
    {
      var ttl := Ttl();
      var young := now - defaultsAt < ttl;
      if young {
        return;
      }
      defaults := LoadClusterDefaults(configMap, env);
      defaultsAt := now;
    }
  }
}
