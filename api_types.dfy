/**
 * The AgentTask custom resource (api/v1alpha1/agenttask_types.go) as the operator's logic
 * sees it: the task phases, the spec a user writes, and the status the controller keeps.
 * Times are integers (nanoseconds since an arbitrary epoch, like Go's `time.Time` and
 * `time.Duration`); an optional field Go leaves nil is `None`.
 */
module Api {
  import opened Wrappers

  type Time = int
  type Duration = int

  const Second: Duration := 1_000_000_000
  const Minute: Duration := 60 * Second
  const Hour: Duration := 60 * Minute
  const Day: Duration := 24 * Hour

  /** `AgentTaskPhase`. The Go type is a string: `NoPhase` is "" and `OtherPhase` any value
      outside the nine declared constants. */
  datatype Phase =
    | NoPhase | Pending | Running | Waiting | Completed | Failed | BudgetExceeded
    | TimedOut | Cancelled | Retrying | OtherPhase(name: string)

  /** `isTerminalPhase`: a task that has finished one way or another. */
  predicate IsTerminalPhase(p: Phase)
  {
    match p
    case Completed | Failed | TimedOut | BudgetExceeded | Cancelled => true
    case _ => false
  }

  datatype SecretKeyRef = SecretKeyRef(secretName: string, key: string)
  datatype ModelSpec = ModelSpec(endpoint: string, name: string, apiKeyRef: Option<SecretKeyRef>)
  datatype RetrySpec = RetrySpec(maxAttempts: int, backoffSeconds: int, maxBackoffSeconds: int)
  datatype AttemptRecord = AttemptRecord(attempt: int, startTime: Option<Time>, endTime: Time,
                                         exitCode: Option<int>, reason: string)
  datatype BudgetSpec = BudgetSpec(maxTokens: Option<int>, maxCostUsd: string)
  datatype StorageSpec = StorageSpec(retain: bool, retainDays: Option<int>, storageClass: string, size: string)
  datatype StuckDetectionSpec = StuckDetectionSpec(toolDiversityMin: Option<real>, maxRepeatedPrompts: Option<int>,
                                                   statusStaleMinutes: Option<int>, action: string)
  datatype HealthSpec = HealthSpec(stuckDetection: Option<StuckDetectionSpec>)
  datatype EnvVar = EnvVar(name: string, value: string, secretRef: Option<SecretKeyRef>)
  datatype ResourceList = ResourceList(cpu: string, memory: string)
  datatype ResourceRequirements = ResourceRequirements(requests: Option<ResourceList>, limits: Option<ResourceList>)
  datatype TokenUsage = TokenUsage(input: int, output: int)

  /** `AgentTaskSpec`, the fields the operator's decisions read. */
  datatype TaskSpec = TaskSpec(
    prompt: string,
    role: string,
    tier: string,
    parentTaskId: string,
    model: Option<ModelSpec>,
    image: string,
    capabilities: seq<string>,
    env: seq<EnvVar>,
    timeout: Option<int>,
    budget: Option<BudgetSpec>,
    hierarchyBudget: Option<BudgetSpec>,
    resources: Option<ResourceRequirements>,
    storage: Option<StorageSpec>,
    health: Option<HealthSpec>,
    presidio: bool,
    retry: Option<RetrySpec>)

  /** `AgentTaskStatus`, without the rendered `Duration` string and the conditions. */
  datatype TaskStatus = TaskStatus(
    phase: Phase,
    output: string,
    podName: string,
    startedAt: Option<Time>,
    completedAt: Option<Time>,
    tokensUsed: Option<TokenUsage>,
    estimatedCostUsd: string,
    hierarchyTokensUsed: Option<TokenUsage>,
    hierarchyCostUsed: string,
    childTasks: seq<string>,
    pendingChildren: seq<string>,
    message: string,
    attempts: int,
    nextRetryTime: Option<Time>,
    history: seq<AttemptRecord>)

  /** A task as a lookup in the namespace returns it (a copy, not the controller's object). */
  datatype TaskObject = TaskObject(name: string, annotations: map<string, string>, spec: TaskSpec, status: TaskStatus)

  /** The AgentTask the reconciler holds and updates in place. */
  class AgentTask {
    const name: string
    const namespace: string
    var annotations: map<string, string>
    const spec: TaskSpec
    var status: TaskStatus

    constructor (name: string, namespace: string, annotations: map<string, string>, spec: TaskSpec, status: TaskStatus)
      ensures this.name == name && this.namespace == namespace && this.annotations == annotations
      ensures this.spec == spec && this.status == status
    {
      this.name := name;
      this.namespace := namespace;
      this.annotations := annotations;
      this.spec := spec;
      this.status := status;
    }
  }

  /** `setCompletionStatus`: stamp the completion time (the rendered duration is not modelled). */
  function Complete(st: TaskStatus, now: Time): (r: TaskStatus)
    ensures r.completedAt == Some(now)
    ensures r.(completedAt := st.completedAt) == st
  { st.(completedAt := Some(now)) }
}
