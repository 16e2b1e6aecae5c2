/**
 * The task reconciler's phase rules (internal/controller/agenttask_controller.go): which
 * handler a phase goes to, retries and their backoff, the attempt history, the Waiting and
 * Retrying handlers, what a succeeded pod turns into, and when a finished task is garbage
 * collected. The clock is the `now` parameter and `rand.Intn` is the `draw` parameter.
 */
module TaskController {
  import opened Wrappers
  import opened Strs
  import opened Api
  import opened ControllerConfig
  import opened ControllerHelpers
  import opened PodBuilder
  import opened Budget
  import Cache
  import HierarchyBudget

  /** `ctrl.Result`: stop, requeue at once, or requeue after a delay. */
  datatype ReconcileResult = Done | Requeue | RequeueAfter(after: Duration)

  // ---------------------------------------------------------------- the phase switch

  datatype Handler = PendingHandler | RunningHandler | WaitingHandler | RetryingHandler | TerminalHandler | UnknownPhase

  /** The handler `Reconcile` dispatches a phase to. */
  function Route(p: Phase): (h: Handler)
  {
    match p
    case NoPhase | Pending => PendingHandler
    case Running => RunningHandler
    case Waiting => WaitingHandler
    case Retrying => RetryingHandler
    case Completed | Failed | TimedOut | BudgetExceeded | Cancelled => TerminalHandler
    case OtherPhase(_) => UnknownPhase
  }

  /** Terminal handling (accounting and garbage collection) is reached exactly for the terminal
      phases, and a task without a phase is treated as Pending. */
  lemma RouteTerminal(p: Phase)
    ensures Route(p) == TerminalHandler <==> IsTerminalPhase(p)
    ensures Route(NoPhase) == Route(Pending)
    ensures Route(p) == UnknownPhase <==> p.OtherPhase?
  {}

  const HierarchyAccounted := "hortator.ai/hierarchy-accounted"

  /** The first terminal reconcile marks the task so its usage is added to the hierarchy once;
      the result says whether this call is that first one. */
  method MarkHierarchyAccounted(task: AgentTask) returns (account: bool)
    modifies task
    ensures account <==> HierarchyAccounted !in old(task.annotations)
    ensures account ==> task.annotations == old(task.annotations)[HierarchyAccounted := "true"]
    ensures !account ==> task.annotations == old(task.annotations)
    ensures HierarchyAccounted in task.annotations
  {
    if HierarchyAccounted in task.annotations {
      return false;
    }
    task.annotations := task.annotations[HierarchyAccounted := "true"];
    return true;
  }

  // ---------------------------------------------------------------- shouldRetry

  /** `shouldRetry`: retries are configured and not used up. */
  predicate ShouldRetry(spec: TaskSpec, attempts: int)
  { spec.retry.Some? && spec.retry.value.maxAttempts > 0 && attempts < spec.retry.value.maxAttempts }

  /** Without a positive MaxAttempts nothing is retried; otherwise the attempt recorded before
      the check keeps the count at or below MaxAttempts. */
  lemma RetriesBounded(spec: TaskSpec, attempts: int)
    ensures spec.retry.None? || spec.retry.value.maxAttempts <= 0 ==> !ShouldRetry(spec, attempts)
    ensures ShouldRetry(spec, attempts) ==> attempts + 1 <= spec.retry.value.maxAttempts
    ensures spec.retry.Some? && spec.retry.value.maxAttempts > 0 && attempts >= spec.retry.value.maxAttempts ==>
              !ShouldRetry(spec, attempts)
  {}

  // ---------------------------------------------------------------- computeBackoff

  /** The first backoff in seconds: 30, or the spec's positive BackoffSeconds. */
  function BackoffBase(spec: TaskSpec): (b: int)
    ensures b > 0
    ensures spec.retry.Some? && spec.retry.value.backoffSeconds > 0 ==> b == spec.retry.value.backoffSeconds
    ensures !(spec.retry.Some? && spec.retry.value.backoffSeconds > 0) ==> b == 30
  { if spec.retry.Some? && spec.retry.value.backoffSeconds > 0 then spec.retry.value.backoffSeconds else 30 }

  /** The cap in seconds: 300, or the spec's positive MaxBackoffSeconds. */
  function BackoffMax(spec: TaskSpec): (m: int)
    ensures m > 0
    ensures spec.retry.Some? && spec.retry.value.maxBackoffSeconds > 0 ==> m == spec.retry.value.maxBackoffSeconds
    ensures !(spec.retry.Some? && spec.retry.value.maxBackoffSeconds > 0) ==> m == 300
  { if spec.retry.Some? && spec.retry.value.maxBackoffSeconds > 0 then spec.retry.value.maxBackoffSeconds else 300 }

  /** `k` more doublings of `b`; the first one past `m` becomes `m` and ends the doubling. */
  function Doubled(b: int, m: int, k: nat): int
    decreases k
  {
    if k == 0 then b
    else if b * 2 > m then m
    else Doubled(b * 2, m, k - 1)
  }

  function Pow2(k: nat): (p: nat)
    ensures p >= 1
  { if k == 0 then 1 else 2 * Pow2(k - 1) }

  /** Doubling stops at the cap: after at least one doubling the backoff is min(b * 2^k, m). */
  lemma {:induction false} DoubledClosedForm(b: int, m: int, k: nat)
    requires 0 < b
    ensures k == 0 ==> Doubled(b, m, k) == b
    ensures k > 0 ==> Doubled(b, m, k) == if b * Pow2(k) <= m then b * Pow2(k) else m
    decreases k
  {
    if k > 0 {
      var p := Pow2(k - 1);
      assert Pow2(k) == 2 * p;
      MulTwice(b, p);
      if b * 2 > m {
        PowMonotone(b * 2, k - 1);
      } else if k > 1 {
        DoubledClosedForm(b * 2, m, k - 1);
      } else {
        assert p == 1;
      }
    }
  }

  lemma MulTwice(b: int, p: int)
    ensures b * (2 * p) == (b * 2) * p
  {
  }

  lemma PowMonotone(c: int, k: nat)
    requires c > 0
    ensures c * Pow2(k) >= c
  {}

  /** The number of doublings the loop does for a task on its `attempts`-th attempt. */
  function Doublings(attempts: int): (n: nat)
    ensures attempts > 1 ==> n == attempts - 1
    ensures attempts <= 1 ==> n == 0
  { if attempts > 1 then attempts - 1 else 0 }

  /** The backoff in seconds before jitter. */
  function BackoffBeforeJitter(spec: TaskSpec, attempts: int): (b: int)
    ensures b > 0
  {
    DoubledBounds(BackoffBase(spec), BackoffMax(spec), Doublings(attempts));
    Doubled(BackoffBase(spec), BackoffMax(spec), Doublings(attempts))
  }

  /** The jittered backoff: `rand.Intn(b/2+1) - b/4` added, and at least one second. */
  function Jittered(b: int, draw: nat): (s: int)
    requires b > 0
    ensures s >= 1
    ensures s >= b - b / 4
    ensures s <= b - b / 4 + b / 2
  {
    var j := draw % (b / 2 + 1) - b / 4;
    if b + j < 1 then 1 else b + j
  }

  /** Doubling keeps the backoff positive and, once it has doubled, never above the cap. */
  lemma {:induction false} DoubledBounds(b: int, m: int, k: nat)
    requires 0 < b && 0 < m
    ensures Doubled(b, m, k) > 0
    ensures k > 0 ==> Doubled(b, m, k) <= m
    ensures b <= m ==> b <= Doubled(b, m, k) <= m
    decreases k
  {
    if k > 0 && b * 2 <= m { DoubledBounds(b * 2, m, k - 1); }
  }

  /** `computeBackoff`, its doubling loop as written. */
  method ComputeBackoff(spec: TaskSpec, attempts: int, draw: nat) returns (d: Duration)
    ensures d == Jittered(BackoffBeforeJitter(spec, attempts), draw) * Second
    ensures d >= Second
  {
    var base := BackoffBase(spec);
    var max := BackoffMax(spec);
    DoubledBounds(base, max, Doublings(attempts));
    var backoff := base;
    var i := 1;
    while i < attempts
      invariant 1 <= i && (attempts <= 1 || i <= attempts)
      invariant backoff > 0
      invariant Doubled(backoff, max, if attempts > i then attempts - i else 0) == Doubled(base, max, Doublings(attempts))
      decreases attempts - i
    {
      var prev := backoff;
      backoff := backoff * 2;
      if backoff > max {
        backoff := max;
        assert Doubled(prev, max, attempts - i) == max;
        assert Doubled(backoff, max, 0) == max;
        i := attempts;
        break;
      }
      i := i + 1;
    }
    var jitter := draw % (backoff / 2 + 1) - backoff / 4;
    backoff := backoff + jitter;
    if backoff < 1 {
      backoff := 1;
    }
    return backoff * Second;
  }

  /** The default policy backs off 30s, 60s, 120s, 240s and then stays at 300s, before jitter. */
  lemma DefaultBackoffSchedule(spec: TaskSpec)
    requires spec.retry.None?
    ensures BackoffBeforeJitter(spec, 1) == 30 && BackoffBeforeJitter(spec, 2) == 60
    ensures BackoffBeforeJitter(spec, 3) == 120 && BackoffBeforeJitter(spec, 4) == 240
    ensures forall a :: a >= 5 ==> BackoffBeforeJitter(spec, a) == 300
  {
    forall a | a >= 5 ensures BackoffBeforeJitter(spec, a) == 300 {
      DoubledClosedForm(30, 300, a - 1);
      PowAtLeast16(a - 1);
    }
  }

  lemma {:induction false} PowAtLeast16(k: nat)
    requires k >= 4
    ensures Pow2(k) >= 16
    decreases k
  {
    if k > 4 { PowAtLeast16(k - 1); }
    else { assert Pow2(4) == 16; }
  }

  // ---------------------------------------------------------------- recordAttempt

  /** The status after one more attempt ended at `now`. */
  function Recorded(st: TaskStatus, exitCode: Option<int>, reason: string, now: Time): (r: TaskStatus)
    ensures r.attempts == st.attempts + 1
    ensures |r.history| == |st.history| + 1 && r.history[..|st.history|] == st.history
    ensures r.history[|st.history|] == AttemptRecord(r.attempts, st.startedAt, now, exitCode, reason)
    ensures r.(attempts := st.attempts, history := st.history) == st
  {
    var n := st.attempts + 1;
    st.(attempts := n, history := st.history + [AttemptRecord(n, st.startedAt, now, exitCode, reason)])
  }

  /** The history holds one record per attempt, numbered from 1. */
  predicate HistoryNumbered(st: TaskStatus)
  { |st.history| == st.attempts && forall i :: 0 <= i < |st.history| ==> st.history[i].attempt == i + 1 }

  /** Recording an attempt keeps the history numbered. */
  lemma RecordedKeepsNumbered(st: TaskStatus, exitCode: Option<int>, reason: string, now: Time)
    requires HistoryNumbered(st)
    ensures HistoryNumbered(Recorded(st, exitCode, reason, now))
  {
    var r := Recorded(st, exitCode, reason, now);
    forall i | 0 <= i < |r.history| ensures r.history[i].attempt == i + 1 {
      if i < |st.history| { assert r.history[i] == st.history[i]; }
    }
  }

  /** `recordAttempt`. */
  method RecordAttempt(task: AgentTask, exitCode: Option<int>, reason: string, now: Time)
    modifies task
    ensures task.status == Recorded(old(task.status), exitCode, reason, now)
    ensures task.annotations == old(task.annotations)
  {
    var n := task.status.attempts + 1;
    var record := AttemptRecord(n, task.status.startedAt, now, exitCode, reason);
    task.status := task.status.(attempts := n, history := task.status.history + [record]);
  }

  // ---------------------------------------------------------------- handleWaiting

  /** Every pending child could be fetched and has finished. */
  predicate AllChildrenDone(pending: seq<string>, children: map<string, Phase>)
  { forall c :: c in pending ==> c in children && IsTerminalPhase(children[c]) }

  /** The wake-up `handleWaiting` does. */
  function Reincarnated(st: TaskStatus): (r: TaskStatus)
    ensures r.phase == Pending && r.pendingChildren == []
  { st.(phase := Pending, pendingChildren := [], message := "Children completed, restarting agent") }

  /** `handleWaiting`, with the children the lookups find as `children`. */
  method HandleWaiting(task: AgentTask, children: map<string, Phase>) returns (res: ReconcileResult)
    modifies task
    ensures AllChildrenDone(old(task.status.pendingChildren), children) && |old(task.status.pendingChildren)| > 0 ==>
              task.status == Reincarnated(old(task.status)) && res == Requeue
    ensures !(AllChildrenDone(old(task.status.pendingChildren), children) && |old(task.status.pendingChildren)| > 0) ==>
              task.status == old(task.status) && res == RequeueAfter(30 * Second)
  {
    var pending := task.status.pendingChildren;
    var allDone := true;
    for i := 0 to |pending|
      invariant allDone <==> forall k :: 0 <= k < i ==> pending[k] in children && IsTerminalPhase(children[pending[k]])
    {
      if pending[i] !in children {
        allDone := false;
      } else if !IsTerminalPhase(children[pending[i]]) {
        allDone := false;
      }
    }
    if allDone && |pending| > 0 {
      task.status := Reincarnated(task.status);
      return Requeue;
    }
    if !allDone {
      var k :| 0 <= k < |pending| && !(pending[k] in children && IsTerminalPhase(children[pending[k]]));
      assert pending[k] in pending;
    }
    return RequeueAfter(30 * Second);
  }

  /** Both wake-up paths agree: the last child reporting in and the Waiting poll leave the parent
      Pending with no pending children and the same message. */
  lemma WakeUpsAgree(st: TaskStatus, child: string)
    requires st.phase == Waiting && st.pendingChildren == [child]
    ensures NotifiedStatus(st, child).phase == Reincarnated(st).phase
    ensures NotifiedStatus(st, child).pendingChildren == Reincarnated(st).pendingChildren
    ensures NotifiedStatus(st, child).message == Reincarnated(st).message
  {
    WithoutAll(st.pendingChildren, child);
  }

  // ---------------------------------------------------------------- handleRetrying

  /** `handleRetrying`: back to Pending once the retry time has come (or none was set). */
  method HandleRetrying(task: AgentTask, now: Time) returns (res: ReconcileResult)
    modifies task
    ensures old(task.status.nextRetryTime).None? ==>
              task.status == old(task.status).(phase := Pending) && res == Requeue
    ensures old(task.status.nextRetryTime).Some? && old(task.status.nextRetryTime).value - now > 0 ==>
              task.status == old(task.status) && res == RequeueAfter(old(task.status.nextRetryTime).value - now)
    ensures old(task.status.nextRetryTime).Some? && old(task.status.nextRetryTime).value - now <= 0 ==>
              task.status == old(task.status).(phase := Pending, nextRetryTime := None,
                                                message := "Retry attempt " + IntToString(old(task.status.attempts) + 1)) &&
              res == Requeue
    ensures res.RequeueAfter? ==> res.after > 0
  {
    if task.status.nextRetryTime.None? {
      task.status := task.status.(phase := Pending);
      return Requeue;
    }
    var remaining := task.status.nextRetryTime.value - now;
    if remaining > 0 {
      return RequeueAfter(remaining);
    }
    task.status := task.status.(phase := Pending, nextRetryTime := None,
                                message := "Retry attempt " + IntToString(task.status.attempts + 1));
    return Requeue;
  }

  // ---------------------------------------------------------------- handleTTLCleanup

  const RetainAnnotation := "hortator.ai/retain"

  /** The per-phase default retention, "1h" when the configuration leaves it empty. */
  function DefaultRetention(p: Phase, ttl: CleanupTtlConfig): (r: string)
    ensures r != ""
    ensures p == Failed && ttl.failed != "" ==> r == ttl.failed
    ensures p == Cancelled && ttl.cancelled != "" ==> r == ttl.cancelled
    ensures p != Failed && p != Cancelled && ttl.completed != "" ==> r == ttl.completed
    ensures (if p == Failed then ttl.failed else if p == Cancelled then ttl.cancelled else ttl.completed) == "" ==> r == "1h"
  {
    var d := match p
             case Failed => ttl.failed
             case Cancelled => ttl.cancelled
             case _ => ttl.completed;
    if d == "" then "1h" else d
  }

  /** The retention in force: the task's retention annotation unless it is empty or "true". */
  function Retention(annotations: map<string, string>, p: Phase, ttl: CleanupTtlConfig): (r: string)
    ensures RetentionAnnotation in annotations && annotations[RetentionAnnotation] !in {"", "true"} ==>
              r == annotations[RetentionAnnotation]
    ensures !(RetentionAnnotation in annotations && annotations[RetentionAnnotation] !in {"", "true"}) ==>
              r == DefaultRetention(p, ttl)
  {
    if RetentionAnnotation in annotations && annotations[RetentionAnnotation] != "" && annotations[RetentionAnnotation] != "true"
    then annotations[RetentionAnnotation]
    else DefaultRetention(p, ttl)
  }

  /** The retention as a duration; an unparsable retention falls back to the default, and an
      unparsable default counts as zero. */
  function RetentionDuration(annotations: map<string, string>, p: Phase, ttl: CleanupTtlConfig, goParse: GoDurationParser): (d: Duration)
    ensures ParseDurationString(Retention(annotations, p, ttl), goParse).Ok? ==>
              d == ParseDurationString(Retention(annotations, p, ttl), goParse).value
    ensures (ParseDurationString(Retention(annotations, p, ttl), goParse).Err? &&
             ParseDurationString(DefaultRetention(p, ttl), goParse).Ok?) ==>
              d == ParseDurationString(DefaultRetention(p, ttl), goParse).value
    ensures (ParseDurationString(Retention(annotations, p, ttl), goParse).Err? &&
             ParseDurationString(DefaultRetention(p, ttl), goParse).Err?) ==> d == 0
  {
    match ParseDurationString(Retention(annotations, p, ttl), goParse)
    case Ok(d) => d
    case Err(_) =>
      match ParseDurationString(DefaultRetention(p, ttl), goParse)
      case Ok(d) => d
      case Err(_) => 0
  }

  /** What `handleTTLCleanup` does: keep the task, look again later, or delete it (and its claim
      unless the spec retains storage). */
  datatype TtlOutcome = Keep | WaitFor(remaining: Duration) | Collect(deleteClaim: bool)

  function TtlCleanup(annotations: map<string, string>, spec: TaskSpec, status: TaskStatus, ttl: CleanupTtlConfig,
                      now: Time, goParse: GoDurationParser): (r: TtlOutcome)
    ensures RetainAnnotation in annotations && annotations[RetainAnnotation] == "true" ==> r == Keep
    ensures status.completedAt.None? ==> r == Keep
    ensures r == Keep <==> (RetainAnnotation in annotations && annotations[RetainAnnotation] == "true") || status.completedAt.None?
    ensures r.WaitFor? ==> (r.remaining > 0 &&
              r.remaining == RetentionDuration(annotations, status.phase, ttl, goParse) - (now - status.completedAt.value))
    ensures r != Keep ==>
              (r.WaitFor? <==> now - status.completedAt.value < RetentionDuration(annotations, status.phase, ttl, goParse))
    ensures r.Collect? ==> r.deleteClaim == !(spec.storage.Some? && spec.storage.value.retain)
  {
    if RetainAnnotation in annotations && annotations[RetainAnnotation] == "true" then Keep
    else if status.completedAt.None? then Keep
    else
      var d := RetentionDuration(annotations, status.phase, ttl, goParse);
      var elapsed := now - status.completedAt.value;
      if elapsed < d then WaitFor(d - elapsed)
      else Collect(!(spec.storage.Some? && spec.storage.value.retain))
  }

  /** The loaded configuration never sets per-phase TTLs, so a task without its own retention
      is kept for one hour after it finished, whatever its phase. */
  lemma LoadedDefaultsRetainOneHour(configMap: Option<map<string, string>>, env: map<string, string>,
                                    annotations: map<string, string>, p: Phase, goParse: GoDurationParser)
    requires RetentionAnnotation !in annotations
    requires goParse("1h") == Some(Hour)
    ensures RetentionDuration(annotations, p, LoadClusterDefaults(configMap, env).cleanupTtl, goParse) == Hour
  {}

  /** A retention annotation that parses as neither a duration nor "<N>d" falls back to the default. */
  lemma InvalidRetentionFallsBack(annotations: map<string, string>, p: Phase, ttl: CleanupTtlConfig, goParse: GoDurationParser)
    requires RetentionAnnotation in annotations && annotations[RetentionAnnotation] !in {"", "true"}
    requires ParseDurationString(annotations[RetentionAnnotation], goParse).Err?
    ensures RetentionDuration(annotations, p, ttl, goParse) == RetentionDuration(map[], p, ttl, goParse)
  {}

  // ---------------------------------------------------------------- pod succeeded

  const WaitingSpaced := "\"status\": \"waiting\""
  const WaitingTight := "\"status\":\"waiting\""
  const BudgetSpaced := "\"status\": \"budget_exceeded\""
  const BudgetTight := "\"status\":\"budget_exceeded\""

  /** `isWaitingResult`: the runtime reported "waiting", or the task still has pending children. */
  predicate IsWaitingResult(st: TaskStatus)
  {
    Contains(st.output, WaitingSpaced) || Contains(st.output, WaitingTight) ||
    Contains(st.message, "Waiting") || |st.pendingChildren| > 0
  }

  /** `isBudgetExceededResult`: the runtime reported "budget_exceeded", or (with a price map) the
      estimated cost parses and the task is over its budget. */
  function IsBudgetExceededResult(spec: TaskSpec, st: TaskStatus, hasPriceMap: bool, parseFloat: FloatParser): (r: bool)
    ensures Contains(st.output, BudgetSpaced) || Contains(st.output, BudgetTight) ==> r
    ensures !hasPriceMap || st.estimatedCostUsd == "" || parseFloat(st.estimatedCostUsd).None? ==>
              (r <==> Contains(st.output, BudgetSpaced) || Contains(st.output, BudgetTight))
    ensures spec.budget.None? ==> (r <==> Contains(st.output, BudgetSpaced) || Contains(st.output, BudgetTight))
  {
    if Contains(st.output, BudgetSpaced) || Contains(st.output, BudgetTight) then true
    else if hasPriceMap && st.estimatedCostUsd != "" then
      var cost := parseFloat(st.estimatedCostUsd);
      cost.Some? && IsBudgetExceeded(spec, st, cost.value, parseFloat)
    else false
  }

  datatype SuccessOutcome = OverBudget | AwaitChildren | Succeeded

  /** What a succeeded pod means, in order of precedence: over budget, then (agentic tiers only)
      waiting for children, then completed. */
  function SucceededOutcome(spec: TaskSpec, st: TaskStatus, hasPriceMap: bool, parseFloat: FloatParser): (o: SuccessOutcome)
    ensures IsBudgetExceededResult(spec, st, hasPriceMap, parseFloat) ==> o == OverBudget
    ensures o == AwaitChildren <==>
              !IsBudgetExceededResult(spec, st, hasPriceMap, parseFloat) && IsAgenticTier(spec.tier) && IsWaitingResult(st)
    ensures !IsAgenticTier(spec.tier) ==> o != AwaitChildren
  {
    if IsBudgetExceededResult(spec, st, hasPriceMap, parseFloat) then OverBudget
    else if IsAgenticTier(spec.tier) && IsWaitingResult(st) then AwaitChildren
    else Succeeded
  }

  /** The output harvested from the pod's log when the task has none yet: the log tail, its usage
      line, and the text between the result markers. */
  function Harvested(st: TaskStatus, logs: string): (r: TaskStatus)
    ensures st.output != "" ==> r == st
    ensures st.output == "" ==> r.output == ExtractResult(LogTail(logs))
  {
    if st.output != "" then st
    else
      var tail := LogTail(logs);
      var u := FindTokens(tail, 0);
      var s1 := if u.Some? then st.(output := tail, tokensUsed := u) else st.(output := tail);
      if tail == "" then s1 else s1.(output := ExtractResult(tail))
  }

  /** The estimated cost recorded when a price map is present and yields a non-empty cost string. */
  function Priced(st: TaskStatus, spec: TaskSpec, prices: Option<map<string, ModelPricing>>, format: CostFormatter): (r: TaskStatus)
    ensures r.(estimatedCostUsd := st.estimatedCostUsd) == st
  {
    if prices.None? || st.tokensUsed.None? || ModelName(spec) == "" || Lookup(prices.value, ModelName(spec)).None? then st
    else
      var c := format(Cost(st.tokensUsed.value, Lookup(prices.value, ModelName(spec)).value));
      if c != "" then st.(estimatedCostUsd := c) else st
  }

  /** The status a succeeded pod leaves, by outcome. */
  function SucceededStatus(st: TaskStatus, o: SuccessOutcome, now: Time): (r: TaskStatus)
    ensures r.phase == (match o case OverBudget => BudgetExceeded case AwaitChildren => Waiting case Succeeded => Completed)
    ensures r.attempts == st.attempts + 1 && |r.history| == |st.history| + 1
    ensures o != AwaitChildren ==> r.completedAt == Some(now)
    ensures o == AwaitChildren ==> r.completedAt == st.completedAt && r.podName == ""
  {
    match o
    case OverBudget =>
      Complete(Recorded(st, None, "budget exceeded", now).(phase := BudgetExceeded,
                                                              message := "Task exceeded token or cost budget"), now)
    case AwaitChildren =>
      Recorded(st, None, "waiting for children", now).(phase := Waiting, podName := "",
                                                       message := "Waiting for child tasks to complete")
    case Succeeded =>
      Complete(Recorded(st, None, "completed", now).(phase := Completed, message := "Task completed successfully"), now)
  }

  /** Every outcome of a succeeded pod records exactly one attempt, keeping the history numbered. */
  lemma SucceededKeepsNumbered(st: TaskStatus, o: SuccessOutcome, now: Time)
    requires HistoryNumbered(st)
    ensures HistoryNumbered(SucceededStatus(st, o, now))
  {
    var reason := match o case OverBudget => "budget exceeded" case AwaitChildren => "waiting for children" case Succeeded => "completed";
    RecordedKeepsNumbered(st, None, reason, now);
  }

  /** Collect the log into an empty output, then extract the usage line and the result. */
  method Harvest(task: AgentTask, logs: string)
    modifies task
    ensures task.status == Harvested(old(task.status), logs)
    ensures task.annotations == old(task.annotations)
  {
    if task.status.output == "" {
      task.status := task.status.(output := LogTail(logs));
      ExtractTokenUsage(task);
      ExtractResultInto(task);
    }
  }

  /** Record the estimated cost when the price map yields one. */
  method Price(task: AgentTask, priceMap: PriceMap?, format: CostFormatter)
    modifies task
    ensures task.status == Priced(old(task.status), task.spec, if priceMap == null then None else Some(priceMap.prices), format)
    ensures task.annotations == old(task.annotations)
  {
    if priceMap != null {
      var st := task.status;
      var cost := priceMap.CalculateTaskCost(task.spec, st, format);
      assert Priced(st, task.spec, Some(priceMap.prices), format) == if cost != "" then st.(estimatedCostUsd := cost) else st;
      if cost != "" {
        task.status := st.(estimatedCostUsd := cost);
      }
    }
  }

  /** Record the attempt and settle the phase the outcome calls for. */
  method Settle(task: AgentTask, o: SuccessOutcome, now: Time)
    modifies task
    ensures task.status == SucceededStatus(old(task.status), o, now)
    ensures task.annotations == old(task.annotations)
  {
    match o
    case OverBudget =>
      RecordAttempt(task, None, "budget exceeded", now);
      task.status := Complete(task.status.(phase := BudgetExceeded, message := "Task exceeded token or cost budget"), now);
    case AwaitChildren =>
      RecordAttempt(task, None, "waiting for children", now);
      task.status := task.status.(phase := Waiting, podName := "", message := "Waiting for child tasks to complete");
    case Succeeded =>
      RecordAttempt(task, None, "completed", now);
      task.status := Complete(task.status.(phase := Completed, message := "Task completed successfully"), now);
  }

  /** The succeeded-pod branch of `handleRunning`: harvest the log, price the usage, settle the
      phase, then the follow-up writes of `FinishSucceeded`. */
  method HandlePodSucceeded(task: AgentTask, logs: string, priceMap: PriceMap?, format: CostFormatter,
                            parseFloat: FloatParser, now: Time, cache: Cache.ResultCache?, hash: string -> string,
                            ns: HierarchyBudget.Namespace, listing: seq<TaskObject>, format4: CostFormatter,
                            format6: CostFormatter, parent: AgentTask?)
    returns (res: ReconcileResult, root: Option<TaskObject>, tasks: seq<TaskObject>)
    requires cache != null ==> cache.Valid()
    requires parent != task
    modifies task, cache, parent
    ensures var h := Harvested(old(task.status), logs);
            var p := Priced(h, task.spec, if priceMap == null then None else Some(priceMap.prices), format);
            task.status == SucceededStatus(p, SucceededOutcome(task.spec, p, priceMap != null, parseFloat), now)
    ensures task.annotations == old(task.annotations)
    ensures res == Done
    ensures cache != null ==> cache.Valid()
    ensures task.status.phase == Waiting ==>
              root == None && tasks == listing && (parent != null ==> parent.status == old(parent.status))
    ensures task.status.phase != Waiting ==>
              var self := TaskObject(task.name, task.annotations, task.spec, task.status);
              root == HierarchyBudget.UpdatedRoot(ns, self, parseFloat, format6) &&
              tasks == HierarchyBudget.UpdatedListing(listing, root, parseFloat, format4, now)
    ensures task.status.phase != Waiting && task.spec.parentTaskId != "" && parent != null ==>
              parent.status == NotifiedStatus(old(parent.status), task.name)
    ensures task.spec.parentTaskId == "" && parent != null ==> parent.status == old(parent.status)
    ensures task.status.phase == Completed && cache != null && !Cache.ShouldSkipCache(task.annotations) ==>
              Cache.PutInOrderState(old(cache.order), old(cache.entries), cache.config,
                                    Cache.CacheKey(task.spec.prompt, task.spec.role, hash), CachedResult(task.status), now,
                                    cache.order, cache.entries)
    ensures (task.status.phase != Completed || Cache.ShouldSkipCache(task.annotations)) && cache != null ==>
              cache.order == old(cache.order) && cache.entries == old(cache.entries)
  {
    SettleSucceeded(task, logs, priceMap, format, parseFloat, now);
    root, tasks := FinishSucceeded(task, now, cache, hash, ns, listing, parseFloat, format4, format6, parent);
    return Done, root, tasks;
  }

  /** Harvest the log, price the usage, then settle the phase by outcome. */
  method SettleSucceeded(task: AgentTask, logs: string, priceMap: PriceMap?, format: CostFormatter,
                         parseFloat: FloatParser, now: Time)
    modifies task
    ensures var h := Harvested(old(task.status), logs);
            var p := Priced(h, task.spec, if priceMap == null then None else Some(priceMap.prices), format);
            task.status == SucceededStatus(p, SucceededOutcome(task.spec, p, priceMap != null, parseFloat), now)
    ensures task.annotations == old(task.annotations)
  {
    Harvest(task, logs);
    Price(task, priceMap, format);
    var o := SucceededOutcome(task.spec, task.status, priceMap != null, parseFloat);
    Settle(task, o, now);
  }

  /** What follows the settled status, which is taken to be written successfully. A task left
      Waiting stops there. A task that ended adds its usage to its root's hierarchy budget and
      notifies its parent; when it completed, it is first stored in the result cache unless its
      annotation opts out. `root` and `tasks` are what `updateHierarchyBudget` writes back, and
      `parent` is the parent as fetched (null when there is none to fetch). */
  method FinishSucceeded(task: AgentTask, now: Time, cache: Cache.ResultCache?, hash: string -> string,
                         ns: HierarchyBudget.Namespace, listing: seq<TaskObject>, parseFloat: FloatParser,
                         format4: CostFormatter, format6: CostFormatter, parent: AgentTask?)
    returns (root: Option<TaskObject>, tasks: seq<TaskObject>)
    requires cache != null ==> cache.Valid()
    requires parent != task
    modifies cache, parent
    ensures cache != null ==> cache.Valid()
    ensures task.status.phase == Waiting ==>
              root == None && tasks == listing && (parent != null ==> parent.status == old(parent.status))
    ensures task.status.phase != Waiting ==>
              var self := TaskObject(task.name, task.annotations, task.spec, task.status);
              root == HierarchyBudget.UpdatedRoot(ns, self, parseFloat, format6) &&
              tasks == HierarchyBudget.UpdatedListing(listing, root, parseFloat, format4, now)
    ensures task.status.phase != Waiting && task.spec.parentTaskId != "" && parent != null ==>
              parent.status == NotifiedStatus(old(parent.status), task.name)
    ensures task.spec.parentTaskId == "" && parent != null ==> parent.status == old(parent.status)
    ensures task.status.phase == Completed && cache != null && !Cache.ShouldSkipCache(task.annotations) ==>
              Cache.PutInOrderState(old(cache.order), old(cache.entries), cache.config,
                                    Cache.CacheKey(task.spec.prompt, task.spec.role, hash), CachedResult(task.status), now,
                                    cache.order, cache.entries)
    ensures (task.status.phase != Completed || Cache.ShouldSkipCache(task.annotations)) && cache != null ==>
              cache.order == old(cache.order) && cache.entries == old(cache.entries)
  {
    if task.status.phase == Waiting {
      return None, listing;
    }
    if task.status.phase == Completed && cache != null && !Cache.ShouldSkipCache(task.annotations) {
      cache.PutInOrder(Cache.CacheKey(task.spec.prompt, task.spec.role, hash), CachedResult(task.status), now);
    }
    root, tasks := HierarchyBudget.UpdateHierarchyBudget(ns, TaskObject(task.name, task.annotations, task.spec, task.status),
                                                         listing, now, parseFloat, format4, format6);
    NotifyParentTask(task.name, task.spec.parentTaskId, parent);
  }

  /** The result a completed task leaves in the cache: its output and token counts (0 without
      a usage line); the model name is left empty, as the controller leaves it. */
  function CachedResult(st: TaskStatus): (r: Cache.CacheResult)
    ensures r.output == st.output && r.model == ""
    ensures st.tokensUsed.Some? ==> r.tokensIn == st.tokensUsed.value.input && r.tokensOut == st.tokensUsed.value.output
    ensures st.tokensUsed.None? ==> r.tokensIn == 0 && r.tokensOut == 0
  {
    if st.tokensUsed.Some? then Cache.CacheResult(st.output, st.tokensUsed.value.input, st.tokensUsed.value.output, "")
    else Cache.CacheResult(st.output, 0, 0, "")
  }

  /** A legionary never waits: its succeeded pod always ends the task. */
  lemma LegionaryNeverWaits(spec: TaskSpec, st: TaskStatus, hasPriceMap: bool, parseFloat: FloatParser, now: Time)
    requires !IsAgenticTier(spec.tier)
    ensures IsTerminalPhase(SucceededStatus(st, SucceededOutcome(spec, st, hasPriceMap, parseFloat), now).phase)
  {}
}
