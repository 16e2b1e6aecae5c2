/**
 * Stuck-agent handling (internal/controller/health.go): the per-task override of the
 * cluster's stuck-detection settings, the prompt-repetition signal read from the agent's
 * log, and what each configured action does to the task. The log's regular expression is
 * applied by the caller: the model receives the prompt hashes it matched, in log order.
 * The score is floating point and reaches the model only as its rendered text.
 */
module Health {
  import opened Wrappers
  import opened Api
  import opened ControllerConfig
  import ControllerHelpers

  /** `resolveStuckConfig`: every override that is set replaces its default. */
  function ResolveStuckConfig(defaults: StuckDetectionConfig, spec: TaskSpec): (cfg: StuckDetectionConfig)
    ensures spec.health.None? || spec.health.value.stuckDetection.None? ==> cfg == defaults
    ensures spec.health.Some? && spec.health.value.stuckDetection.Some? ==>
              var o := spec.health.value.stuckDetection.value;
              cfg.toolDiversityMin == (if o.toolDiversityMin.Some? then o.toolDiversityMin.value else defaults.toolDiversityMin) &&
              cfg.maxRepeatedPrompts == (if o.maxRepeatedPrompts.Some? then o.maxRepeatedPrompts.value else defaults.maxRepeatedPrompts) &&
              cfg.statusStaleMinutes == (if o.statusStaleMinutes.Some? then o.statusStaleMinutes.value else defaults.statusStaleMinutes) &&
              cfg.action == (if o.action != "" then o.action else defaults.action)
    ensures cfg.enabled == defaults.enabled && cfg.checkWindowMinutes == defaults.checkWindowMinutes
  {
    if spec.health.None? || spec.health.value.stuckDetection.None? then defaults
    else
      var o := spec.health.value.stuckDetection.value;
      var c1 := if o.toolDiversityMin.Some? then defaults.(toolDiversityMin := o.toolDiversityMin.value) else defaults;
      var c2 := if o.maxRepeatedPrompts.Some? then c1.(maxRepeatedPrompts := o.maxRepeatedPrompts.value) else c1;
      var c3 := if o.statusStaleMinutes.Some? then c2.(statusStaleMinutes := o.statusStaleMinutes.value) else c2;
      if o.action != "" then c3.(action := o.action) else c3
  }

  /** An override with nothing set changes nothing. */
  lemma EmptyOverrideKeepsDefaults(defaults: StuckDetectionConfig, spec: TaskSpec)
    requires spec.health.Some? && spec.health.value.stuckDetection.Some?
    requires spec.health.value.stuckDetection.value == StuckDetectionSpec(None, None, None, "")
    ensures ResolveStuckConfig(defaults, spec) == defaults
  {}

  /** Applying the same override twice is the same as applying it once. */
  lemma ResolveIdempotent(defaults: StuckDetectionConfig, spec: TaskSpec)
    ensures ResolveStuckConfig(ResolveStuckConfig(defaults, spec), spec) == ResolveStuckConfig(defaults, spec)
  {}

  // ---------------------------------------------------------------------------------------
  // Prompt repetition
  // ---------------------------------------------------------------------------------------

  /** The loop that counts each hash: its keys are the hashes seen, its values how often. */
  method CountHashes(hashes: seq<string>) returns (counts: map<string, nat>)
    ensures forall h :: h in counts <==> h in hashes
    ensures forall h :: h in counts ==> counts[h] == multiset(hashes)[h]
  {
    counts := map[];
    for i := 0 to |hashes|
      invariant forall h :: h in counts <==> h in hashes[..i]
      invariant forall h :: h in counts ==> counts[h] == multiset(hashes[..i])[h]
    {
      assert hashes[..i + 1] == hashes[..i] + [hashes[i]];
      var h := hashes[i];
      if h in counts {
        counts := counts[h := counts[h] + 1];
      } else {
        counts := counts[h := 1];
      }
    }
    assert hashes[..|hashes|] == hashes;
  }

  /** The loop over the counts that keeps the largest. */
  method MaxCount(counts: map<string, nat>) returns (n: nat)
    ensures forall h :: h in counts ==> counts[h] <= n
    ensures counts != map[] ==> exists h :: h in counts && n == counts[h]
    ensures counts == map[] ==> n == 0
  {
    n := 0;
    var rest := counts.Keys;
    ghost var best: string := "";
    var first := true;
    while rest != {}
      invariant rest <= counts.Keys
      invariant first ==> n == 0 && rest == counts.Keys
      invariant forall h :: h in counts && h !in rest ==> counts[h] <= n
      invariant !first ==> best in counts && n == counts[best]
      decreases |rest|
    {
      var h :| h in rest;
      if counts[h] > n || first {
        n := counts[h];
        best := h;
      }
      rest := rest - {h};
      first := false;
    }
  }

  /** The prompt-repetition signal: with more than one hash, the largest number of times any
      one hash occurs; otherwise 0. */
  method RepeatedPrompts(hashes: seq<string>) returns (n: nat)
    ensures |hashes| <= 1 ==> n == 0
    ensures |hashes| > 1 ==> (exists h :: h in hashes && n == multiset(hashes)[h]) &&
                             forall h :: multiset(hashes)[h] <= n
  {
    n := 0;
    if |hashes| <= 1 {
      return;
    }
    var counts := CountHashes(hashes);
    assert hashes[0] in counts;
    n := MaxCount(counts);
    forall h ensures multiset(hashes)[h] <= n {
      if h !in hashes {
        assert multiset(hashes)[h] == 0;
      }
    }
  }

  // ---------------------------------------------------------------------------------------
  // Acting on a stuck agent
  // ---------------------------------------------------------------------------------------

  /** How deleting the agent pod went. */
  datatype DeleteOutcome = Deleted | PodNotFound | DeleteFailed

  /** The status a killed or escalated task ends with. */
  function StuckFailure(st: TaskStatus, verb: string, scoreText: string, reason: string, now: Time): (r: TaskStatus)
    ensures r.phase == Failed && r.completedAt == Some(now)
    ensures r.message == verb + ": agent stuck (score=" + scoreText + "): " + reason
    ensures r.(phase := st.phase, message := st.message, completedAt := st.completedAt) == st
  { Complete(st.(phase := Failed, message := verb + ": agent stuck (score=" + scoreText + "): " + reason), now) }

  /** `executeStuckAction`. The pod deletion and the status write are outcomes passed in;
      events, metrics and spans are not modelled. Returns whether an error is reported. */
  method ExecuteStuckAction(task: AgentTask, parent: AgentTask?, action: string, scoreText: string, reason: string,
                            now: Time, deletion: DeleteOutcome, updateOk: bool) returns (failed: bool)
    requires parent != task
    modifies task, parent
    ensures action != "kill" && action != "escalate" ==>
              !failed && task.status == old(task.status) && (parent != null ==> parent.status == old(parent.status))
    ensures (action == "kill" || action == "escalate") && deletion == DeleteFailed ==>
              failed && task.status == old(task.status) && (parent != null ==> parent.status == old(parent.status))
    ensures (action == "kill" || action == "escalate") && deletion != DeleteFailed ==>
              task.status == StuckFailure(old(task.status), if action == "kill" then "Killed" else "Escalated", scoreText, reason, now) &&
              failed == !updateOk
    ensures (action == "kill" || action == "escalate") && deletion != DeleteFailed && updateOk &&
            task.spec.parentTaskId != "" && parent != null ==>
              parent.status == ControllerHelpers.NotifiedStatus(old(parent.status), task.name)
    ensures (action == "kill" || action == "escalate") && deletion != DeleteFailed && !updateOk && parent != null ==>
              parent.status == old(parent.status)
    ensures parent != null && task.spec.parentTaskId == "" ==> parent.status == old(parent.status)
  {
    if action != "kill" && action != "escalate" {
      return false;
    }
    if deletion == DeleteFailed {
      return true;
    }
    var verb := if action == "kill" then "Killed" else "Escalated";
    task.status := StuckFailure(task.status, verb, scoreText, reason, now);
    if !updateOk {
      return true;
    }
    ControllerHelpers.NotifyParentTask(task.name, task.spec.parentTaskId, parent);
    return false;
  }

  /** "warn" never ends the task, and both kill and escalate end it as Failed. */
  lemma StuckActionPhases(st: TaskStatus, scoreText: string, reason: string, now: Time)
    ensures IsTerminalPhase(StuckFailure(st, "Killed", scoreText, reason, now).phase)
    ensures IsTerminalPhase(StuckFailure(st, "Escalated", scoreText, reason, now).phase)
  {}
}
