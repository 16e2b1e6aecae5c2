/**
 * The agent's tool-calling loop (runtime/agentic/loop.py). Each iteration checks the kill
 * flag and the token budget, calls the model once, appends its turn to the caller's
 * conversation, and either finishes or runs the requested tools in order, appending one
 * tool turn per call. Stopping early for a kill, the budget or the iteration limit writes
 * a "waiting" checkpoint for the next incarnation.
 *
 * The model is an oracle from the conversation to a reply; the kill flag is an oracle
 * from the iteration number; tools run through `ToolExecutor.ExecuteTool` over the
 * filesystem map, whose runner and I/O outcome are fixed for one run. `Run` states the
 * loop as a function of its variables, and `AgenticLoop` is proved to compute it.
 */
module AgentLoop {
  import opened Wrappers
  import opened Strs
  import opened Json
  import ToolExecutor
  import Checkpoint

  /** `MAX_ITERATIONS`. */
  const MaxIterations: nat := 200
  const ArtifactPrefix := "/outbox/artifacts/"

  /** One requested tool call; `arguments` is None when its JSON does not decode. */
  datatype ToolCall = ToolCall(id: string, name: string, arguments: Option<Json>)

  /** What the model call did: raised, or replied. A missing usage or token count reads as
      0, a missing content as "", and `dump` is the message's `model_dump()`. */
  datatype Reply =
    | CallFailed(error: string)
    | Replied(promptTokens: nat, completionTokens: nat, finishReason: string, content: string,
              toolCalls: seq<ToolCall>, dump: Dict)

  /** `LoopResult`. */
  datatype LoopResult = LoopResult(status: string, output: string, tokensIn: nat, tokensOut: nat,
                                   artifacts: seq<string>, pendingChildren: seq<Json>)

  /** The loop's variables, the caller's conversation and the filesystem, and the number of
      model calls made so far. */
  datatype Vars = Vars(totalIn: nat, totalOut: nat, spawned: seq<Json>, pending: seq<Json>, artifacts: seq<string>,
                       messages: seq<Dict>, files: map<string, string>, llmCalls: nat)

  /** `execute_tool` for one run: the tool's name, its arguments and the files before it
      ran, to its result and the files after. `Executor` builds it from
      `ToolExecutor.ExecuteTool`. */
  type Exec = (string, Json, map<string, string>) -> ToolExecutor.Effect

  function Executor(taskName: string, env: ToolExecutor.Env, run: ToolExecutor.Runner, io: Option<string>): Exec
  {
    (name: string, args: Json, files: map<string, string>) => ToolExecutor.ExecuteTool(name, args, taskName, env, files, run, io)
  }

  /** Everything outside the loop for one run: the model, the kill flag by iteration, the
      task name, the tool executor, `json.dumps`, whether the checkpoint write succeeds,
      the state file, the task's budget dict and Python's `int()` on text. */
  datatype Oracles = Oracles(llm: seq<Dict> -> Reply, killed: nat -> bool, taskName: string, exec: Exec,
                             dumps: Json -> string, writeOk: bool, stateFile: string,
                             budget: Dict, parseInt: string -> Option<int>)

  /** The caller's `messages` list, which the loop appends to in place. */
  class Conversation {
    var messages: seq<Dict>

    constructor(messages: seq<Dict>)
      ensures this.messages == messages
    {
      this.messages := messages;
    }
  }

  // ---------------------------------------------------------------------------------------
  // The token budget
  // ---------------------------------------------------------------------------------------

  /** `budget.get("maxTokens")` after the string coercion, when it is truthy: text goes
      through `int()` and is dropped when that fails; True counts as 1. */
  function BudgetLimit(budget: Dict, parseInt: string -> Option<int>): (r: Option<int>)
    ensures r.Some? ==> r.value != 0
    ensures Get(budget, "maxTokens", JNull).JInt? ==>
              r == (if Get(budget, "maxTokens", JNull).i != 0 then Some(Get(budget, "maxTokens", JNull).i) else None)
    ensures "maxTokens" !in budget ==> r == None
  {
    match Get(budget, "maxTokens", JNull)
    case JStr(s) => if parseInt(s).Some? && parseInt(s).value != 0 then parseInt(s) else None
    case JInt(n) => if n != 0 then Some(n) else None
    case JBool(b) => if b then Some(1) else None
    case _ => None
  }

  /** How the limit is rendered in the message: True prints as "True". */
  function LimitText(budget: Dict, limit: int): string
  {
    if Get(budget, "maxTokens", JNull) == JBool(true) then "True" else IntToString(limit)
  }

  // ---------------------------------------------------------------------------------------
  // The waiting checkpoint
  // ---------------------------------------------------------------------------------------

  /** A message whose text may go into the accumulated context. */
  predicate HasContext(m: Dict)
  {
    Get(m, "role", JNull) == JStr("assistant") && Truthy(Get(m, "content", JNull))
  }

  /** `msg["content"][:500]`. */
  function ContextOf(m: Dict): (r: string)
    ensures |r| <= 500
  {
    var c := TextOf(Get(m, "content", JNull));
    if |c| <= 500 then c else c[..500]
  }

  /** The context of every assistant message with content, oldest first. */
  function Contexts(msgs: seq<Dict>): seq<string>
  {
    if msgs == [] then []
    else (if HasContext(msgs[0]) then [ContextOf(msgs[0])] else []) + Contexts(msgs[1..])
  }

  lemma {:induction false} ContextsAppend(a: seq<Dict>, b: seq<Dict>)
    ensures Contexts(a + b) == Contexts(a) + Contexts(b)
  {
    if a != [] {
      assert (a + b)[1..] == a[1..] + b;
      ContextsAppend(a[1..], b);
    } else {
      assert a + b == b;
    }
  }

  lemma {:induction false} ContextsBounded(msgs: seq<Dict>)
    ensures forall c :: c in Contexts(msgs) ==> |c| <= 500
  {
    if msgs != [] {
      ContextsBounded(msgs[1..]);
    }
  }

  /** The accumulated context: the latest three contexts at most, oldest first. */
  function Accumulated(msgs: seq<Dict>): (r: seq<string>)
    ensures |r| <= 3
    ensures r <= Contexts(msgs) || |Contexts(msgs)| > 3
    ensures |Contexts(msgs)| <= 3 ==> r == Contexts(msgs)
    ensures |Contexts(msgs)| > 3 ==> r == Contexts(msgs)[|Contexts(msgs)| - 3..]
  {
    var q := Contexts(msgs);
    if |q| <= 3 then q else q[|q| - 3..]
  }

  /** The loop that walks the conversation backwards, inserting at the front and stopping
      once three contexts are collected. */
  method CollectAccumulated(messages: seq<Dict>) returns (acc: seq<string>)
    ensures acc == Accumulated(messages)
  {
    acc := [];
    var i := |messages|;
    while i > 0
      invariant 0 <= i <= |messages|
      invariant acc == Contexts(messages[i..]) && |acc| < 3
    {
      var m := messages[i - 1];
      assert messages[i - 1..] == [m] + messages[i..];
      if Get(m, "role", JNull) == JStr("assistant") && Truthy(Get(m, "content", JNull)) {
        acc := [ContextOf(m)] + acc;
      }
      i := i - 1;
      if |acc| >= 3 {
        assert messages == messages[..i] + messages[i..];
        ContextsAppend(messages[..i], messages[i..]);
        return;
      }
    }
    assert messages[0..] == messages;
  }

  /** The children that finished: spawned ones not pending, in spawn order. */
  function NotPending(spawned: seq<Json>, pending: seq<Json>): (r: seq<Json>)
    ensures forall c :: c in r <==> c in spawned && c !in pending
  {
    if spawned == [] then []
    else NotPending(spawned[..|spawned| - 1], pending) +
         (if spawned[|spawned| - 1] !in pending then [spawned[|spawned| - 1]] else [])
  }

  /** `{"name": c, "status": status}` for each child. */
  function ChildEntries(children: seq<Json>, status: string): (r: seq<Json>)
    ensures |r| == |children|
    ensures forall k :: 0 <= k < |r| ==> r[k] == JObj(map["name" := children[k], "status" := JStr(status)])
  {
    if children == [] then []
    else [JObj(map["name" := children[0], "status" := JStr(status)])] + ChildEntries(children[1..], status)
  }

  /** The state `_save_waiting_checkpoint` saves. */
  function WaitingState(taskName: string, spawned: seq<Json>, pending: seq<Json>, messages: seq<Dict>): Dict
  {
    WaitingDict(taskName, ChildEntries(NotPending(spawned, pending), "Completed"), ChildEntries(pending, "Running"),
                Join(Accumulated(messages), "\n---\n"))
  }

  /** The waiting checkpoint's dictionary, from its already computed parts. */
  function WaitingDict(taskName: string, completed: seq<Json>, running: seq<Json>, context: string): Dict
  {
    map["version" := JInt(1), "taskId" := JStr(taskName), "phase" := JStr("waiting"),
        "completedChildren" := JArr(completed),
        "pendingChildren" := JArr(running),
        "decisions" := JArr([]),
        "accumulatedContext" := JStr(context)]
  }

  /** A child is listed with a status exactly when it is among the children given. */
  lemma ChildEntriesMembers(children: seq<Json>, status: string, c: Json)
    ensures JObj(map["name" := c, "status" := JStr(status)]) in ChildEntries(children, status) <==> c in children
  {
    var entries := ChildEntries(children, status);
    if c in children {
      var k :| 0 <= k < |children| && children[k] == c;
      assert entries[k] == JObj(map["name" := c, "status" := JStr(status)]);
    }
    if JObj(map["name" := c, "status" := JStr(status)]) in entries {
      var k :| 0 <= k < |entries| && entries[k] == JObj(map["name" := c, "status" := JStr(status)]);
      assert entries[k].fields["name"] == children[k];
    }
  }

  /** The accumulated context is at most three texts of at most 500 characters. */
  lemma AccumulatedBounded(messages: seq<Dict>)
    ensures |Accumulated(messages)| <= 3 && forall c :: c in Accumulated(messages) ==> |c| <= 500
  {
    ContextsBounded(messages);
    var q := Contexts(messages);
    forall c | c in Accumulated(messages) ensures |c| <= 500 {
      if |q| > 3 {
        assert c in q;
      }
    }
  }

  /** What the waiting checkpoint records: version 1 and phase "waiting"; a child is listed
      as Completed exactly when it was spawned and is not pending, and every pending child
      as Running, in order; no decisions. */
  lemma WaitingStateContents(taskName: string, spawned: seq<Json>, pending: seq<Json>, messages: seq<Dict>, c: Json)
    ensures var s := WaitingState(taskName, spawned, pending, messages);
            s["version"] == JInt(1) && s["phase"] == JStr("waiting") && s["decisions"] == JArr([]) &&
            Checkpoint.IsVersionOne(s["version"]) && s["taskId"] == JStr(taskName) &&
            (JObj(map["name" := c, "status" := JStr("Completed")]) in s["completedChildren"].items <==>
               c in spawned && c !in pending) &&
            s["pendingChildren"].items == ChildEntries(pending, "Running")
  {
    WaitingDictFields(taskName, ChildEntries(NotPending(spawned, pending), "Completed"), ChildEntries(pending, "Running"),
                      Join(Accumulated(messages), "\n---\n"));
    ChildEntriesMembers(NotPending(spawned, pending), "Completed", c);
  }

  lemma WaitingDictFields(taskName: string, completed: seq<Json>, running: seq<Json>, context: string)
    ensures var s := WaitingDict(taskName, completed, running, context);
            s["version"] == JInt(1) && s["phase"] == JStr("waiting") && s["decisions"] == JArr([]) &&
            s["taskId"] == JStr(taskName) && s["completedChildren"] == JArr(completed) &&
            s["pendingChildren"] == JArr(running)
  {
    WaitingDictHead(taskName, completed, running, context);
    WaitingDictChildren(taskName, completed, running, context);
  }

  lemma WaitingDictHead(taskName: string, completed: seq<Json>, running: seq<Json>, context: string)
    ensures var s := WaitingDict(taskName, completed, running, context);
            s["version"] == JInt(1) && s["taskId"] == JStr(taskName) && s["phase"] == JStr("waiting")
  {
    WaitingKeysDistinct();
  }

  lemma WaitingDictChildren(taskName: string, completed: seq<Json>, running: seq<Json>, context: string)
    ensures var s := WaitingDict(taskName, completed, running, context);
            s["completedChildren"] == JArr(completed) && s["pendingChildren"] == JArr(running) && s["decisions"] == JArr([])
  {
    WaitingKeysDistinct();
  }

  lemma WaitingKeysDistinct()
    ensures "version" != "taskId" && "version" != "phase" && "version" != "completedChildren"
    ensures "version" != "pendingChildren" && "version" != "decisions" && "version" != "accumulatedContext"
    ensures "taskId" != "phase" && "taskId" != "completedChildren" && "taskId" != "pendingChildren"
    ensures "taskId" != "decisions" && "taskId" != "accumulatedContext"
    ensures "phase" != "completedChildren" && "phase" != "pendingChildren" && "phase" != "decisions"
    ensures "phase" != "accumulatedContext"
    ensures "completedChildren" != "pendingChildren" && "completedChildren" != "decisions"
    ensures "completedChildren" != "accumulatedContext"
    ensures "pendingChildren" != "decisions" && "pendingChildren" != "accumulatedContext"
    ensures "decisions" != "accumulatedContext"
  {
  }

  /** `_save_waiting_checkpoint`. */
  method SaveWaitingCheckpoint(disk: Checkpoint.Disk, w: Oracles, spawned: seq<Json>, pending: seq<Json>, messages: seq<Dict>)
    modifies disk
    ensures disk.files == Checkpoint.SavedFiles(old(disk.files), w.stateFile, WaitingState(w.taskName, spawned, pending, messages), w.dumps, w.writeOk)
  {
    var accumulated := CollectAccumulated(messages);
    var state := map["version" := JInt(1), "taskId" := JStr(w.taskName), "phase" := JStr("waiting"),
                     "completedChildren" := JArr(ChildEntries(NotPending(spawned, pending), "Completed")),
                     "pendingChildren" := JArr(ChildEntries(pending, "Running")),
                     "decisions" := JArr([]),
                     "accumulatedContext" := JStr(Join(accumulated, "\n---\n"))];
    var _ := Checkpoint.SaveCheckpoint(disk, w.stateFile, state, w.dumps, w.writeOk);
  }

  /** The files after the loop saved its waiting checkpoint. */
  function SaveWaiting(v: Vars, w: Oracles): map<string, string>
  {
    Checkpoint.SavedFiles(v.files, w.stateFile, WaitingState(w.taskName, v.spawned, v.pending, v.messages), w.dumps, w.writeOk)
  }

  // ---------------------------------------------------------------------------------------
  // Tool calls
  // ---------------------------------------------------------------------------------------

  /** The arguments handed to the executor: `{}` when they do not decode. */
  function ArgsOf(c: ToolCall): Json
  {
    if c.arguments.Some? then c.arguments.value else JObj(map[])
  }

  /** The tool turn appended after a call. */
  function ToolMessage(c: ToolCall, result: Dict, dumps: Json -> string): (m: Dict)
    ensures IsToolTurn(m, c.id)
  {
    map["role" := JStr("tool"), "tool_call_id" := JStr(c.id), "content" := JStr(dumps(JObj(result)))]
  }

  /** A tool turn answering the call `id`. */
  predicate IsToolTurn(m: Dict, id: string)
  {
    Get(m, "role", JNull) == JStr("tool") && Get(m, "tool_call_id", JNull) == JStr(id)
  }

  /** The bookkeeping after a tool ran with effect `e`: note a spawned child (and whether
      it runs asynchronously) and a written artifact, and append the tool turn. */
  function Record(v: Vars, c: ToolCall, e: ToolExecutor.Effect, w: Oracles): (r: Vars)
    ensures r.totalIn == v.totalIn && r.totalOut == v.totalOut && r.llmCalls == v.llmCalls
    ensures r.messages == v.messages + [ToolMessage(c, e.result, w.dumps)] && r.files == e.files
    ensures v.spawned <= r.spawned && v.pending <= r.pending && v.artifacts <= r.artifacts
    ensures |r.spawned| <= |v.spawned| + 1 && |r.artifacts| <= |v.artifacts| + 1
    ensures r.pending != v.pending ==> r.spawned != v.spawned && r.pending == v.pending + [r.spawned[|r.spawned| - 1]]
    ensures r.spawned != v.spawned ==> c.name == "spawn_task" && Truthy(Get(e.result, "success", JNull))
    ensures r.artifacts != v.artifacts ==> c.name == "write_file" && Truthy(Get(e.result, "success", JNull)) &&
                                           ArtifactPrefix + r.artifacts[|v.artifacts|] == TextOf(Get(e.result, "path", JStr("")))
  {
    var ok := Truthy(Get(e.result, "success", JNull));
    var child := Get(e.result, "task_name", JStr(""));
    var spawnedOne := c.name == "spawn_task" && ok && Truthy(child);
    var path := TextOf(Get(e.result, "path", JStr("")));
    var wrote := c.name == "write_file" && ok && StartsWith(path, ArtifactPrefix);
    Vars(v.totalIn, v.totalOut,
         if spawnedOne then v.spawned + [child] else v.spawned,
         if spawnedOne && Truthy(Get(e.result, "async", JNull)) then v.pending + [child] else v.pending,
         if wrote then v.artifacts + [path[|ArtifactPrefix|..]] else v.artifacts,
         v.messages + [ToolMessage(c, e.result, w.dumps)], e.files, v.llmCalls)
  }

  /** The executor's effect for one call on the current files. */
  function Execute(v: Vars, c: ToolCall, w: Oracles): ToolExecutor.Effect
  {
    w.exec(c.name, ArgsOf(c), v.files)
  }

  /** The calls in request order. */
  function ToolSteps(v: Vars, calls: seq<ToolCall>, w: Oracles): (r: Vars)
    ensures r.totalIn == v.totalIn && r.totalOut == v.totalOut && r.llmCalls == v.llmCalls
    ensures |r.messages| == |v.messages| + |calls| && r.messages[..|v.messages|] == v.messages
    ensures v.spawned <= r.spawned && v.pending <= r.pending && v.artifacts <= r.artifacts
  {
    if calls == [] then v
    else
      var prev := ToolSteps(v, calls[..|calls| - 1], w);
      var r := Record(prev, calls[|calls| - 1], Execute(prev, calls[|calls| - 1], w), w);
      assert r.messages[..|prev.messages|] == prev.messages;
      r
  }

  /** Each call is answered by its own tool turn, in request order. */
  lemma {:induction false} ToolTurnsAnswer(v: Vars, calls: seq<ToolCall>, w: Oracles)
    ensures var r := ToolSteps(v, calls, w);
            forall k :: 0 <= k < |calls| ==> IsToolTurn(r.messages[|v.messages| + k], calls[k].id)
  {
    if calls != [] {
      var prev := ToolSteps(v, calls[..|calls| - 1], w);
      ToolTurnsAnswer(v, calls[..|calls| - 1], w);
      var r := ToolSteps(v, calls, w);
      assert r == Record(prev, calls[|calls| - 1], Execute(prev, calls[|calls| - 1], w), w);
      forall k | 0 <= k < |calls| ensures IsToolTurn(r.messages[|v.messages| + k], calls[k].id) {
        if k < |calls| - 1 {
          assert r.messages[|v.messages| + k] == prev.messages[|v.messages| + k];
          assert calls[..|calls| - 1][k] == calls[k];
        }
      }
    }
  }

  /** Every pending child is among the spawned ones. */
  predicate PendingSpawned(v: Vars)
  {
    forall c :: c in v.pending ==> c in v.spawned
  }

  /** Pending children stay among the spawned ones through the tool calls. */
  lemma {:induction false} ToolStepsKeepPendingSpawned(v: Vars, calls: seq<ToolCall>, w: Oracles)
    requires PendingSpawned(v)
    ensures PendingSpawned(ToolSteps(v, calls, w))
  {
    if calls != [] {
      var prev := ToolSteps(v, calls[..|calls| - 1], w);
      ToolStepsKeepPendingSpawned(v, calls[..|calls| - 1], w);
      var r := Record(prev, calls[|calls| - 1], Execute(prev, calls[|calls| - 1], w), w);
      assert prev.spawned <= r.spawned;
      forall c | c in r.pending ensures c in r.spawned {
        if c in prev.pending {
          assert c in prev.spawned;
        }
      }
    }
  }

  // ---------------------------------------------------------------------------------------
  // The loop
  // ---------------------------------------------------------------------------------------

  /** After one iteration the loop has either finished or goes on. */
  datatype Next = Done(result: LoopResult, vars: Vars) | Again(vars: Vars)

  function Stopped(status: string, output: string, v: Vars, artifacts: seq<string>): LoopResult
  {
    LoopResult(status, output, v.totalIn, v.totalOut, artifacts, [])
  }

  /** The budget message. */
  function BudgetMessage(used: int, budget: Dict, limit: int): string
  {
    "Budget exceeded: " + IntToString(used) + " tokens used (limit: " + LimitText(budget, limit) + ")"
  }

  /** The variables after a reply is counted and appended. */
  function Counted(v: Vars, pt: nat, ct: nat, dump: Dict): Vars
  {
    v.(totalIn := v.totalIn + pt, totalOut := v.totalOut + ct, messages := v.messages + [dump], llmCalls := v.llmCalls + 1)
  }

  /** The model call and what its reply leads to: a stop reason ends the task with the
      reply's text, tool calls run, other text also ends it, and anything else fails. */
  function AfterReply(v: Vars, w: Oracles): Next
  {
    match w.llm(v.messages)
    case CallFailed(e) => Done(Stopped("failed", "LLM call failed: " + e, v, []), v.(llmCalls := v.llmCalls + 1))
    case Replied(pt, ct, reason, content, calls, dump) =>
      var v1 := Counted(v, pt, ct, dump);
      if reason == "stop" || reason == "end_turn" then Done(Stopped("completed", content, v1, v1.artifacts), v1)
      else if reason == "tool_calls" || calls != [] then Again(ToolSteps(v1, calls, w))
      else if content != "" then Done(Stopped("completed", content, v1, v1.artifacts), v1)
      else Done(Stopped("failed", "Unexpected stop reason: " + reason, v1, []), v1)
  }

  /** One iteration: the kill flag, then the budget, then the model. */
  function Step(v: Vars, i: nat, w: Oracles): Next
  {
    if w.killed(i) then
      Done(Stopped("failed", "Task killed by SIGTERM", v, []), v.(files := SaveWaiting(v, w)))
    else if BudgetLimit(w.budget, w.parseInt).Some? && v.totalIn + v.totalOut >= BudgetLimit(w.budget, w.parseInt).value then
      Done(Stopped("budget_exceeded", BudgetMessage(v.totalIn + v.totalOut, w.budget, BudgetLimit(w.budget, w.parseInt).value), v, []),
           v.(files := SaveWaiting(v, w)))
    else AfterReply(v, w)
  }

  /** The loop from iteration `i` on. */
  function Run(v: Vars, i: nat, w: Oracles): (LoopResult, Vars)
    decreases MaxIterations - i
  {
    if i >= MaxIterations then
      (Stopped("failed", "Iteration limit reached (200)", v, []), v.(files := SaveWaiting(v, w)))
    else match Step(v, i, w)
      case Done(r, v') => (r, v')
      case Again(v') => Run(v', i + 1, w)
  }

  /** The variables a run starts with: the given conversation and files, no tokens, no
      model calls, no children and no artifacts, so every pending child is a spawned one. */
  function Start(messages: seq<Dict>, files: map<string, string>): (v: Vars)
    ensures v.messages == messages && v.files == files
    ensures v.totalIn == 0 && v.totalOut == 0 && v.llmCalls == 0
    ensures v.spawned == [] && v.pending == [] && v.artifacts == []
    ensures PendingSpawned(v)
  {
    Vars(0, 0, [], [], [], messages, files, 0)
  }

  /** Everything the loop collects only grows from `v` to `v'`. */
  predicate Grows(v: Vars, v': Vars)
  {
    v.messages <= v'.messages && v.spawned <= v'.spawned && v.pending <= v'.pending && v.artifacts <= v'.artifacts &&
    v.totalIn <= v'.totalIn && v.totalOut <= v'.totalOut && v.llmCalls <= v'.llmCalls
  }

  /** One iteration only grows what the loop collects, and calls the model at most once
      (exactly once when the loop goes on). */
  lemma StepGrows(v: Vars, i: nat, w: Oracles)
    ensures Grows(v, Step(v, i, w).vars) && Step(v, i, w).vars.llmCalls <= v.llmCalls + 1
    ensures Step(v, i, w).Again? ==> Step(v, i, w).vars.llmCalls == v.llmCalls + 1
  {
    if !w.killed(i) && !(BudgetLimit(w.budget, w.parseInt).Some? && v.totalIn + v.totalOut >= BudgetLimit(w.budget, w.parseInt).value) {
      var reply := w.llm(v.messages);
      if reply.Replied? {
        var v1 := Counted(v, reply.promptTokens, reply.completionTokens, reply.dump);
        assert v.messages <= v1.messages;
      }
    }
  }

  /** The statuses a finished loop reports. */
  predicate FinalStatus(status: string)
  { status == "completed" || status == "failed" || status == "budget_exceeded" }

  /** A finished iteration reports the token totals and is completed, failed or
      budget_exceeded, with no pending children. */
  lemma StepReports(v: Vars, i: nat, w: Oracles)
    ensures ReportsTotals(Step(v, i, w))
  {
    if !w.killed(i) && !(BudgetLimit(w.budget, w.parseInt).Some? && v.totalIn + v.totalOut >= BudgetLimit(w.budget, w.parseInt).value) {
      AfterReplyReports(v, w);
    }
  }

  /** A finished iteration's result carries the totals of its variables, a final status and no
      pending children. */
  predicate ReportsTotals(n: Next)
  {
    n.Done? ==>
      n.result.tokensIn == n.vars.totalIn && n.result.tokensOut == n.vars.totalOut &&
      FinalStatus(n.result.status) && n.result.pendingChildren == []
  }

  lemma AfterReplyReports(v: Vars, w: Oracles)
    ensures ReportsTotals(AfterReply(v, w))
  {
  }

  /** Pending children stay among the spawned ones through an iteration. */
  lemma StepKeepsPendingSpawned(v: Vars, i: nat, w: Oracles)
    requires PendingSpawned(v)
    ensures PendingSpawned(Step(v, i, w).vars)
  {
    if !w.killed(i) && !(BudgetLimit(w.budget, w.parseInt).Some? && v.totalIn + v.totalOut >= BudgetLimit(w.budget, w.parseInt).value) {
      var reply := w.llm(v.messages);
      if reply.Replied? {
        ToolStepsKeepPendingSpawned(Counted(v, reply.promptTokens, reply.completionTokens, reply.dump), reply.toolCalls, w);
      }
    }
  }

  /** `Grows` is transitive. */
  lemma GrowsTrans(a: Vars, b: Vars, c: Vars)
    requires Grows(a, b) && Grows(b, c)
    ensures Grows(a, c)
  {}

  /** `Run` one iteration at a time. */
  lemma RunUnfold(v: Vars, i: nat, w: Oracles)
    requires i < MaxIterations
    ensures Step(v, i, w).Done? ==> Run(v, i, w) == (Step(v, i, w).result, Step(v, i, w).vars)
    ensures Step(v, i, w).Again? ==> Run(v, i, w) == Run(Step(v, i, w).vars, i + 1, w)
  {}

  /** Through a whole run the conversation and everything collected only grow. */
  lemma {:induction false} RunGrows(v: Vars, i: nat, w: Oracles)
    ensures Grows(v, Run(v, i, w).1)
    decreases MaxIterations - i
  {
    if i < MaxIterations {
      var n := Step(v, i, w);
      StepGrows(v, i, w);
      RunUnfold(v, i, w);
      if n.Again? {
        RunGrows(n.vars, i + 1, w);
        GrowsTrans(v, n.vars, Run(n.vars, i + 1, w).1);
        assert Run(v, i, w).1 == Run(n.vars, i + 1, w).1;
      } else {
        assert Run(v, i, w).1 == n.vars;
      }
    } else {
      assert Run(v, i, w).1 == v.(files := SaveWaiting(v, w));
      SavingGrows(v, SaveWaiting(v, w));
    }
  }

  /** Saving files grows nothing and shrinks nothing the loop collects. */
  lemma SavingGrows(v: Vars, files: map<string, string>)
    ensures Grows(v, v.(files := files))
  {
  }

  /** The model is called at most once per remaining iteration. */
  lemma {:induction false} RunCallsBounded(v: Vars, i: nat, w: Oracles)
    requires i <= MaxIterations
    ensures Run(v, i, w).1.llmCalls + i <= v.llmCalls + MaxIterations
    decreases MaxIterations - i
  {
    if i < MaxIterations {
      var n := Step(v, i, w);
      StepGrows(v, i, w);
      RunUnfold(v, i, w);
      if n.Again? {
        RunCallsBounded(n.vars, i + 1, w);
        assert Run(v, i, w) == Run(n.vars, i + 1, w) && n.vars.llmCalls == v.llmCalls + 1;
      } else {
        assert Run(v, i, w).1 == n.vars && n.vars.llmCalls <= v.llmCalls + 1;
      }
    } else {
      assert Run(v, i, w).1.llmCalls == v.llmCalls;
    }
  }

  /** The result reports the final token totals, and it is completed, failed or
      budget_exceeded (never waiting), with no pending children. */
  lemma {:induction false} RunReports(v: Vars, i: nat, w: Oracles)
    ensures Run(v, i, w).0.tokensIn == Run(v, i, w).1.totalIn && Run(v, i, w).0.tokensOut == Run(v, i, w).1.totalOut
    ensures FinalStatus(Run(v, i, w).0.status) && Run(v, i, w).0.pendingChildren == []
    decreases MaxIterations - i
  {
    if i < MaxIterations {
      var n := Step(v, i, w);
      StepReports(v, i, w);
      RunUnfold(v, i, w);
      if n.Again? {
        RunReports(n.vars, i + 1, w);
        assert Run(v, i, w) == Run(n.vars, i + 1, w);
      } else {
        assert Run(v, i, w) == (n.result, n.vars);
      }
    } else {
      LimitReports(v, i, w);
    }
  }

  /** At the iteration limit the run fails, reporting the totals so far and no pending children. */
  lemma LimitReports(v: Vars, i: nat, w: Oracles)
    requires i >= MaxIterations
    ensures Run(v, i, w).0.status == "failed" && Run(v, i, w).0.pendingChildren == []
    ensures Run(v, i, w).0.tokensIn == Run(v, i, w).1.totalIn && Run(v, i, w).0.tokensOut == Run(v, i, w).1.totalOut
  {
    RunAtLimit(v, i, w);
  }

  /** `Run` at the iteration limit: it stops and saves the waiting checkpoint. */
  lemma RunAtLimit(v: Vars, i: nat, w: Oracles)
    requires i >= MaxIterations
    ensures Run(v, i, w) == (Stopped("failed", "Iteration limit reached (200)", v, []), v.(files := SaveWaiting(v, w)))
  {
  }

  lemma AgainKeepsPendingSpawned(v: Vars, i: nat, w: Oracles)
    requires i < MaxIterations && Step(v, i, w).Again?
    requires PendingSpawned(Run(Step(v, i, w).vars, i + 1, w).1)
    ensures PendingSpawned(Run(v, i, w).1)
  {
    RunUnfold(v, i, w);
  }

  lemma DoneKeepsPendingSpawned(v: Vars, i: nat, w: Oracles)
    requires i < MaxIterations && Step(v, i, w).Done?
    requires PendingSpawned(Step(v, i, w).vars)
    ensures PendingSpawned(Run(v, i, w).1)
  {
    RunUnfold(v, i, w);
  }

  lemma LimitKeepsPendingSpawned(v: Vars, i: nat, w: Oracles)
    requires i >= MaxIterations && PendingSpawned(v)
    ensures PendingSpawned(Run(v, i, w).1)
  {
    RunAtLimit(v, i, w);
    assert Run(v, i, w).1.pending == v.pending && Run(v, i, w).1.spawned == v.spawned;
  }

  /** Pending children are always among the spawned ones. */
  lemma {:induction false} RunKeepsPendingSpawned(v: Vars, i: nat, w: Oracles)
    requires PendingSpawned(v)
    ensures PendingSpawned(Run(v, i, w).1)
    decreases MaxIterations - i
  {
    if i < MaxIterations {
      StepKeepsPendingSpawned(v, i, w);
      if Step(v, i, w).Again? {
        RunKeepsPendingSpawned(Step(v, i, w).vars, i + 1, w);
        AgainKeepsPendingSpawned(v, i, w);
      } else {
        DoneKeepsPendingSpawned(v, i, w);
      }
    } else {
      LimitKeepsPendingSpawned(v, i, w);
    }
  }

  lemma StatusWordsDiffer()
    ensures "completed" != "budget_exceeded" && "failed" != "budget_exceeded"
  {
  }

  /** A model reply never ends the task as over budget. */
  lemma AfterReplyNotOverBudget(v: Vars, w: Oracles)
    ensures AfterReply(v, w).Done? ==> AfterReply(v, w).result.status != "budget_exceeded"
  {
    StatusWordsDiffer();
  }

  /** An iteration that ends over budget had a budget, and had reached it. */
  lemma StepOverBudget(v: Vars, i: nat, w: Oracles)
    ensures Step(v, i, w).Done? && Step(v, i, w).result.status == "budget_exceeded" ==>
              BudgetLimit(w.budget, w.parseInt).Some? &&
              Step(v, i, w).result.tokensIn + Step(v, i, w).result.tokensOut >= BudgetLimit(w.budget, w.parseInt).value
  {
    if w.killed(i) {
      StatusWordsDiffer();
    } else if !(BudgetLimit(w.budget, w.parseInt).Some? && v.totalIn + v.totalOut >= BudgetLimit(w.budget, w.parseInt).value) {
      AfterReplyNotOverBudget(v, w);
    }
  }

  /** A run that ends over budget had a budget, and had reached it. */
  lemma {:induction false} BudgetExceededMeansReached(v: Vars, i: nat, w: Oracles)
    ensures Run(v, i, w).0.status == "budget_exceeded" ==>
              BudgetLimit(w.budget, w.parseInt).Some? &&
              Run(v, i, w).0.tokensIn + Run(v, i, w).0.tokensOut >= BudgetLimit(w.budget, w.parseInt).value
    decreases MaxIterations - i
  {
    if i < MaxIterations {
      var n := Step(v, i, w);
      RunUnfold(v, i, w);
      if n.Again? {
        BudgetExceededMeansReached(n.vars, i + 1, w);
        assert Run(v, i, w) == Run(n.vars, i + 1, w);
      } else {
        StepOverBudget(v, i, w);
        assert Run(v, i, w) == (n.result, n.vars);
      }
    } else {
      StatusWordsDiffer();
      assert Run(v, i, w).0.status == "failed";
    }
  }

  /** A kill seen at the top of an iteration saves the waiting checkpoint and fails without
      calling the model. */
  lemma KilledSavesAndFails(v: Vars, i: nat, w: Oracles)
    requires i < MaxIterations && w.killed(i)
    ensures Run(v, i, w) == (LoopResult("failed", "Task killed by SIGTERM", v.totalIn, v.totalOut, [], []),
                             v.(files := SaveWaiting(v, w)))
  {}

  /** A failed model call ends the run as failed, and no checkpoint is written. */
  lemma ModelFailureWritesNothing(v: Vars, i: nat, w: Oracles)
    requires i < MaxIterations && !w.killed(i)
    requires BudgetLimit(w.budget, w.parseInt).None? || v.totalIn + v.totalOut < BudgetLimit(w.budget, w.parseInt).value
    requires w.llm(v.messages).CallFailed?
    ensures Run(v, i, w).0.status == "failed" && Run(v, i, w).1.files == v.files
  {}

  /** A text budget that `int()` cannot read sets no limit. */
  lemma BadBudgetTextIsNoLimit(budget: Dict, parseInt: string -> Option<int>)
    requires "maxTokens" in budget && budget["maxTokens"].JStr? && parseInt(budget["maxTokens"].s).None?
    ensures BudgetLimit(budget, parseInt).None?
  {}

  // ---------------------------------------------------------------------------------------
  // The imperative loop
  // ---------------------------------------------------------------------------------------

  /** The inner loop over the requested calls. */
  method DispatchToolCalls(conv: Conversation, disk: Checkpoint.Disk, spawned0: seq<Json>, pending0: seq<Json>,
                           artifacts0: seq<string>, ghost v: Vars, calls: seq<ToolCall>, w: Oracles)
    returns (spawned: seq<Json>, pending: seq<Json>, artifacts: seq<string>)
    requires conv.messages == v.messages && disk.files == v.files
    requires spawned0 == v.spawned && pending0 == v.pending && artifacts0 == v.artifacts
    modifies conv, disk
    ensures var r := ToolSteps(v, calls, w);
            spawned == r.spawned && pending == r.pending && artifacts == r.artifacts &&
            conv.messages == r.messages && disk.files == r.files
  {
    spawned, pending, artifacts := spawned0, pending0, artifacts0;
    for k := 0 to |calls|
      invariant ToolSteps(v, calls[..k], w) ==
                Vars(v.totalIn, v.totalOut, spawned, pending, artifacts, conv.messages, disk.files, v.llmCalls)
    {
      assert calls[..k + 1][..k] == calls[..k];
      var call := calls[k];
      var args := if call.arguments.Some? then call.arguments.value else JObj(map[]);
      var e := w.exec(call.name, args, disk.files);
      var result := e.result;
      disk.files := e.files;
      if call.name == "spawn_task" && Truthy(Get(result, "success", JNull)) {
        var child := Get(result, "task_name", JStr(""));
        if Truthy(child) {
          spawned := spawned + [child];
          if Truthy(Get(result, "async", JNull)) {
            pending := pending + [child];
          }
        }
      }
      if call.name == "write_file" && Truthy(Get(result, "success", JNull)) {
        var path := TextOf(Get(result, "path", JStr("")));
        if StartsWith(path, ArtifactPrefix) {
          artifacts := artifacts + [path[|ArtifactPrefix|..]];
        }
      }
      conv.messages := conv.messages + [map["role" := JStr("tool"), "tool_call_id" := JStr(call.id),
                                            "content" := JStr(w.dumps(JObj(result)))]];
    }
    assert calls[..|calls|] == calls;
  }

  /** The model call of one iteration and what follows it. `done` says the loop returns
      `r`; otherwise the new variables are returned. */
  method HandleReply(conv: Conversation, disk: Checkpoint.Disk, totalIn: nat, totalOut: nat, spawned: seq<Json>,
                     pending: seq<Json>, artifacts: seq<string>, ghost v: Vars, w: Oracles)
    returns (done: bool, r: LoopResult, totalIn': nat, totalOut': nat, spawned': seq<Json>, pending': seq<Json>,
             artifacts': seq<string>)
    requires v == Vars(totalIn, totalOut, spawned, pending, artifacts, conv.messages, disk.files, v.llmCalls)
    requires conv as object != disk
    modifies conv, disk
    ensures var n := AfterReply(v, w);
            done == n.Done? && (done ==> r == n.result && conv.messages == n.vars.messages && disk.files == n.vars.files) &&
            (!done ==> n.vars == Vars(totalIn', totalOut', spawned', pending', artifacts', conv.messages, disk.files, v.llmCalls + 1))
  {
    totalIn', totalOut', spawned', pending', artifacts' := totalIn, totalOut, spawned, pending, artifacts;
    var reply := w.llm(conv.messages);
    if reply.CallFailed? {
      return true, LoopResult("failed", "LLM call failed: " + reply.error, totalIn, totalOut, [], []),
             totalIn', totalOut', spawned', pending', artifacts';
    }
    totalIn' := totalIn + reply.promptTokens;
    totalOut' := totalOut + reply.completionTokens;
    conv.messages := conv.messages + [reply.dump];
    done := true;
    if reply.finishReason == "stop" || reply.finishReason == "end_turn" {
      r := LoopResult("completed", reply.content, totalIn', totalOut', artifacts, []);
    } else if reply.finishReason == "tool_calls" || reply.toolCalls != [] {
      ghost var v1 := Counted(v, reply.promptTokens, reply.completionTokens, reply.dump);
      spawned', pending', artifacts' := DispatchToolCalls(conv, disk, spawned, pending, artifacts, v1, reply.toolCalls, w);
      done := false;
      r := LoopResult("", "", 0, 0, [], []);
    } else if reply.content != "" {
      r := LoopResult("completed", reply.content, totalIn', totalOut', artifacts, []);
    } else {
      r := LoopResult("failed", "Unexpected stop reason: " + reply.finishReason, totalIn', totalOut', [], []);
    }
  }

  /** One iteration: the kill flag, the budget, then the model call. */
  method Iterate(conv: Conversation, disk: Checkpoint.Disk, totalIn: nat, totalOut: nat, spawned: seq<Json>,
                 pending: seq<Json>, artifacts: seq<string>, ghost v: Vars, iteration: nat, limit: Option<int>, w: Oracles)
    returns (done: bool, r: LoopResult, totalIn': nat, totalOut': nat, spawned': seq<Json>, pending': seq<Json>,
             artifacts': seq<string>)
    requires v == Vars(totalIn, totalOut, spawned, pending, artifacts, conv.messages, disk.files, v.llmCalls)
    requires limit == BudgetLimit(w.budget, w.parseInt)
    requires conv as object != disk
    modifies conv, disk
    ensures var n := Step(v, iteration, w);
            done == n.Done? && (done ==> r == n.result && conv.messages == n.vars.messages && disk.files == n.vars.files) &&
            (!done ==> n.vars == Vars(totalIn', totalOut', spawned', pending', artifacts', conv.messages, disk.files, v.llmCalls + 1))
  {
    if w.killed(iteration) {
      StepKilled(v, iteration, w);
      SaveWaitingCheckpoint(disk, w, spawned, pending, conv.messages);
      return true, LoopResult("failed", "Task killed by SIGTERM", totalIn, totalOut, [], []),
             totalIn, totalOut, spawned, pending, artifacts;
    }
    if limit.Some? && totalIn + totalOut >= limit.value {
      StepOverLimit(v, iteration, w);
      SaveWaitingCheckpoint(disk, w, spawned, pending, conv.messages);
      return true, LoopResult("budget_exceeded", BudgetMessage(totalIn + totalOut, w.budget, limit.value), totalIn, totalOut, [], []),
             totalIn, totalOut, spawned, pending, artifacts;
    }
    StepReplies(v, iteration, w);
    done, r, totalIn', totalOut', spawned', pending', artifacts' := HandleReply(conv, disk, totalIn, totalOut, spawned, pending, artifacts, v, w);
  }

  lemma StepKilled(v: Vars, i: nat, w: Oracles)
    requires w.killed(i)
    ensures Step(v, i, w) == Done(Stopped("failed", "Task killed by SIGTERM", v, []), v.(files := SaveWaiting(v, w)))
  {
  }

  lemma StepOverLimit(v: Vars, i: nat, w: Oracles)
    requires !w.killed(i)
    requires BudgetLimit(w.budget, w.parseInt).Some? && v.totalIn + v.totalOut >= BudgetLimit(w.budget, w.parseInt).value
    ensures Step(v, i, w) == Done(Stopped("budget_exceeded", BudgetMessage(v.totalIn + v.totalOut, w.budget, BudgetLimit(w.budget, w.parseInt).value), v, []),
                                  v.(files := SaveWaiting(v, w)))
  {
  }

  lemma StepReplies(v: Vars, i: nat, w: Oracles)
    requires !w.killed(i)
    requires !(BudgetLimit(w.budget, w.parseInt).Some? && v.totalIn + v.totalOut >= BudgetLimit(w.budget, w.parseInt).value)
    ensures Step(v, i, w) == AfterReply(v, w)
  {
  }

  /** The end of the last iteration without a result. */
  method StopAtLimit(disk: Checkpoint.Disk, totalIn: nat, totalOut: nat, spawned: seq<Json>, pending: seq<Json>,
                     messages: seq<Dict>, ghost v: Vars, w: Oracles) returns (r: LoopResult)
    requires v == Vars(totalIn, totalOut, spawned, pending, v.artifacts, messages, disk.files, v.llmCalls)
    modifies disk
    ensures r == Run(v, MaxIterations, w).0 && disk.files == Run(v, MaxIterations, w).1.files
  {
    SaveWaitingCheckpoint(disk, w, spawned, pending, messages);
    return LoopResult("failed", "Iteration limit reached (200)", totalIn, totalOut, [], []);
  }

  /** `agentic_loop`: the caller's conversation and the filesystem end as `Run` says, and
      the result is `Run`'s. */
  method AgenticLoop(conv: Conversation, disk: Checkpoint.Disk, w: Oracles) returns (r: LoopResult)
    requires conv as object != disk
    modifies conv, disk
    ensures r == Run(Start(old(conv.messages), old(disk.files)), 0, w).0
    ensures conv.messages == Run(Start(old(conv.messages), old(disk.files)), 0, w).1.messages
    ensures disk.files == Run(Start(old(conv.messages), old(disk.files)), 0, w).1.files
  {
    ghost var goal := Run(Start(conv.messages, disk.files), 0, w);
    var totalIn: nat, totalOut: nat := 0, 0;
    var spawned: seq<Json>, pending: seq<Json>, artifacts: seq<string> := [], [], [];
    ghost var cur := Start(conv.messages, disk.files);
    var limit := BudgetLimit(w.budget, w.parseInt);
    for iteration := 0 to MaxIterations
      invariant cur == Vars(totalIn, totalOut, spawned, pending, artifacts, conv.messages, disk.files, cur.llmCalls)
      invariant Run(cur, iteration, w) == goal
    {
      RunUnfold(cur, iteration, w);
      var done;
      done, r, totalIn, totalOut, spawned, pending, artifacts :=
        Iterate(conv, disk, totalIn, totalOut, spawned, pending, artifacts, cur, iteration, limit, w);
      if done {
        return;
      }
      cur := Step(cur, iteration, w).vars;
    }
    r := StopAtLimit(disk, totalIn, totalOut, spawned, pending, conv.messages, cur, w);
  }
}
