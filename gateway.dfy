// The OpenAI-compatible gateway's helpers (internal/gateway/helpers.go): resource-name
// sanitising, flattening a chat into one prompt, building the AgentTask object, reading a
// task's state back, and the phase tables.
module Gateway {
  import opened Strs
  import opened Wrappers

  // ---------------------------------------------------------------- sanitizeName

  predicate NameChar(c: char) { ('a' <= c <= 'z') || ('0' <= c <= '9') || c == '-' }

  predicate AllNameChars(s: string) { forall i :: 0 <= i < |s| ==> NameChar(s[i]) }

  /** The regular-expression replacement: every character outside [a-z0-9-] becomes "-". */
  function ReplaceInvalid(s: string): (r: string)
    ensures |r| == |s| && AllNameChars(r)
    ensures forall i :: 0 <= i < |s| ==> r[i] == (if NameChar(s[i]) then s[i] else '-')
  { seq(|s|, i requires 0 <= i < |s| => if NameChar(s[i]) then s[i] else '-') }

  /** Dropping leading dashes. */
  function TrimLeftDashes(s: string): (r: string)
    ensures |r| <= |s| && r == s[|s| - |r|..]
    ensures r == [] || r[0] != '-'
    ensures forall i :: 0 <= i < |s| - |r| ==> s[i] == '-'
  { if s != [] && s[0] == '-' then TrimLeftDashes(s[1..]) else s }

  /** Dropping trailing dashes. */
  function TrimRightDashes(s: string): (r: string)
    ensures r <= s
    ensures r == [] || r[|r| - 1] != '-'
    ensures forall i :: |r| <= i < |s| ==> s[i] == '-'
  { if s != [] && s[|s| - 1] == '-' then TrimRightDashes(s[..|s| - 1]) else s }

  /** `strings.Trim(s, "-")`: the part of `s` between its leading and trailing dashes. */
  function TrimDashes(s: string): (r: string)
    ensures |r| <= |s|
    ensures r == [] || (r[0] != '-' && r[|r| - 1] != '-')
    ensures AllNameChars(s) ==> AllNameChars(r)
  {
    var left := TrimLeftDashes(s);
    var r := TrimRightDashes(left);
    SliceNameChars(s, |s| - |left|, |s|);
    SliceNameChars(left, 0, |r|);
    r
  }

  lemma SliceNameChars(s: string, i: nat, j: nat)
    requires i <= j <= |s|
    ensures AllNameChars(s) ==> AllNameChars(s[i..j])
  {
    if AllNameChars(s) {
      forall k | 0 <= k < j - i ensures NameChar(s[i..j][k]) { assert s[i..j][k] == s[i + k]; }
    }
  }

  /** A usable name: valid characters only, at most 40 of them, no dash at either end. */
  predicate CleanName(r: string)
  {
    AllNameChars(r) && |r| <= 40 && (r == [] || (r[0] != '-' && r[|r| - 1] != '-'))
  }

  /** `sanitizeName`: lower-case, replace invalid characters, keep at most 40, trim dashes. */
  function SanitizeName(s: string): (r: string)
    ensures CleanName(r)
  {
    TrimDashes(KeepFirst(ReplaceInvalid(Lower(s)), 40))
  }

  /** At most the first `n` characters. */
  function KeepFirst(s: string, n: nat): (r: string)
    ensures |r| <= n && r <= s
    ensures |s| <= n ==> r == s
    ensures AllNameChars(s) ==> AllNameChars(r)
  {
    var r := if |s| > n then s[..n] else s;
    SliceNameChars(s, 0, |r|);
    assert r == s[0..|r|];
    r
  }

  /** Sanitising a sanitised name changes nothing. */
  lemma SanitizeNameIdempotent(s: string)
    ensures SanitizeName(SanitizeName(s)) == SanitizeName(s)
  {
    SanitizeNameFixes(SanitizeName(s));
  }

  /** A name that is already valid, short enough and dash-trimmed is left as it is. */
  lemma SanitizeNameFixes(r: string)
    requires CleanName(r)
    ensures SanitizeName(r) == r
  {
    LowerNameChars(r);
    ReplaceValid(r);
    assert KeepFirst(ReplaceInvalid(Lower(r)), 40) == r;
    TrimDashesNoop(r);
  }

  lemma LowerNameChars(r: string)
    requires AllNameChars(r)
    ensures Lower(r) == r
  {
    forall i | 0 <= i < |r| ensures Lower(r)[i] == r[i] { assert NameChar(r[i]); }
  }

  lemma ReplaceValid(r: string)
    requires AllNameChars(r)
    ensures ReplaceInvalid(r) == r
  {
  }

  lemma TrimDashesNoop(s: string)
    requires s == [] || (s[0] != '-' && s[|s| - 1] != '-')
    ensures TrimDashes(s) == s
  {
    assert TrimLeftDashes(s) == s;
  }

  // ---------------------------------------------------------------- buildPrompt

  /** A chat message: its role and its text content. */
  datatype Message = Message(role: string, text: string)

  const AssistantPrefix := "[Previous assistant response:]\n"
  const SystemHeader := "[System Context]\n"

  /** The system texts, in order. */
  function SystemParts(ms: seq<Message>): seq<string>
  {
    if ms == [] then []
    else SystemParts(ms[..|ms| - 1]) + (if ms[|ms| - 1].role == "system" then [ms[|ms| - 1].text] else [])
  }

  /** The user texts and the prefixed assistant texts, in order; other roles are dropped. */
  function UserParts(ms: seq<Message>): seq<string>
  {
    if ms == [] then []
    else
      var m := ms[|ms| - 1];
      UserParts(ms[..|ms| - 1])
        + (if m.role == "user" then [m.text] else if m.role == "assistant" then [AssistantPrefix + m.text] else [])
  }

  /** The prompt `buildPrompt` produces: one system block first when there are system texts,
      then the conversation, blank-line separated. */
  function PromptOf(ms: seq<Message>): string
  {
    var sys := SystemParts(ms);
    Join((if |sys| > 0 then [SystemHeader + Join(sys, "\n")] else []) + UserParts(ms), "\n\n")
  }

  /** `buildPrompt`: sort the messages into system and conversation parts, then join. */
  method BuildPrompt(ms: seq<Message>) returns (prompt: string)
    ensures prompt == PromptOf(ms)
  {
    var systemParts: seq<string> := [];
    var userParts: seq<string> := [];
    var i := 0;
    while i < |ms|
      invariant 0 <= i <= |ms|
      invariant systemParts == SystemParts(ms[..i]) && userParts == UserParts(ms[..i])
    {
      assert ms[..i + 1][..i] == ms[..i];
      var m := ms[i];
      if m.role == "system" {
        systemParts := systemParts + [m.text];
      } else if m.role == "user" {
        userParts := userParts + [m.text];
      } else if m.role == "assistant" {
        userParts := userParts + [AssistantPrefix + m.text];
      }
      i := i + 1;
    }
    assert ms[..|ms|] == ms;
    var parts: seq<string> := [];
    if |systemParts| > 0 {
      parts := parts + [SystemHeader + Join(systemParts, "\n")];
    }
    parts := parts + userParts;
    prompt := Join(parts, "\n\n");
  }

  /** No messages give the empty prompt. */
  lemma PromptOfEmpty()
    ensures PromptOf([]) == ""
  {
  }

  /** With system texts, the prompt opens with the system-context block. */
  lemma {:induction false} PromptOpensWithSystem(ms: seq<Message>)
    requires SystemParts(ms) != []
    ensures StartsWith(PromptOf(ms), SystemHeader)
  {
    var sys := SystemParts(ms);
    var head := SystemHeader + Join(sys, "\n");
    var parts := [head] + UserParts(ms);
    JoinStartsWithFirst(parts, "\n\n");
    assert StartsWith(head, SystemHeader);
  }

  /** A message whose role is none of system, user and assistant leaves no trace. */
  lemma OtherRolesDropped(ms: seq<Message>, m: Message)
    requires m.role != "system" && m.role != "user" && m.role != "assistant"
    ensures PromptOf(ms + [m]) == PromptOf(ms)
  {
    assert (ms + [m])[..|ms + [m]| - 1] == ms;
    assert SystemParts(ms + [m]) == SystemParts(ms) + [] == SystemParts(ms);
    assert UserParts(ms + [m]) == UserParts(ms) + [] == UserParts(ms);
  }

  /** Both part lists keep message order: they distribute over concatenation. */
  lemma {:induction false} PartsAppend(a: seq<Message>, b: seq<Message>)
    ensures SystemParts(a + b) == SystemParts(a) + SystemParts(b)
    ensures UserParts(a + b) == UserParts(a) + UserParts(b)
    decreases |b|
  {
    if b == [] {
      assert a + b == a;
    } else {
      var b' := b[..|b| - 1];
      assert (a + b)[..|a + b| - 1] == a + b';
      assert (a + b)[|a + b| - 1] == b[|b| - 1];
      PartsAppend(a, b');
    }
  }

  // ---------------------------------------------------------------- unstructured objects

  /** The dynamically typed values of an unstructured Kubernetes object. A float is
      represented by the integer Go's `int64` conversion truncates it to. */
  datatype UVal =
    | UNull | UBool(b: bool) | UStr(s: string) | UInt(i: int) | UFloat(truncated: int)
    | UList(items: seq<UVal>) | UMap(fields: map<string, UVal>)

  /** A field of a map value; `UNull` when absent or when the value is not a map. */
  function Field(u: UVal, key: string): UVal
  { if u.UMap? && key in u.fields then u.fields[key] else UNull }

  // ---------------------------------------------------------------- buildAgentTask

  datatype ModelConfig = ModelConfig(name: string, endpoint: string, secretName: string, secretKey: string)
  datatype Budget = Budget(maxCostUsd: string, maxTokens: Option<int>)
  datatype ChatRequest = ChatRequest(capabilities: seq<string>, budget: Option<Budget>, noCache: bool)
  datatype FileContent = FileContent(filename: string, data: string)

  function ModelBlock(cfg: ModelConfig): (u: UVal)
    ensures Field(u, "name") == UStr(cfg.name)
    ensures Field(u, "endpoint") == (if cfg.endpoint != "" then UStr(cfg.endpoint) else UNull)
    ensures Field(u, "apiKeyRef") == (if cfg.secretName != ""
      then UMap(map["secretName" := UStr(cfg.secretName), "key" := UStr(cfg.secretKey)]) else UNull)
  {
    var m := map["name" := UStr(cfg.name)];
    var m := if cfg.endpoint != "" then m["endpoint" := UStr(cfg.endpoint)] else m;
    var m := if cfg.secretName != "" then m["apiKeyRef" := UMap(map["secretName" := UStr(cfg.secretName), "key" := UStr(cfg.secretKey)])] else m;
    UMap(m)
  }

  function BudgetBlock(b: Budget): (u: UVal)
    ensures Field(u, "maxCostUsd") == (if b.maxCostUsd != "" then UStr(b.maxCostUsd) else UNull)
    ensures Field(u, "maxTokens") == (if b.maxTokens.Some? then UInt(b.maxTokens.value) else UNull)
  {
    var m: map<string, UVal> := map[];
    var m := if b.maxCostUsd != "" then m["maxCostUsd" := UStr(b.maxCostUsd)] else m;
    var m := if b.maxTokens.Some? then m["maxTokens" := UInt(b.maxTokens.value)] else m;
    UMap(m)
  }

  function TaskSpec(role: string, tier: string, prompt: string, req: ChatRequest, cfg: Option<ModelConfig>,
                    files: seq<FileContent>): (spec: UVal)
    ensures Field(spec, "prompt") == UStr(prompt) && Field(spec, "role") == UStr(role) && Field(spec, "tier") == UStr(tier)
    ensures Field(spec, "model") == (if cfg.Some? then ModelBlock(cfg.value) else UNull)
    ensures Field(spec, "capabilities") == (if |req.capabilities| > 0 then StrList(req.capabilities) else UNull)
    ensures Field(spec, "budget") == (if req.budget.Some? then BudgetBlock(req.budget.value) else UNull)
    ensures Field(spec, "inputFiles") == (if |files| > 0 then FileList(files) else UNull)
  {
    UMap(SpecFields(prompt, role, tier,
      if cfg.Some? then Some(ModelBlock(cfg.value)) else None,
      if |req.capabilities| > 0 then Some(StrList(req.capabilities)) else None,
      if req.budget.Some? then Some(BudgetBlock(req.budget.value)) else None,
      if |files| > 0 then Some(FileList(files)) else None))
  }

  /** The spec map: the three fixed fields, and each optional field only when it is given. */
  function SpecFields(prompt: string, role: string, tier: string, model: Option<UVal>, capabilities: Option<UVal>,
                      budget: Option<UVal>, inputFiles: Option<UVal>): (m: map<string, UVal>)
    ensures "prompt" in m && m["prompt"] == UStr(prompt)
    ensures "role" in m && m["role"] == UStr(role)
    ensures "tier" in m && m["tier"] == UStr(tier)
    ensures ("model" in m) == model.Some? && (model.Some? ==> m["model"] == model.value)
    ensures ("capabilities" in m) == capabilities.Some? && (capabilities.Some? ==> m["capabilities"] == capabilities.value)
    ensures ("budget" in m) == budget.Some? && (budget.Some? ==> m["budget"] == budget.value)
    ensures ("inputFiles" in m) == inputFiles.Some? && (inputFiles.Some? ==> m["inputFiles"] == inputFiles.value)
  {
    OptionalFields(FixedFields(prompt, role, tier), model, capabilities, budget, inputFiles)
  }

  /** The three fields every spec has. */
  function FixedFields(prompt: string, role: string, tier: string): (m: map<string, UVal>)
    ensures "prompt" in m && m["prompt"] == UStr(prompt)
    ensures "role" in m && m["role"] == UStr(role)
    ensures "tier" in m && m["tier"] == UStr(tier)
    ensures "model" !in m && "capabilities" !in m && "budget" !in m && "inputFiles" !in m
  {
    SpecKeysDistinct();
    map["prompt" := UStr(prompt), "role" := UStr(role), "tier" := UStr(tier)]
  }

  /** `m0` with the optional spec fields added, each only when it is given. */
  function OptionalFields(m0: map<string, UVal>, model: Option<UVal>, capabilities: Option<UVal>,
                          budget: Option<UVal>, inputFiles: Option<UVal>): (m: map<string, UVal>)
    ensures ("model" in m) == (model.Some? || "model" in m0) && (model.Some? ==> m["model"] == model.value)
    ensures ("capabilities" in m) == (capabilities.Some? || "capabilities" in m0) &&
            (capabilities.Some? ==> m["capabilities"] == capabilities.value)
    ensures ("budget" in m) == (budget.Some? || "budget" in m0) && (budget.Some? ==> m["budget"] == budget.value)
    ensures ("inputFiles" in m) == (inputFiles.Some? || "inputFiles" in m0) &&
            (inputFiles.Some? ==> m["inputFiles"] == inputFiles.value)
    ensures forall k :: k != "model" && k != "capabilities" && k != "budget" && k != "inputFiles" ==>
              (k in m <==> k in m0) && (k in m0 ==> m[k] == m0[k])
  {
    SpecKeysDistinct();
    PutOpt(PutOpt(PutOpt(PutOpt(m0, "model", model), "capabilities", capabilities), "budget", budget), "inputFiles", inputFiles)
  }

  lemma SpecKeysDistinct()
    ensures "model" != "prompt" && "model" != "role" && "model" != "tier"
    ensures "capabilities" != "prompt" && "capabilities" != "role" && "capabilities" != "tier" && "capabilities" != "model"
    ensures "budget" != "prompt" && "budget" != "role" && "budget" != "tier" && "budget" != "model" && "budget" != "capabilities"
    ensures "inputFiles" != "prompt" && "inputFiles" != "role" && "inputFiles" != "tier" && "inputFiles" != "model"
    ensures "inputFiles" != "capabilities" && "inputFiles" != "budget"
  {
  }

  /** `m` with `k` set when a value is given, and unchanged otherwise. */
  function PutOpt(m: map<string, UVal>, k: string, v: Option<UVal>): (r: map<string, UVal>)
    ensures v.Some? ==> k in r && r[k] == v.value
    ensures v.None? ==> r == m
    ensures forall k' :: k' != k ==> (k' in r <==> k' in m) && (k' in m ==> r[k'] == m[k'])
  { if v.Some? then m[k := v.value] else m }

  /** A list of strings as a list value. */
  function StrList(xs: seq<string>): (u: UVal)
    ensures u.UList? && |u.items| == |xs| && forall i :: 0 <= i < |xs| ==> u.items[i] == UStr(xs[i])
  { UList(seq(|xs|, i requires 0 <= i < |xs| => UStr(xs[i]))) }

  /** The inline files, each as a map of its name and data. */
  function FileList(files: seq<FileContent>): (u: UVal)
    ensures u.UList? && |u.items| == |files|
    ensures forall i :: 0 <= i < |files| ==>
              u.items[i] == UMap(map["filename" := UStr(files[i].filename), "data" := UStr(files[i].data)])
  {
    UList(seq(|files|, i requires 0 <= i < |files| =>
      UMap(map["filename" := UStr(files[i].filename), "data" := UStr(files[i].data)])))
  }

  function TaskMetadata(name: string, namespace: string, role: string, noCache: bool): (md: UVal)
    ensures Field(md, "name") == UStr(name) && Field(md, "namespace") == UStr(namespace)
    ensures Field(Field(md, "labels"), "hortator.ai/role") == UStr(role)
    ensures Field(Field(md, "labels"), "hortator.ai/source") == UStr("gateway")
    ensures Field(Field(md, "annotations"), "hortator.ai/no-cache") == (if noCache then UStr("true") else UNull)
  {
    var annotations: map<string, UVal> := if noCache then map["hortator.ai/no-cache" := UStr("true")] else map[];
    UMap(map[
      "name" := UStr(name),
      "namespace" := UStr(namespace),
      "labels" := UMap(map["hortator.ai/source" := UStr("gateway"), "hortator.ai/role" := UStr(role)]),
      "annotations" := UMap(annotations)])
  }

  /** `buildAgentTask`: the AgentTask object the gateway creates; it has no status yet. */
  function BuildAgentTask(name: string, namespace: string, role: string, tier: string, prompt: string,
                          req: ChatRequest, cfg: Option<ModelConfig>, files: seq<FileContent>): (task: UVal)
    ensures Field(task, "kind") == UStr("AgentTask")
    ensures Field(task, "metadata") == TaskMetadata(name, namespace, role, req.noCache)
    ensures Field(task, "spec") == TaskSpec(role, tier, prompt, req, cfg, files)
    ensures Field(task, "status") == UNull
  {
    ResourceObject("core.hortator.ai/v1alpha1", "AgentTask", TaskMetadata(name, namespace, role, req.noCache),
                   TaskSpec(role, tier, prompt, req, cfg, files))
  }

  /** A resource with its API version, kind, metadata and spec, and no status yet. */
  function ResourceObject(apiVersion: string, kind: string, metadata: UVal, spec: UVal): (u: UVal)
    ensures Field(u, "apiVersion") == UStr(apiVersion) && Field(u, "kind") == UStr(kind)
    ensures Field(u, "metadata") == metadata && Field(u, "spec") == spec && Field(u, "status") == UNull
  {
    TopKeysDistinct();
    UMap(map["apiVersion" := UStr(apiVersion), "kind" := UStr(kind), "metadata" := metadata, "spec" := spec])
  }

  lemma TopKeysDistinct()
    ensures "kind" != "apiVersion" && "metadata" != "apiVersion" && "metadata" != "kind"
    ensures "spec" != "apiVersion" && "spec" != "kind" && "spec" != "metadata"
    ensures "status" != "apiVersion" && "status" != "kind" && "status" != "metadata" && "status" != "spec"
  {
  }

  // ---------------------------------------------------------------- extractTaskState

  datatype TaskState = TaskState(name: string, phase: string, output: string, message: string,
                                 tokensIn: int, tokensOut: int, children: seq<string>, startedAt: Option<int>)

  /** An RFC 3339 timestamp parser; `time.Parse` itself is not part of this model. */
  type TimeParser = string -> Option<int>

  /** A string field's text, or `default` when the field holds no string. */
  function StrOr(u: UVal, default: string): (r: string)
    ensures u.UStr? ==> r == u.s
    ensures !u.UStr? ==> r == default
  { if u.UStr? then u.s else default }

  /** A token count stored as an int64, or as a float64 cut toward zero; anything else counts 0. */
  function CountOf(u: UVal): (n: int)
    ensures u.UInt? ==> n == u.i
    ensures u.UFloat? ==> n == u.truncated
    ensures !u.UInt? && !u.UFloat? ==> n == 0
  { if u.UInt? then u.i else if u.UFloat? then u.truncated else 0 }

  /** The string entries of a list, in order; other entries are skipped. */
  function Strings(items: seq<UVal>): (r: seq<string>)
    ensures |r| <= |items|
    ensures forall s :: s in r ==> UStr(s) in items
    ensures forall k :: 0 <= k < |items| && items[k].UStr? ==> items[k].s in r
  {
    if items == [] then []
    else (if items[0].UStr? then [items[0].s] else []) + Strings(items[1..])
  }

  /** One list entry contributes its text when it is a string and nothing otherwise. */
  lemma StringsSingle(u: UVal)
    ensures u.UStr? ==> Strings([u]) == [u.s]
    ensures !u.UStr? ==> Strings([u]) == []
  {
    assert [u][1..] == [];
  }

  /** Collecting the strings of a joined list collects each part in turn. */
  lemma {:induction false} StringsAppend(a: seq<UVal>, b: seq<UVal>)
    ensures Strings(a + b) == Strings(a) + Strings(b)
    decreases |a|
  {
    if a == [] {
      assert a + b == b;
    } else {
      assert (a + b)[0] == a[0] && (a + b)[1..] == a[1..] + b;
      StringsAppend(a[1..], b);
    }
  }

  /** `extractTaskState`: a task without a status map is Pending; otherwise each field is read
      when it has the expected type and left at its zero value when not. */
  function ExtractTaskState(name: string, obj: UVal, parseTime: TimeParser): (st: TaskState)
    ensures !Field(obj, "status").UMap? ==> st == TaskState(name, "Pending", "", "", 0, 0, [], None)
    ensures Field(obj, "status").UMap? ==> st.phase == StrOr(Field(Field(obj, "status"), "phase"), "")
    ensures st.name == name
    ensures var status := Field(obj, "status");
            status.UMap? ==> st.output == StrOr(Field(status, "output"), "") && st.message == StrOr(Field(status, "message"), "")
    ensures var tokens := Field(Field(obj, "status"), "tokensUsed");
            Field(obj, "status").UMap? && tokens.UMap? ==>
              st.tokensIn == CountOf(Field(tokens, "input")) && st.tokensOut == CountOf(Field(tokens, "output"))
    ensures !Field(Field(obj, "status"), "tokensUsed").UMap? ==> st.tokensIn == 0 && st.tokensOut == 0
    ensures var children := Field(Field(obj, "status"), "childTasks");
            Field(obj, "status").UMap? ==> st.children == if children.UList? then Strings(children.items) else []
    ensures var started := Field(Field(obj, "status"), "startedAt");
            Field(obj, "status").UMap? ==> st.startedAt == if started.UStr? then parseTime(started.s) else None
  {
    var status := Field(obj, "status");
    if !status.UMap? then TaskState(name, "Pending", "", "", 0, 0, [], None)
    else
      var tokens := Field(status, "tokensUsed");
      var children := Field(status, "childTasks");
      var started := Field(status, "startedAt");
      TaskState(name,
        StrOr(Field(status, "phase"), ""),
        StrOr(Field(status, "output"), ""),
        StrOr(Field(status, "message"), ""),
        if tokens.UMap? then CountOf(Field(tokens, "input")) else 0,
        if tokens.UMap? then CountOf(Field(tokens, "output")) else 0,
        if children.UList? then Strings(children.items) else [],
        if started.UStr? then parseTime(started.s) else None)
  }

  /** Reading back a task the gateway built gives a Pending state, since it has no status yet. */
  lemma BuiltTaskReadsPending(name: string, namespace: string, role: string, tier: string, prompt: string,
                              req: ChatRequest, cfg: Option<ModelConfig>, files: seq<FileContent>, parseTime: TimeParser)
    ensures ExtractTaskState(name, BuildAgentTask(name, namespace, role, tier, prompt, req, cfg, files), parseTime).phase == "Pending"
  {
    var task := BuildAgentTask(name, namespace, role, tier, prompt, req, cfg, files);
    assert !Field(task, "status").UMap?;
  }

  // ---------------------------------------------------------------- phases

  /** `isTerminalPhase`. */
  predicate IsTerminalPhase(phase: string)
  { phase in {"Completed", "Failed", "TimedOut", "BudgetExceeded", "Cancelled"} }

  /** `mapPhaseToFinishReason`: running out of budget or time reads as "length", all else "stop". */
  function FinishReason(phase: string): (r: string)
    ensures r == "length" <==> phase == "BudgetExceeded" || phase == "TimedOut"
    ensures r == "length" || r == "stop"
  {
    if phase == "Completed" then "stop"
    else if phase == "BudgetExceeded" then "length"
    else if phase == "TimedOut" then "length"
    else if phase == "Failed" || phase == "Cancelled" then "stop"
    else "stop"
  }

  /** Every finish reason for a phase still in progress is "stop". */
  lemma NonTerminalStops(phase: string)
    requires !IsTerminalPhase(phase)
    ensures FinishReason(phase) == "stop"
  {
  }
}
