# Hortator core, modelled in Dafny

Hortator is a Kubernetes operator that runs LLM agents as `AgentTask` custom resources.
Each task is a pod. Tasks can spawn child tasks, so a run forms a tree with budgets,
retries and retention. This project models the decision logic of the system and proves
properties of it. It has two halves.

**The agentic runtime** is the Python program inside a centurion or tribune pod.
- `AgentLoop` models the tool-calling loop, its stops and its "waiting" checkpoint. The stops are the iteration cap of 200, the kill flag and the token budget.
- `Checkpoint` models the versioned checkpoint file, with the filesystem as a map.
- `ToolExecutor` models the tool dispatcher, which turns every call into a result and never raises. It covers the shell policy, the path-prefix allowlists, head and tail truncation, and the task-management tools that go through the `hortator` CLI.
- `Tools` models the capability-gated tool catalogue.
- `Prompt` models the section-structured system prompt.
- `RuntimeMain` models the entry point: the inbox, the child results, the resume context and the result file.

**The operator and its helpers** are written in Go.
- `TaskController` models the reconciler's phase rules:
  - retry, backoff and the attempt history;
  - the Waiting wake-up and the Retrying step;
  - TTL retention;
  - the handling of a succeeded pod.
- `ControllerHelpers` models duration parsing, result and token extraction from logs, the log tail, and parent notification.
- `ControllerConfig` models the cluster defaults and their cache.
- `Budget` models the price map and the token budget.
- `HierarchyBudget` models the root walk, usage accounting and cancellation of a tree.
- `Policy` models AgentPolicy enforcement and the shell-policy union.
- `Webhook` models admission validation.
- `Health` models the stuck-detection configuration, the prompt-repetition signal and the stuck actions.
- `Knowledge` models retained-volume discovery by tags.
- `PodBuilder` models claim, image, environment, volume and resource derivation.
- `Cache` models the in-memory result cache with FIFO eviction and a TTL.
- The gateway is split in two:
  - `RateLimit` is the sliding-window limiter and the Bearer-token client key, taken from section 2.1 of RFC 6750;
  - `Gateway` is the name sanitiser, the prompt flattener, the AgentTask builder, the state reader and the finish-reason map.
- `Qdrant` models the FNV-1a point id, the payload round trip and the search filter.
- `SseStream` models the SDK's parser for the `data:` lines of a Server-Sent Events stream. The stream format is section 9.2 of the HTML Living Standard.
- `CliWatch`, `CliTree`, `CliStatus` and `CliRoles` model the CLI helpers: number formatting, tree flattening, the TUI cursor and namespace rules, `truncate`, `capitalize` and `hasAllTools`.

Everything the code asks of the outside world is a parameter of the model:
- the LLM, the `hortator` CLI and the shell are oracle functions;
- the Kubernetes client becomes maps and listings, and Get or Update results become outcome values;
- the filesystem is a `map<string, string>`. In `ToolExecutor` it is keyed by resolved absolute paths, with `.`, `..` and repeated slashes resolved (`ToolExecutor.Resolve`);
- the clock is a `now` parameter. In the Go modules (`Api`, `TaskController`, `Cache`, `Budget`, `ControllerConfig`, `RateLimit`) it is an integer count of nanoseconds, as Go's `time.Time` and `time.Duration` are;
- in the Python runtime the only time is a result's duration in whole seconds, which the caller of `RuntimeMain.WriteResult` supplies;
- the backoff jitter is a bounded parameter;
- float parsing and formatting, glob matching, quantity parsing, SHA-256 and JSON encoding are oracle functions.

The exact wording of prompt sections and tool descriptions is not modelled. It comes from `Prompt.Wording` and `Tools.Descriptions`. Names, types, enums, required lists and section structure are exact.

Shared modules:
- `Wrappers` holds Option and Result.
- `Strs` holds splitting, joining, trimming, lower-casing and decimal rendering, with their round-trip lemmas.
- `Json` holds the JSON value type.
- `Api` holds the AgentTask datatypes.

Where Python or Go behaviour is easy to mistake, the model follows the code:
- `run_shell` checks only the first word of a command against the allow and deny lists. It does not use the pipe-aware `_check_shell_command_policy`. So with only `a` allowed, `a | b` passes the gate (`ToolExecutor.ShellGateMissesPipedCommand`). The pipe-aware check is modelled and proved on its own.
- The loop never returns the status "waiting" (`AgentLoop.RunReports`). The "waiting" branch at the end of `main` is therefore never taken.
- The webhook and the policy code each have their own `tierRank` with different numbers. Both are modelled.

## Model

| member | source | states |
|---|---|---|
| CliStatus.Truncate | cmd/hortator/cmd/status.go:156-161 | a string within the limit is returned unchanged; a longer one keeps its first `maxLen-3` characters followed by "...", exactly `maxLen` long |
| CliStatus.TruncateBound | cmd/hortator/cmd/status.go:156-161 | the result never exceeds the limit nor the input's length |
| CliStatus.TruncateIdempotent | cmd/hortator/cmd/status.go:156-161 | truncating a truncated string changes nothing |
| CliTree.Capitalize | cmd/hortator/cmd/tree.go:152-157 | same length; the empty string stays empty; otherwise the first character is upper-cased and the rest kept |
| CliTree.CapitalizeIdempotent | cmd/hortator/cmd/tree.go:152-157 | capitalising twice equals capitalising once |
| CliTree.ChildrenOf | cmd/hortator/cmd/tree.go:64-69 | exactly the listed tasks whose parent is the given name, and no more of them than tasks |
| CliTree.BuildChildMap | cmd/hortator/cmd/tree.go:64-69 | the grouping loop yields, for every non-empty parent name, that parent's children in list order, and no key without children |
| CliTree.AddChild | cmd/hortator/cmd/tree.go:66-68 | one loop step keeps the map a faithful grouping of the tasks seen so far plus the new one |
| CliTree.ChildrenOfSnoc | cmd/hortator/cmd/tree.go:65-69 | a task appended to the list is appended to its parent's children and to no one else's |
| CliTree.BuildTreeNode | cmd/hortator/cmd/tree.go:88-100 | the node carries the task's name, capitalised tier, phase and duration, and one child per child-map entry, in order |
| CliTree.BuildTreeNodeFaithful | cmd/hortator/cmd/tree.go:88-100 | at every depth, each child node comes from an entry of its parent's child list |
| CliTree.Size | cmd/hortator/cmd/tree.go:36-42 | a tree has at least one node |
| CliTree.Connector | cmd/hortator/cmd/tree.go:111-121 | the last child gets "└── " and a blank prefix, every other child "├── " and a bar prefix |
| CliTree.Render | cmd/hortator/cmd/tree.go:102-129 | the first line is the root's label and there is exactly one line per node of the tree |
| CliTree.RenderSubTree | cmd/hortator/cmd/tree.go:131-150 | every line printed for a subtree starts with the prefix it was given |
| CliTree.RenderChildren | cmd/hortator/cmd/tree.go:132-149 | every line printed for the remaining children starts with the prefix |
| CliTree.RenderSubTreeSize | cmd/hortator/cmd/tree.go:131-150 | a subtree prints one line per descendant |
| CliTree.RenderChildrenSize | cmd/hortator/cmd/tree.go:132-149 | the remaining children print one line per node below them |
| CliRoles.HasAllToolsBySet | cmd/hortator/cmd/roles.go:258-269 | only the set of a role's tools matters, not their order or repetition |
| CliRoles.HasAllToolsEmpty | cmd/hortator/cmd/roles.go:258-269 | an empty requirement is met by every role |
| CliRoles.HasAllToolsAppend | cmd/hortator/cmd/roles.go:258-269 | a requirement split in two parts is met exactly when both parts are |
| CliRoles.FilterByCapability | cmd/hortator/cmd/roles.go:129-139 | an empty flag keeps every entry; otherwise an entry is kept if and only if it has all the comma-separated tools |
| CliRoles.KeepWithTools | cmd/hortator/cmd/roles.go:131-137 | an entry is kept if and only if it meets the requirement |
| CliRoles.KeepWithToolsAppend | cmd/hortator/cmd/roles.go:131-137 | the filter keeps the entries' relative order: it distributes over concatenation |
| SseStream.Payloads | sdk/python/hortator/_streaming.py:13-18 | no collected payload is the end marker, and there are no more payloads than lines |
| SseStream.DecodeAll | sdk/python/hortator/_streaming.py:18 | every event is the decoding of the payload at its position; decoding stops at the first payload that fails, whose error is reported |
| SseStream.IterSseEvents | sdk/python/hortator/_streaming.py:11-28 | no more events than lines |
| SseStream.IterMatchesPayloads | sdk/python/hortator/_streaming.py:11-28 | reading line by line equals collecting the data payloads up to `[DONE]`, then decoding them in order |
| SseStream.NonDataIgnored | sdk/python/hortator/_streaming.py:14 | a line without the "data: " prefix changes nothing, wherever it appears |
| SseStream.DoneEndsStream | sdk/python/hortator/_streaming.py:16-17 | nothing after a `[DONE]` line is read |
| SseStream.NoDataNoEvents | sdk/python/hortator/_streaming.py:13-18 | input without data lines yields no events and no error |
| RateLimit.Pruned | internal/gateway/ratelimit.go:71-78 | exactly the timestamps strictly after the cutoff are kept, each one from the input |
| RateLimit.PrunedSnoc | internal/gateway/ratelimit.go:72-77 | pruning keeps the order of the timestamps |
| RateLimit.PrunedIdempotent | internal/gateway/ratelimit.go:71-78 | pruning twice with the same cutoff is pruning once |
| RateLimit.Window | internal/gateway/ratelimit.go:62-78 | a client's window holds exactly its timestamps newer than a minute before now; a new client's window is empty |
| RateLimit.RateLimiter.constructor | internal/gateway/ratelimit.go:32-38 | no client windows, the given limit |
| RateLimit.RateLimiter.Allow | internal/gateway/ratelimit.go:54-86 | a limit of zero or less admits everything and changes nothing; otherwise the request is admitted if and only if the pruned window holds fewer than the limit, the client's window becomes the pruned one plus the admitted request's time, and no other client changes; no window ever exceeds the limit |
| RateLimit.PruneWindow | internal/gateway/ratelimit.go:71-78 | the loop's result is the pruned window |
| RateLimit.AllowMaybeNil | internal/gateway/ratelimit.go:55-86 | a nil limiter admits every request; a real one decides and records exactly as `Allow` does |
| RateLimit.DefaultLimit | internal/gateway/ratelimit.go:42-50 | the variable's value when it parses as a positive integer, otherwise 10; always positive |
| RateLimit.ClientKey | internal/gateway/ratelimit.go:90-102 | "token:" plus the Bearer token, else "ip:" plus the trimmed first X-Forwarded-For entry, else "ip:" plus the remote address |
| RateLimit.ClientKeySeparates | internal/gateway/ratelimit.go:90-102 | token keys never equal address keys, and two Bearer requests share a key exactly when their tokens are equal |
| ToolExecutor.Failure | runtime/agentic/tool_executor.py:39-41 | a failure result: "success" is false and "error" carries the message |
| ToolExecutor.WritableIsReadable | runtime/agentic/tool_executor.py:307-308 | every path under a write prefix is also under a read prefix |
| ToolExecutor.HeadTail | runtime/agentic/tool_executor.py:331-332 | text within the limit is kept; longer text becomes its first and last `keep` characters around the truncation marker |
| ToolExecutor.PolicyEntries | runtime/agentic/tool_executor.py:232-233 | the comma-separated entries, stripped, with no empty entry |
| ToolExecutor.TrimmedNonEmpty | runtime/agentic/tool_executor.py:232-233 | no entry is empty |
| ToolExecutor.NoEntriesWhenUnset | runtime/agentic/tool_executor.py:232-233 | an unset variable yields no entries |
| ToolExecutor.BaseCommandsOf | runtime/agentic/tool_executor.py:236-243 | no base command is empty |
| ToolExecutor.CheckShellCommandPolicy | runtime/agentic/tool_executor.py:221-255 | the loops return the policy verdict: None when nothing is set, else the first base command's rejection |
| ToolExecutor.CollectBaseCommands | runtime/agentic/tool_executor.py:236-243 | the loop collects the first word of every non-blank pipe-separated segment, in order |
| ToolExecutor.CheckBases | runtime/agentic/tool_executor.py:245-255 | the nested loops return the first violation in base-command order |
| ToolExecutor.DeniedEntryMatches | runtime/agentic/tool_executor.py:251-253 | a hit if and only if some deny entry prefixes the stripped command or equals the base command |
| ToolExecutor.FirstViolationNoneIff | runtime/agentic/tool_executor.py:245-255 | no violation if and only if every base command is admitted by both lists |
| ToolExecutor.FirstViolationNamesBase | runtime/agentic/tool_executor.py:247-253 | a rejection names a base command that is missing from a non-empty allow-list or matches a deny entry |
| ToolExecutor.PolicyAllowsIff | runtime/agentic/tool_executor.py:221-255 | a command is allowed if and only if each of its base commands is admitted |
| ToolExecutor.SplitIsBlank | runtime/agentic/tool_executor.py:266-270 | splitting yields `['']` exactly for the empty variable |
| ToolExecutor.ShellGateIff | runtime/agentic/tool_executor.py:265-271 | run_shell's own gate admits exactly when the first word is a raw allowed entry (if any) and no raw denied entry |
| ToolExecutor.RunShell | runtime/agentic/tool_executor.py:258-302 | never touches the files and always reports a well-formed result |
| ToolExecutor.ShellOutcome | runtime/agentic/tool_executor.py:273-302 | a finished process succeeds exactly when its exit code is 0 |
| ToolExecutor.RunShellRejectsBeforeRunning | runtime/agentic/tool_executor.py:265-271 | a command the gate rejects fails without the process runner being consulted |
| ToolExecutor.ShellGateMissesPipedCommand | runtime/agentic/tool_executor.py:221-271 | run_shell's gate admits the piped command "a, pipe, b" with only `a` allowed, although the pipe-aware policy rejects `b` |
| ToolExecutor.GatePassesFirstWord | runtime/agentic/tool_executor.py:265-269 | a command whose first word is the single allowed entry passes the gate |
| ToolExecutor.PipedVerdict | runtime/agentic/tool_executor.py:245-248 | with only `a` allowed, a command with bases `a` then `b` is refused for `b` |
| ToolExecutor.TwoBaseVerdict | runtime/agentic/tool_executor.py:245-248 | the second base command is refused when only the first is allowed |
| ToolExecutor.PipedCommandHead | runtime/agentic/tool_executor.py:265 | the piped command "a, pipe, b" is its own stripped form and its first word is `a` |
| ToolExecutor.WordEntries | runtime/agentic/tool_executor.py:232 | a single word is its own allow-list |
| ToolExecutor.PipedCommandBases | runtime/agentic/tool_executor.py:236-243 | the base commands of the piped command "a, pipe, b" are `a` and `b` |
| ToolExecutor.ReadFile | runtime/agentic/tool_executor.py:311-334 | the read with the prefix test also applied to the resolved path: never changes the files; a successful read returns the text of a file whose resolved path lies under a read prefix |
| ToolExecutor.WriteFile | runtime/agentic/tool_executor.py:337-355 | the write with the prefix test also applied to the resolved path: a changed filesystem differs only at the resolved path, which lies under a write prefix |
| ToolExecutor.SpawnCommandShape | runtime/agentic/tool_executor.py:52-65 | the command starts with the prompt and parent flags, ends with `-o json`, has `--wait` just before when waiting, and two more words per truthy role, tier and capabilities |
| ToolExecutor.SpawnTask | runtime/agentic/tool_executor.py:46-89 | never changes the files; the result is well-formed |
| ToolExecutor.CheckStatus | runtime/agentic/tool_executor.py:92-116 | never changes the files; the result is well-formed |
| ToolExecutor.GetResult | runtime/agentic/tool_executor.py:119-143 | never changes the files; the result is well-formed |
| ToolExecutor.CancelTask | runtime/agentic/tool_executor.py:146-160 | never changes the files; the result is well-formed |
| ToolExecutor.CheckpointAndWait | runtime/agentic/tool_executor.py:165-176 | a success carrying the checkpoint flag and the summary argument |
| ToolExecutor.ListRoles | runtime/agentic/tool_executor.py:181-195 | never changes the files; the result is well-formed |
| ToolExecutor.DescribeRole | runtime/agentic/tool_executor.py:198-216 | never changes the files; the result is well-formed |
| ToolExecutor.Handle | runtime/agentic/tool_executor.py:17-39 | every returned result is well-formed, and only write_file changes the files, at the resolved path, which lies under a write prefix |
| ToolExecutor.ExecuteTool | runtime/agentic/tool_executor.py:14-41 | total: every result has a boolean "success"; an unknown name fails with "Unknown tool: name" and no change; only write_file changes the files, at the resolved path, which lies under a write prefix |
| ToolExecutor.ReadDeniedBeforeAccess | runtime/agentic/tool_executor.py:311-319 | a read outside the five prefixes is refused with the same message whatever the filesystem holds |
| ToolExecutor.ReadReturnsContent | runtime/agentic/tool_executor.py:311-334 | a path that resolves outside the read prefixes is denied; a missing file reports "File not found"; an existing one returns the text of the resolved file, head and tail kept beyond 50000 characters |
| ToolExecutor.WriteStoresContent | runtime/agentic/tool_executor.py:337-355 | a write whose resolved path stays under a write prefix stores the content there and reports its length; otherwise it is denied and nothing changes |
| ToolExecutor.WriteThenRead | runtime/agentic/tool_executor.py:311-355 | any spelling of a written file reads back the written text (head and tail beyond 50000 characters) |
| ToolExecutor.ToolWritesConfined | runtime/agentic/tool_executor.py:14-41 | no tool call removes a file, and every file that differs after it sits at a resolved path under a write prefix |
| ToolExecutor.RejectedEmpty | runtime/agentic/tool_executor.py:260-262 | an empty command fails with "command is required" and changes nothing |
| ToolExecutor.RejectedByGate | runtime/agentic/tool_executor.py:264-271 | a command the gate rejects fails with the gate's message and changes nothing |
| ToolExecutor.Resolve | runtime/agentic/tool_executor.py:321-324 | the file `open` reaches for an absolute path: `.`, `..` and repeated slashes resolved, never above the root; always absolute |
| ToolExecutor.Walk | runtime/agentic/tool_executor.py:321-324 | following segments from a directory only ever yields entry names (no empty, `.` or `..` segment is left) |
| ToolExecutor.WalkNames | runtime/agentic/tool_executor.py:321-324 | a path made only of entry names resolves by going down through exactly those names |
| ToolExecutor.ResolveIdempotent | runtime/agentic/tool_executor.py:321-324 | a resolved path resolves to itself |
| ToolExecutor.ClimbOut | runtime/agentic/tool_executor.py:344-350 | "/a/../b/c" resolves to "/b/c": the `..` cancels the entered directory |
| ToolExecutor.ReadFileAsWritten | runtime/agentic/tool_executor.py:311-334 | never changes the files; a successful read had its path, as given, under a read prefix and returns the text of the file the path resolves to, cut to head and tail |
| ToolExecutor.WriteFileAsWritten | runtime/agentic/tool_executor.py:337-355 | a changed filesystem differs only at the file the path resolves to, and only the path as given was tested against the write prefixes |
| ToolExecutor.TraversalWriteEscapes | runtime/agentic/tool_executor.py:344-355 | as written, "/a/../b/c" with "/a/" a write prefix passes the test and writes "/b/c", which is under no write prefix; the corrected write refuses it and changes nothing |
| ToolExecutor.TraversalReadEscapes | runtime/agentic/tool_executor.py:317-334 | as written, "/a/../b/c" with "/a/" a read prefix returns the text of "/b/c", which is under no read prefix; the corrected read refuses it |
| ToolExecutor.EtcEscapes | runtime/agentic/tool_executor.py:307-308 | "/workspace/../etc/x" and "/inbox/../etc/passwd" meet those conditions: the entered directory is a prefix, the reached file lies under none |
| ToolExecutor.SpawnAsyncIsNotWait | runtime/agentic/tool_executor.py:61-89 | a successful spawn reports async exactly when it did not wait |
| ToolExecutor.Sandbox.constructor | runtime/agentic/tool_executor.py:307-308 | the sandbox starts with the given files |
| ToolExecutor.Sandbox.Execute | runtime/agentic/tool_executor.py:14-41 | the result and the new files are those of executing the tool on the old files |
| Tools.ParamSchema | runtime/agentic/tools.py:40-66 | a parameter's schema carries its JSON type, and an "enum" entry exactly when it has choices, listing them |
| Tools.Properties | runtime/agentic/tools.py:38-67 | the "properties" object has a key exactly for each parameter name |
| Tools.Schema | runtime/agentic/tools.py:33-72 | a function-calling object: type "function", the tool's name, its required list and its properties |
| Tools.Definition | runtime/agentic/tools.py:33-207 | each tool definition carries that tool's name |
| Tools.SpawnTaskTool | runtime/agentic/tools.py:33-72 | spawn_task takes prompt, role, tier, capabilities and wait, requires only the prompt, and restricts the tier to centurion or legionary |
| Tools.Catalog | runtime/agentic/tools.py:13-26 | two file tools, four task tools with "spawn", one shell tool with "shell"; a tool is offered if and only if its capability is granted |
| Tools.Schemas | runtime/agentic/tools.py:9-28 | one schema per offered tool |
| Tools.SchemasAppend | runtime/agentic/tools.py:14-26 | appending a tool appends its schema |
| Tools.Offer | runtime/agentic/tools.py:14-26 | one `append` adds the tool's schema to the list built so far |
| Tools.BuildTools | runtime/agentic/tools.py:9-28 | the list built is the schemas of the catalogue for the capabilities, in catalogue order |
| Tools.NamesDistinct | runtime/agentic/tools.py:33-207 | different tools have different names |
| Tools.CatalogNamesUnique | runtime/agentic/tools.py:9-28 | no tool name is offered twice |
| Tools.HiddenToolsNeverOffered | runtime/agentic/tools.py:9-28 | checkpoint_and_wait, list_roles and describe_role are never offered to the model |
| Tools.CatalogOrder | runtime/agentic/tools.py:13-26 | read_file then write_file first, then spawn_task, check_status, get_result, cancel_task with "spawn", and run_shell last with "shell" |
| Tools.PropertiesLookup | runtime/agentic/tools.py:38-67 | a parameter no later parameter renames is found under its name with its own schema |
| Tools.SpawnTaskSchema | runtime/agentic/tools.py:52-69 | the rendered spawn_task schema requires only "prompt" and its tier enum is ["centurion", "legionary"] |
| Prompt.RenderAll | runtime/agentic/prompt.py:58 | one rendered line per piece, in order |
| Prompt.SectionTextEmpty | runtime/agentic/prompt.py:58 | a headed section renders to "" exactly when it has no lines, so dropping empty texts drops exactly the absent sections |
| Prompt.FocusedIffNotSpawner | runtime/agentic/prompt.py:39-40 | focused is exactly not a spawner; a legionary is never a spawner |
| Prompt.IdentitySection | runtime/agentic/prompt.py:61-83 | always present and headed |
| Prompt.ThousandsDigits | runtime/agentic/prompt.py:98 | removing the commas from a grouped number gives its plain decimal form |
| Prompt.ConstraintsSection | runtime/agentic/prompt.py:86-106 | headed whenever present |
| Prompt.FilesystemSection | runtime/agentic/prompt.py:109-121 | always present and headed |
| Prompt.SafetySection | runtime/agentic/prompt.py:124-131 | always present and headed |
| Prompt.ToolNamed | runtime/agentic/prompt.py:136-144 | a recognised name maps to the tool of that name |
| Prompt.ToolLines | runtime/agentic/prompt.py:147-149 | one line per tool name, in order |
| Prompt.ToolSection | runtime/agentic/prompt.py:134-154 | always present and headed |
| Prompt.RoleLines | runtime/agentic/prompt.py:157-195 | one line per available role, in order |
| Prompt.DelegationSection | runtime/agentic/prompt.py:157-195 | present and headed whenever it is built |
| Prompt.ExitCriteriaSection | runtime/agentic/prompt.py:198-207 | absent exactly when there are no exit criteria |
| Prompt.IterationSection | runtime/agentic/prompt.py:210-234 | absent exactly when the task has at most one iteration |
| Prompt.Bullets | runtime/agentic/prompt.py:253-259 | each item becomes "- item", in order |
| Prompt.RoleContextSection | runtime/agentic/prompt.py:237-261 | headed whenever present |
| Prompt.RulesSection | runtime/agentic/prompt.py:264-286 | always present and headed |
| Prompt.InOrder | runtime/agentic/prompt.py:42-56 | the ten sections of the list |
| Prompt.Sections | runtime/agentic/prompt.py:42-56 | every section is headed; delegation only for spawners, iteration only for the full prompt |
| Prompt.SectionTexts | runtime/agentic/prompt.py:42-58 | one text per section, in order |
| Prompt.NonEmpty | runtime/agentic/prompt.py:58 | exactly the non-empty texts are kept |
| Prompt.Present | runtime/agentic/prompt.py:58 | exactly the sections with lines are kept |
| Prompt.NonEmptyIsPresent | runtime/agentic/prompt.py:58 | dropping the empty texts is dropping the absent sections, order kept |
| Prompt.PromptIsPresentSections | runtime/agentic/prompt.py:42-58 | the prompt is the present sections' texts, in listed order, joined by newlines |
| Prompt.PresentEndsWithLast | runtime/agentic/prompt.py:58 | when the last section is present it is the last present one |
| Prompt.RulesLastInLayout | runtime/agentic/prompt.py:42-58 | with the rules present, the last present section is the rules |
| Prompt.SectionOrder | runtime/agentic/prompt.py:42-56 | identity, constraints, filesystem, safety, tools, delegation, iteration, exit criteria, role context, rules: the rules section is listed once, last |
| Prompt.PromptEndsWithRules | runtime/agentic/prompt.py:51-58 | the prompt ends with the rules section's text |
| Prompt.RulesLast | runtime/agentic/prompt.py:21-58 | every prompt's last section is the rules section and the prompt ends with its text |
| Prompt.AlwaysPresent | runtime/agentic/prompt.py:42-56 | identity, filesystem, safety, tools and rules are in every prompt |
| Prompt.DelegationIffSpawner | runtime/agentic/prompt.py:39-48 | the delegation section is there exactly for spawners |
| Prompt.IterationIffFullAndIterating | runtime/agentic/prompt.py:40-49 | the iteration section is there exactly for a non-focused agent with more than one iteration |
| Prompt.ConstraintsEmptyIff | runtime/agentic/prompt.py:94-105 | the constraints section is absent exactly when no budget, token limit or timeout is set and there is at most one iteration |
| Prompt.ConstraintLines | runtime/agentic/prompt.py:97-101 | a set timeout gets its minutes line, a set token limit its comma-grouped line |
| Prompt.TimeoutMinutes | runtime/agentic/prompt.py:99-101 | the timeout is shown as the seconds floor-divided by 60, negatives included |
| Prompt.ToolSectionNoInbox | runtime/agentic/prompt.py:134-154 | the tool section never points at /inbox/ |
| Prompt.ConstraintsNoInbox | runtime/agentic/prompt.py:86-106 | the constraints section never points at /inbox/ |
| Prompt.DelegationNoInbox | runtime/agentic/prompt.py:157-195 | the delegation section never points at /inbox/ |
| Prompt.RoleContextNoInbox | runtime/agentic/prompt.py:237-261 | the role context never points at /inbox/ |
| Prompt.InboxPhrasesPlaced | runtime/agentic/prompt.py:42-56 | only the filesystem and iteration sections can point at /inbox/ |
| Prompt.InboxOnlyForSpawners | runtime/agentic/prompt.py:39-49 | a prompt that points at /inbox/ belongs to a spawner |
| Prompt.InboxLineIffSpawner | runtime/agentic/prompt.py:117-120 | the filesystem section lists the inbox exactly for spawners |
| Prompt.RoleContextEmptyIff | runtime/agentic/prompt.py:244-245 | the role context is absent exactly when there is no description, rule or anti-pattern |
| Prompt.RoleRulesListed | runtime/agentic/prompt.py:251-259 | every rule and anti-pattern appears as a bullet |
| Prompt.ToolsListed | runtime/agentic/prompt.py:136-149 | every tool name gets its line, with its own description for the seven known tools and the fallback otherwise |
| RuntimeMain.ChildResults | runtime/agentic/main.py:128-142 | no directory gives no results; otherwise at most one result per listed file |
| RuntimeMain.KeptResults | runtime/agentic/main.py:133-141 | at most one result per listed file |
| RuntimeMain.KeptResultsMembers | runtime/agentic/main.py:133-141 | a child's result is kept exactly when a readable file named after it with the ".json" suffix is listed |
| RuntimeMain.LoadChildResults | runtime/agentic/main.py:128-142 | the loop yields the kept results of the listing, in listing order |
| RuntimeMain.PlanPart | runtime/agentic/main.py:263-267 | one plan line exactly when the checkpoint's plan is truthy |
| RuntimeMain.DecisionLines | runtime/agentic/main.py:270-271 | one "- d" line per decision, in order |
| RuntimeMain.DecisionsPart | runtime/agentic/main.py:269-271 | one decisions block exactly when the checkpoint's decisions are truthy |
| RuntimeMain.ContextPart | runtime/agentic/main.py:273-274 | one context block exactly when the accumulated context is truthy |
| RuntimeMain.ChildSummary | runtime/agentic/main.py:281 | a child's summary, else its output, else "No output" |
| RuntimeMain.ChildBlocks | runtime/agentic/main.py:279-282 | one block per child result, in order |
| RuntimeMain.ChildrenPart | runtime/agentic/main.py:277-282 | present exactly when there are child results: the heading, then one block per child |
| RuntimeMain.CompletedLines | runtime/agentic/main.py:287-288 | one line per completed child, in order |
| RuntimeMain.CompletedPart | runtime/agentic/main.py:285-288 | present exactly when the checkpoint lists completed children: the heading, then one line per child |
| RuntimeMain.LineTexts | runtime/agentic/main.py:291 | the texts of the lines, in order |
| RuntimeMain.ResumeFrame | runtime/agentic/main.py:261-291 | the resume text opens with the resuming header and closes with the instruction to continue |
| RuntimeMain.ResumeLineCount | runtime/agentic/main.py:259-291 | header and footer, one line per truthy plan, decisions and context, and a heading plus one line per child result and per completed child when there are any |
| RuntimeMain.WithinHas | runtime/agentic/main.py:259-291 | a part confined to one section holds a line of a section exactly when it is non-empty and that section is its own |
| RuntimeMain.SectionOfConcat | runtime/agentic/main.py:259-291 | a section occurs in joined parts exactly when it occurs in one of them |
| RuntimeMain.SectionsIffPresent | runtime/agentic/main.py:263-288 | each optional section appears exactly when its source is there |
| RuntimeMain.AppendPart | runtime/agentic/main.py:259-291 | appending a part of a section no earlier than all previous lines keeps the order |
| RuntimeMain.OrderedParts | runtime/agentic/main.py:259-291 | seven parts in their sections' order form ordered lines |
| RuntimeMain.SectionsInOrder | runtime/agentic/main.py:259-291 | plan, decisions, context, child results, completed children always come in that order, between header and footer |
| RuntimeMain.ChildrenAllListed | runtime/agentic/main.py:277-288 | every child result has its block and every completed child its line |
| RuntimeMain.TaskId | runtime/agentic/main.py:157 | the task's own id when truthy, else a non-empty HORTATOR_TASK_NAME, else the first 40 characters of a text prompt (all of it when shorter), and "unknown" with no prompt |
| RuntimeMain.StartUp | runtime/agentic/main.py:147-165 | a missing task.json dies under "unknown"; a present one dies exactly when its prompt is empty, and then under the task id |
| RuntimeMain.InitialMessages | runtime/agentic/main.py:208-216 | two turns: the system prompt, then as the user the resume text when a non-empty checkpoint was loaded and the prompt otherwise |
| RuntimeMain.StartUpOutcomes | runtime/agentic/main.py:157-217 | an empty prompt dies with "Empty prompt in task.json"; otherwise the conversation opens with the system prompt, then the resume text when a checkpoint was loaded and the prompt otherwise, under HORTATOR_TASK_NAME when that is set and under the task id when it is not |
| RuntimeMain.LoadedCheckpointIsNonEmpty | runtime/agentic/main.py:192-213 | a loaded checkpoint holds its version, so it is truthy and selects the resume text |
| RuntimeMain.LoopKeepsFirstTurns | runtime/agentic/main.py:210-229 | the loop's conversation always starts with the two turns start-up built |
| RuntimeMain.WriteResult | runtime/agentic/main.py:71-90 | result.json (indented) and usage.json are overwritten with the given status, summary, counts, duration and artifacts; nothing else changes |
| RuntimeMain.Die | runtime/agentic/main.py:52-68 | a failed result with no tokens, no artifacts and zero duration, and exit status 1 |
| RuntimeMain.ResultAndUsageAgree | runtime/agentic/main.py:54-90 | the usage file's counts are result.json's and its total is their sum; a death reports zero |
| RuntimeMain.Finish | runtime/agentic/main.py:232-240 | the loop's status, output, token counts and artifacts are written under the task's name |
| AgentLoop.Conversation.constructor | runtime/agentic/loop.py:36-45 | the conversation starts with the given messages |
| AgentLoop.Start | runtime/agentic/loop.py:36-55 | the run starts on the given conversation and files with no tokens, no model calls, no children and no artifacts, so pending children are among the spawned ones |
| AgentLoop.BudgetLimit | runtime/agentic/loop.py:57-79 | an integer limit counts when non-zero; a missing key sets no limit; a set limit is never zero |
| AgentLoop.ContextOf | runtime/agentic/loop.py:227 | a message contributes at most 500 characters |
| AgentLoop.ContextsAppend | runtime/agentic/loop.py:225-227 | contexts of a joined conversation are the joined contexts |
| AgentLoop.ContextsBounded | runtime/agentic/loop.py:227 | every context is at most 500 characters |
| AgentLoop.Accumulated | runtime/agentic/loop.py:224-229 | the latest three contexts, oldest first, or all of them when there are fewer |
| AgentLoop.CollectAccumulated | runtime/agentic/loop.py:224-229 | the backwards loop with front insertion and early stop yields the accumulated contexts |
| AgentLoop.NotPending | runtime/agentic/loop.py:237 | exactly the spawned children that are not pending |
| AgentLoop.ChildEntries | runtime/agentic/loop.py:235-241 | one name and status entry per child, in order |
| AgentLoop.ChildEntriesMembers | runtime/agentic/loop.py:235-241 | a child is listed exactly when it is among the children given |
| AgentLoop.AccumulatedBounded | runtime/agentic/loop.py:224-229 | at most three texts of at most 500 characters each |
| AgentLoop.WaitingStateContents | runtime/agentic/loop.py:231-244 | version 1, phase "waiting", the task id, a child Completed exactly when spawned and not pending, every pending child Running |
| AgentLoop.WaitingDictFields | runtime/agentic/loop.py:231-244 | the saved dictionary holds version 1, the task id, phase "waiting", the completed and pending lists and no decisions |
| AgentLoop.SaveWaitingCheckpoint | runtime/agentic/loop.py:214-244 | the state file then holds the waiting state; nothing else changes |
| AgentLoop.ToolMessage | runtime/agentic/loop.py:173-177 | a tool turn answering the call's id |
| AgentLoop.Record | runtime/agentic/loop.py:158-177 | counters unchanged; the tool turn appended; a child is noted only after a successful spawn_task, and pending only when the spawn was asynchronous; an artifact only after a successful write_file under the artifacts prefix |
| AgentLoop.ToolSteps | runtime/agentic/loop.py:147-179 | one appended message per call after the earlier messages, token totals unchanged; children and artifacts only grow |
| AgentLoop.ToolTurnsAnswer | runtime/agentic/loop.py:172-177 | the message appended for each call is a tool turn carrying that call's id, in request order |
| AgentLoop.ToolStepsKeepPendingSpawned | runtime/agentic/loop.py:158-164 | pending children stay among the spawned ones through the tool calls |
| AgentLoop.StepGrows | runtime/agentic/loop.py:64-199 | one iteration only grows what the loop collects and calls the model at most once, exactly once when the loop goes on |
| AgentLoop.StepReports | runtime/agentic/loop.py:71-199 | a finished iteration reports the token totals and is completed, failed or budget_exceeded |
| AgentLoop.StepKeepsPendingSpawned | runtime/agentic/loop.py:64-199 | pending children stay among the spawned ones through an iteration |
| AgentLoop.GrowsTrans | runtime/agentic/loop.py:64-211 | growth composes across iterations |
| AgentLoop.RunUnfold | runtime/agentic/loop.py:64 | the run ends when an iteration finishes and otherwise continues with the next |
| AgentLoop.RunGrows | runtime/agentic/loop.py:64-211 | through a whole run the conversation and everything collected only grow |
| AgentLoop.RunCallsBounded | runtime/agentic/loop.py:22-64 | the model is called at most 200 times |
| AgentLoop.RunReports | runtime/agentic/loop.py:64-211 | the result reports the final token totals and is completed, failed or budget_exceeded, never waiting |
| AgentLoop.RunKeepsPendingSpawned | runtime/agentic/loop.py:158-164 | pending children are always among the spawned ones |
| AgentLoop.BudgetExceededMeansReached | runtime/agentic/loop.py:79-90 | a budget_exceeded result had a limit and used at least that many tokens |
| AgentLoop.KilledSavesAndFails | runtime/agentic/loop.py:65-76 | a kill saves the waiting checkpoint and fails without calling the model |
| AgentLoop.ModelFailureWritesNothing | runtime/agentic/loop.py:111-117 | a failed model call ends the run as failed and no checkpoint is written |
| AgentLoop.BadBudgetTextIsNoLimit | runtime/agentic/loop.py:58-62 | a text budget that `int()` cannot read sets no limit |
| AgentLoop.DispatchToolCalls | runtime/agentic/loop.py:147-179 | the loop over the calls ends with the state `ToolSteps` gives |
| AgentLoop.HandleReply | runtime/agentic/loop.py:102-199 | the model call and its handling end as `AfterReply` says |
| AgentLoop.Iterate | runtime/agentic/loop.py:64-199 | one iteration ends as `Step` says |
| AgentLoop.StepKilled | runtime/agentic/loop.py:65-76 | a kill ends the iteration as failed with "Task killed by SIGTERM", the totals so far, and the waiting checkpoint saved |
| AgentLoop.StepOverLimit | runtime/agentic/loop.py:79-90 | at or over the token budget the iteration ends as budget_exceeded with the budget message, the totals so far, and the waiting checkpoint saved |
| AgentLoop.StepReplies | runtime/agentic/loop.py:64-90 | with no kill and the budget not reached the iteration is the model call |
| AgentLoop.StepOverBudget | runtime/agentic/loop.py:79-90 | an iteration that ends as budget_exceeded had a limit and used at least that many tokens |
| AgentLoop.RunAtLimit | runtime/agentic/loop.py:201-211 | after the last iteration the run fails with "Iteration limit reached (200)" and saves the waiting checkpoint |
| AgentLoop.LimitReports | runtime/agentic/loop.py:201-211 | at the iteration limit the result is failed, lists no pending children and reports the totals |
| AgentLoop.StopAtLimit | runtime/agentic/loop.py:201-211 | the exhausted loop saves the waiting checkpoint and fails as `Run` says |
| AgentLoop.AgenticLoop | runtime/agentic/loop.py:36-211 | the result, the caller's conversation and the files end as `Run` from the initial state says |
| Checkpoint.Disk.constructor | runtime/agentic/checkpoint.py:12-40 | the disk holds the given files |
| Checkpoint.LoadCheckpoint | runtime/agentic/checkpoint.py:12-28 | the stored object exactly when the file exists, is readable, holds a JSON object and its version is 1; otherwise None |
| Checkpoint.WithVersion | runtime/agentic/checkpoint.py:33 | a version is always there; an existing one is kept and a missing one becomes 1 |
| Checkpoint.SavedFiles | runtime/agentic/checkpoint.py:31-40 | after a successful write the state file holds the dumped state; other files are untouched; a failed write changes nothing |
| Checkpoint.SaveCheckpoint | runtime/agentic/checkpoint.py:31-40 | the caller's dict gains a default version and the files change as `SavedFiles` says |
| Checkpoint.SaveThenLoad | runtime/agentic/checkpoint.py:12-40 | a saved state loads back exactly when its version is 1 |
| Checkpoint.UnversionedStateRoundTrips | runtime/agentic/checkpoint.py:12-40 | a state without a version is saved and loaded back with version 1 |
| Checkpoint.ForeignVersionIsRefused | runtime/agentic/checkpoint.py:22-33 | a state saved with version 2 is written unchanged and refused by the next load |
| ControllerHelpers.ParseDurationString | internal/controller/helpers.go:152-164 | Go's own syntax wins; otherwise a whole number of days is accepted, a non-negative multiple of a day; anything else is "invalid duration: s" |
| ControllerHelpers.ParseDays | internal/controller/helpers.go:157-161 | "Nd" means N days |
| ControllerHelpers.LogTail | internal/controller/helpers.go:201-205 | a suffix of the log of at most 16000 characters: the whole log when it fits, exactly 16000 otherwise |
| ControllerHelpers.DigitRun | internal/controller/helpers.go:363 | the maximal run of digits at a position |
| ControllerHelpers.ParseInt64 | internal/controller/helpers.go:366-367 | the decimal value, saturated at the 64-bit maximum as ParseInt returns it on overflow |
| ControllerHelpers.MatchTokensAt | internal/controller/helpers.go:363-364 | a match starts with "Tokens: in=" at its position |
| ControllerHelpers.NoMarkerNoTokens | internal/controller/helpers.go:363-365 | without the marker nothing is extracted |
| ControllerHelpers.DigitRunOf | internal/controller/helpers.go:363 | a run is exactly as long as the digits placed there |
| ControllerHelpers.MatchDigits | internal/controller/helpers.go:363-371 | a usage line built from two digit strings yields their values |
| ControllerHelpers.TokensLine | internal/controller/helpers.go:359-373 | the runtime's usage line yields exactly the two counts it prints |
| ControllerHelpers.ExtractTokenUsage | internal/controller/helpers.go:359-373 | TokensUsed is set from the first usage line; without one the status is unchanged |
| ControllerHelpers.ExtractResultPanics | internal/controller/helpers.go:383-386 | on the output "[hortator-result-begin]\n[hortator-result-end]" the slice bounds are reversed and Go panics |
| ControllerHelpers.ExtractResult | internal/controller/helpers.go:376-389 | without both markers the output is unchanged |
| ControllerHelpers.ExtractResultAgrees | internal/controller/helpers.go:376-389 | the corrected extraction equals the original wherever the original does not panic |
| ControllerHelpers.ExtractResultNoPanic | internal/controller/helpers.go:385-386 | on the panicking input the corrected extraction leaves the output alone |
| ControllerHelpers.NoEarlyEnd | internal/controller/helpers.go:384 | no end marker starts inside the begin marker and a body that, with the begin marker's newline, holds none |
| ControllerHelpers.EndMarkerOneNewline | internal/controller/helpers.go:381 | the end marker holds no newline after its first character, so it cannot overlap itself |
| ControllerHelpers.ExtractBetween | internal/controller/helpers.go:383-387 | the text between the markers comes out trimmed, multi-line text included |
| ControllerHelpers.ExtractResultRoundTrip | internal/controller/helpers.go:376-389 | any body, multi-line or not, written between the markers comes back out, trimmed, unless the end marker already occurs in it |
| ControllerHelpers.ExtractResultInto | internal/controller/helpers.go:376-389 | only the task's output changes, to the extraction |
| ControllerHelpers.AddOnceSpec | internal/controller/helpers.go:228-238 | the child is recorded, nothing is lost, no duplicate is created, and the list grows by at most one at the end |
| ControllerHelpers.WithoutCounts | internal/controller/helpers.go:248-254 | every occurrence of the child goes and everything else keeps its multiplicity |
| ControllerHelpers.WithoutAppend | internal/controller/helpers.go:248-254 | the removal keeps order: it distributes over concatenation |
| ControllerHelpers.WithoutAll | internal/controller/helpers.go:248-254 | a list holding only the child becomes empty |
| ControllerHelpers.WithoutKeeps | internal/controller/helpers.go:248-254 | every other pending child survives |
| ControllerHelpers.WakeIff | internal/controller/helpers.go:256-263 | the parent becomes Pending exactly when it was, or was Waiting on nothing but this child |
| ControllerHelpers.ContainsChild | internal/controller/helpers.go:229-235 | found exactly when the child is listed |
| ControllerHelpers.RemoveChild | internal/controller/helpers.go:248-254 | the loop yields the pending list without the child |
| ControllerHelpers.NotifyParentTask | internal/controller/helpers.go:212-268 | no parent id or a failed lookup changes nothing; otherwise the parent's status becomes the notified status |
| ControllerConfig.EnvOr | internal/controller/helpers.go:53-60 | the variable when set and non-empty, else the fallback |
| ControllerConfig.StrKey | internal/controller/helpers.go:93-119 | a non-empty ConfigMap value replaces the setting; otherwise it is kept |
| ControllerConfig.BoolKey | internal/controller/helpers.go:111-132 | a present flag is true exactly when its value is "true"; an absent one keeps the setting |
| ControllerConfig.IntKey | internal/controller/helpers.go:88-143 | a value applies only when it parses as an integer |
| ControllerConfig.LoadClusterDefaults | internal/controller/helpers.go:45-149 | an unreadable ConfigMap gives the base defaults; a readable one sets each field from its key over the documented default (timeout 600, the image variables or fallbacks, 100m/128Mi/500m/512Mi, flags off, TTL in seconds) and never leaves the warm-pool size at zero; health, budget, storage and cleanup settings are not loaded here |
| ControllerConfig.EmptyConfigMapDefaults | internal/controller/helpers.go:78-149 | an empty ConfigMap gives timeout 600, the image fallbacks, 100m/128Mi requests, 500m/512Mi limits, a disabled warm pool of 2 and no cache; it differs from an unreadable one only in the warm-pool size |
| ControllerConfig.WarmPoolSizeDefault | internal/controller/helpers.go:123-130 | a non-zero parsed size is used, otherwise 2; an unreadable ConfigMap leaves 0 |
| ControllerConfig.DefaultsCache.constructor | internal/controller/agenttask_controller.go:129 | the cache starts with the given TTL and no load time |
| ControllerConfig.DefaultsCache.Ttl | internal/controller/helpers.go:31-34 | a TTL of 0 means 30 seconds |
| ControllerConfig.DefaultsCache.RefreshDefaultsIfStale | internal/controller/helpers.go:30-42 | a fresh cache is kept; a stale one is reloaded and stamped with the current time |
| TaskController.RouteTerminal | internal/controller/agenttask_controller.go:211-238 | terminal handling is reached exactly for the five terminal phases, an empty phase is handled as Pending, and only unknown phases reach the default |
| TaskController.MarkHierarchyAccounted | internal/controller/agenttask_controller.go:224-233 | the hierarchy is charged exactly on the first terminal reconcile, which adds the marker; afterwards the marker is always there |
| TaskController.RetriesBounded | internal/controller/agenttask_controller.go:941-946 | no positive MaxAttempts means no retry; a retry never takes the attempts beyond MaxAttempts |
| TaskController.BackoffBase | internal/controller/agenttask_controller.go:950-955 | 30 seconds, or the spec's positive BackoffSeconds |
| TaskController.BackoffMax | internal/controller/agenttask_controller.go:951-958 | 300 seconds, or the spec's positive MaxBackoffSeconds |
| TaskController.Pow2 | internal/controller/agenttask_controller.go:962-963 | a power of two is at least 1 |
| TaskController.DoubledClosedForm | internal/controller/agenttask_controller.go:961-968 | after k doublings the backoff is the smaller of base times 2^k and the cap |
| TaskController.PowMonotone | internal/controller/agenttask_controller.go:962-963 | doubling never shrinks a positive backoff |
| TaskController.Doublings | internal/controller/agenttask_controller.go:962 | the loop doubles once for each attempt after the first |
| TaskController.BackoffBeforeJitter | internal/controller/agenttask_controller.go:949-968 | the backoff before jitter is positive |
| TaskController.Jittered | internal/controller/agenttask_controller.go:970-974 | within minus a quarter and plus a quarter of the backoff, and at least one second |
| TaskController.DoubledBounds | internal/controller/agenttask_controller.go:961-968 | the backoff stays positive and, once doubled, never exceeds the cap |
| TaskController.ComputeBackoff | internal/controller/agenttask_controller.go:949-976 | the loop's duration is the jittered backoff in seconds, at least one second |
| TaskController.DefaultBackoffSchedule | internal/controller/agenttask_controller.go:949-968 | by default 30s, 60s, 120s, 240s, then 300s for every later attempt |
| TaskController.PowAtLeast16 | internal/controller/agenttask_controller.go:962-966 | four doublings already pass the default cap |
| TaskController.Recorded | internal/controller/agenttask_controller.go:979-994 | one more attempt, and one history record numbered with it, carrying the start, end, exit code and reason; nothing else changes |
| TaskController.RecordedKeepsNumbered | internal/controller/agenttask_controller.go:979-994 | the history stays one record per attempt, numbered from 1 |
| TaskController.RecordAttempt | internal/controller/agenttask_controller.go:979-994 | the status becomes the recorded one; annotations are untouched |
| TaskController.Reincarnated | internal/controller/agenttask_controller.go:1021-1023 | the task is Pending with no pending children |
| TaskController.HandleWaiting | internal/controller/agenttask_controller.go:999-1033 | with pending children all fetched and terminal, the task wakes and is requeued; otherwise nothing changes and it is polled again in 30 seconds |
| TaskController.WakeUpsAgree | internal/controller/helpers.go:256-263 | the last child reporting in and the Waiting poll leave the parent in the same phase, pending list and message |
| TaskController.HandleRetrying | internal/controller/agenttask_controller.go:904-926 | no retry time means Pending at once; a future time waits the remaining time; a due time means Pending with the attempt message and no retry time |
| TaskController.DefaultRetention | internal/controller/agenttask_controller.go:262-273 | the phase's configured TTL, or "1h" when it is empty |
| TaskController.Retention | internal/controller/agenttask_controller.go:275-278 | the retention annotation unless it is empty or "true", else the default |
| TaskController.RetentionDuration | internal/controller/agenttask_controller.go:280-284 | an unparsable retention falls back to the default, and an unparsable default counts as zero |
| TaskController.TtlCleanup | internal/controller/agenttask_controller.go:246-316 | kept exactly when retained or not finished; otherwise waits out the remaining retention, then deletes the task and, unless storage is retained, its volume |
| TaskController.LoadedDefaultsRetainOneHour | internal/controller/agenttask_controller.go:258-273 | with the loaded configuration, a task without its own retention is kept an hour whatever its phase |
| TaskController.InvalidRetentionFallsBack | internal/controller/agenttask_controller.go:280-284 | an unparsable annotation gives the default retention |
| TaskController.IsBudgetExceededResult | internal/controller/agenttask_controller.go:1036-1049 | a reported budget_exceeded status always counts; without a price map or a parsable cost only the report counts |
| TaskController.SucceededOutcome | internal/controller/agenttask_controller.go:685-725 | over budget first, then waiting only for agentic tiers that report waiting, else completed |
| TaskController.Harvested | internal/controller/agenttask_controller.go:671-675 | an existing output is kept; an empty one becomes the extracted result of the log tail |
| TaskController.Priced | internal/controller/agenttask_controller.go:677-682 | only the estimated cost can change |
| TaskController.SucceededStatus | internal/controller/agenttask_controller.go:685-729 | BudgetExceeded, Waiting or Completed by outcome; one attempt recorded; a terminal outcome sets the completion time, waiting clears the pod name |
| TaskController.SucceededKeepsNumbered | internal/controller/agenttask_controller.go:685-729 | every outcome keeps the history numbered |
| TaskController.Harvest | internal/controller/agenttask_controller.go:671-675 | the status becomes the harvested one |
| TaskController.Price | internal/controller/agenttask_controller.go:677-682 | the status becomes the priced one |
| TaskController.Settle | internal/controller/agenttask_controller.go:685-729 | the status becomes the settled one |
| TaskController.HandlePodSucceeded | internal/controller/agenttask_controller.go:668-768 | the settled status of SettleSucceeded, then the follow-ups of FinishSucceeded: a waiting task writes nothing more; an ended one updates its root's hierarchy budget and notifies its parent, and a completed one is stored in the result cache unless it opts out |
| TaskController.SettleSucceeded | internal/controller/agenttask_controller.go:671-729 | harvest, then price, then settle by the outcome of the priced status; the annotations are kept |
| TaskController.FinishSucceeded | internal/controller/agenttask_controller.go:699-768 | Waiting: no root, listing or parent change; otherwise the root and listing are UpdatedRoot/UpdatedListing of the settled task and the parent gets NotifiedStatus; Completed and not opted out: the cache takes the corrected put under CacheKey(prompt, role); else the cache is unchanged |
| TaskController.CachedResult | internal/controller/agenttask_controller.go:740-749 | the cached output and token counts of the status, 0 without a usage line, and an empty model name |
| TaskController.LegionaryNeverWaits | internal/controller/agenttask_controller.go:707 | a non-agentic tier's succeeded pod always ends the task |
| Budget.Candidates | internal/controller/budget.go:129-141 | the names tried for a model: the bare name first, then each litellm provider prefix in its order |
| Budget.FirstHit | internal/controller/budget.go:139-145 | the first candidate with a price, after misses only; none exactly when every candidate misses |
| Budget.Lookup | internal/controller/budget.go:125-146 | an exact name wins; no price exactly when every candidate misses |
| Budget.FirstHitAt | internal/controller/budget.go:139-143 | a hit that only misses precede is the one chosen |
| Budget.LookupPrefix | internal/controller/budget.go:134-143 | a prefixed name is priced when the bare name and every earlier prefix miss |
| Budget.PriceMap.constructor | internal/controller/budget.go:41-49 | an empty map, refreshed every given number of hours, 24 when that is not positive |
| Budget.PriceMap.RefreshIfStale | internal/controller/budget.go:52-62 | a fresh, non-empty map is kept; otherwise a successful fetch replaces it and stamps the time, and a failed one keeps it |
| Budget.PriceMap.GetPricing | internal/controller/budget.go:125-146 | found exactly when the lookup finds a price, which it returns; a zero price otherwise |
| Budget.PriceMap.CalculateCost | internal/controller/budget.go:149-158 | tokens in and out at the model's per-token prices, or the no-pricing error naming the model |
| Budget.PriceMap.CalculateTaskCost | internal/controller/budget.go:163-182 | "" without a usage, a model name or a price; else the formatted cost of the usage |
| Budget.ModelName | internal/controller/budget.go:168-171 | the task's model name, "" without one |
| Budget.IsBudgetExceeded | internal/controller/budget.go:185-207 | false without a budget; true at or over the token cap; otherwise true only for a positive cost at or over a cap that parses |
| Budget.AtTokenCap | internal/controller/budget.go:193-197 | usage exactly at the token cap already counts as exceeded |
| HierarchyBudget.Ancestor | internal/controller/hierarchy_budget.go:24-38 | the task itself is its 0-th ancestor |
| HierarchyBudget.RootWithin | internal/controller/hierarchy_budget.go:24-40 | a root found has no parent; no steps left is the depth error; a task without a parent is its own root |
| HierarchyBudget.FindRootTask | internal/controller/hierarchy_budget.go:24-40 | the loop finds what ten steps of the root walk find |
| HierarchyBudget.AncestorShift | internal/controller/hierarchy_budget.go:30-37 | the parent's ancestors are the task's own, one step further |
| HierarchyBudget.RootIsFirstParentless | internal/controller/hierarchy_budget.go:24-40 | a root is found exactly when a parentless ancestor sits within the depth limit, and it is the first such ancestor |
| HierarchyBudget.AncestorNoneAfter | internal/controller/hierarchy_budget.go:31-36 | past a missing parent there is no ancestor |
| HierarchyBudget.IsHierarchyBudgetExceeded | internal/controller/hierarchy_budget.go:64-88 | a reason exactly when the token or the cost cap is reached; the token reason first, each with its counts |
| HierarchyBudget.CheckHierarchyBudgetExhausted | internal/controller/hierarchy_budget.go:44-60 | "" for a parentless task, a root not found or a root without a hierarchy budget; else the root's verdict |
| HierarchyBudget.AtHierarchyCap | internal/controller/hierarchy_budget.go:71-75 | tokens exactly at the cap exhaust the tree |
| HierarchyBudget.AddUsage | internal/controller/hierarchy_budget.go:112-132 | the task's tokens are added to the root's (zero when absent); a parseable cost is written as the formatted sum of the existing cost and the task's; an empty or unparsable cost leaves the cost; nothing else changes |
| HierarchyBudget.AddUsageCostAdds | internal/controller/hierarchy_budget.go:122-131 | when the formatted sum parses back, the root's counted cost after a report is the cost before plus the task's cost |
| HierarchyBudget.ExistingCost | internal/controller/hierarchy_budget.go:126-129 | an empty or unparsable recorded cost counts as zero |
| HierarchyBudget.AddUsageAdditive | internal/controller/hierarchy_budget.go:116-120 | two reports add both usages to the root's counters |
| HierarchyBudget.AddUsageMonotone | internal/controller/hierarchy_budget.go:116-120 | a report never lowers the root's counters |
| HierarchyBudget.Pass | internal/controller/hierarchy_budget.go:163-169 | a pass never removes a member |
| HierarchyBudget.Grow | internal/controller/hierarchy_budget.go:161-173 | the passes never remove a member |
| HierarchyBudget.TreeMembers | internal/controller/hierarchy_budget.go:159-173 | the root is a member |
| HierarchyBudget.PassWithin | internal/controller/hierarchy_budget.go:163-169 | a pass stays within every child-closed set holding its members |
| HierarchyBudget.GrowWithin | internal/controller/hierarchy_budget.go:161-173 | the passes stay within every child-closed set holding the members |
| HierarchyBudget.PassTakesChildren | internal/controller/hierarchy_budget.go:165-168 | a pass takes in every child of a starting member |
| HierarchyBudget.TreeMembersAreDescendants | internal/controller/hierarchy_budget.go:159-173 | the members lie within every child-closed set that holds the root |
| HierarchyBudget.FixpointClosed | internal/controller/hierarchy_budget.go:170-172 | a pass that changes nothing leaves a child-closed set |
| HierarchyBudget.CancelledTask | internal/controller/hierarchy_budget.go:189-191 | Cancelled, with the budget message and a completion time; nothing else changes |
| HierarchyBudget.CollectMembers | internal/controller/hierarchy_budget.go:159-173 | the loop collects the tree members |
| HierarchyBudget.CancelDescendants | internal/controller/hierarchy_budget.go:148-196 | the listing with each live member other than the root cancelled, everything else unchanged |
| HierarchyBudget.CancelTouchesOnlyLiveDescendants | internal/controller/hierarchy_budget.go:176-187 | the root, a finished task and a task outside the root's descendants are never cancelled |
| HierarchyBudget.UpdateHierarchyBudget | internal/controller/hierarchy_budget.go:92-145 | nothing is written or cancelled outside a hierarchy, without a root or its budget; otherwise the root gets the added usage, and the tree is cancelled exactly when the updated root is exhausted; the results are UpdatedRoot and UpdatedListing |
| HierarchyBudget.UpdatedRoot | internal/controller/hierarchy_budget.go:92-132 | a root is written only when the task is in a hierarchy and its root within the depth limit has a hierarchy budget, and it is that root |
| HierarchyBudget.UpdatedListing | internal/controller/hierarchy_budget.go:140-144 | the listing keeps its length, and is unchanged when no root is written |
| Policy.TierRank | internal/controller/policy.go:21-32 | legionary 1, centurion 2, tribune 3, anything else 0 |
| Policy.TierOrder | internal/controller/policy.go:21-32 | the tiers rank strictly in order, an unknown tier below all |
| Policy.FirstWhere | internal/controller/policy.go:56-60 | the first capability with the asked membership; none exactly when none has it |
| Policy.RunningCount | internal/controller/policy.go:132-137 | at most the number of listed tasks |
| Policy.PolicyViolation | internal/controller/policy.go:47-142 | "" exactly when the policy admits the task by every check; a denied capability is reported first |
| Policy.FirstViolation | internal/controller/policy.go:47-145 | "" exactly when every policy admits; else the violation of the first refusing policy |
| Policy.FirstViolationStep | internal/controller/policy.go:47-143 | the loop stops at a policy's violation, else moves on to the next policy |
| Policy.DenyOverridesAllow | internal/controller/policy.go:50-61 | a capability both denied and allowed is refused as denied |
| Policy.CountRunning | internal/controller/policy.go:132-137 | the loop counts the Running tasks |
| Policy.FindCapability | internal/controller/policy.go:51-74 | the loop finds the first capability with the asked membership |
| Policy.MatchAny | internal/controller/policy.go:82-88 | matched exactly when some allowed pattern matches the image |
| Policy.CheckPolicy | internal/controller/policy.go:48-142 | one iteration reports that policy's violation |
| Policy.BudgetAndLimits | internal/controller/policy.go:94-142 | once the capability and image checks pass, the result is the policy's violation |
| Policy.LimitViolation | internal/controller/policy.go:94-142 | "" exactly when the token, cost, timeout, tier and concurrency limits all hold |
| Policy.FirstBy | internal/controller/policy.go:47-145 | "" exactly when every entry passes; otherwise the verdict of the first entry that fails, all before it passing |
| Policy.EnforcePolicy | internal/controller/policy.go:36-146 | "" when the listing fails, else the first violation in policy order |
| Policy.FirstPos | internal/controller/policy.go:157-173 | the position of the first occurrence |
| Policy.FirstPosSnoc | internal/controller/policy.go:163-166 | appending keeps an earlier first occurrence in place |
| Policy.DedupSpec | internal/controller/policy.go:157-173 | the deduplicated list holds the same commands, each once, in order of first appearance |
| Policy.DedupMembers | internal/controller/policy.go:160-173 | the deduplicated list holds exactly the commands of the input |
| Policy.DedupNoDuplicates | internal/controller/policy.go:160-173 | no command is kept twice |
| Policy.DedupOrder | internal/controller/policy.go:160-173 | the kept commands come in order of their first appearance |
| Policy.AppendUnseen | internal/controller/policy.go:162-173 | appending unseen commands extends the deduplicated list and keeps the seen set equal to it |
| Policy.CollectShellPolicy | internal/controller/policy.go:151-180 | nothing when the listing fails; else the first-seen unions of allowed and denied commands, read-only exactly when some policy asks |
| Knowledge.Annotation | internal/controller/knowledge.go:55 | a missing annotation reads as "" |
| Knowledge.CleanAll | internal/controller/knowledge.go:139-149 | one cleaned entry per comma part |
| Knowledge.NonEmptyMembers | internal/controller/knowledge.go:143-146 | dropping empty parts keeps exactly the non-empty ones, never more than there were |
| Knowledge.CleanAllAt | internal/controller/knowledge.go:142-143 | each part is lowercased and trimmed in its place |
| Knowledge.SplitTags | internal/controller/knowledge.go:139-149 | the loop keeps exactly the non-empty cleaned parts, in order |
| Knowledge.OverlapProperties | internal/controller/knowledge.go:152-160 | the overlap adds up over concatenation, never exceeds the list, and is zero exactly when no PVC tag is a task tag |
| Knowledge.OverlapIsCount | internal/controller/knowledge.go:152-160 | the overlap is the number of positions holding a task tag |
| Knowledge.TagOverlap | internal/controller/knowledge.go:152-160 | the loop counts the PVC tags that are task tags |
| Knowledge.BuildTaskTags | internal/controller/knowledge.go:111-136 | the tags are exactly the lowercased role, its hyphen parts longer than two characters, the lowercased tier and the lowercased capabilities |
| Knowledge.MatchOf | internal/controller/knowledge.go:53-85 | a PVC matches exactly when it is retained, not the task's own, tagged, and shares a tag; the match carries its tags and overlap |
| Knowledge.Matches | internal/controller/knowledge.go:53-86 | every match comes from a listed PVC and has a positive overlap |
| Knowledge.InsertByOverlap | internal/controller/knowledge.go:89-91 | one more entry, the same entries otherwise |
| Knowledge.InsertSorted | internal/controller/knowledge.go:89-91 | inserting keeps the highest overlap first |
| Knowledge.SortByOverlap | internal/controller/knowledge.go:89-91 | sorted by overlap, highest first, and a permutation of the matches |
| Knowledge.ResultLimit | internal/controller/knowledge.go:94-97 | MaxRetainedPerNS when positive, else 5 |
| Knowledge.CollectMatches | internal/controller/knowledge.go:51-86 | the loop collects the matches in listing order |
| Knowledge.TaskTags | internal/controller/knowledge.go:111-136 | exactly the task's tags |
| Knowledge.RoleTags | internal/controller/knowledge.go:114-123 | the lower-cased role and each of its dash-separated parts longer than two characters, and nothing else |
| Knowledge.CapabilityTags | internal/controller/knowledge.go:130-133 | exactly the lower-cased capabilities |
| Knowledge.Discovered | internal/controller/knowledge.go:88-100 | sorted by overlap and as long as the matches or the limit, whichever is less |
| Knowledge.DiscoverRetainedPvcs | internal/controller/knowledge.go:32-108 | nothing when discovery is off, an error when the listing fails, else the sorted matches cut to the limit |
| Knowledge.CutKeepsHighest | internal/controller/knowledge.go:98-100 | cutting a sorted list drops only entries overlapping no more than those it keeps |
| Knowledge.MatchesAreRetained | internal/controller/knowledge.go:55-76 | a match is a retained PVC other than the task's own, sharing a tag |
| Knowledge.PrefixWithin | internal/controller/knowledge.go:98-100 | a cut holds nothing the list does not |
| Knowledge.DiscoveredAreMatches | internal/controller/knowledge.go:88-100 | discovery returns only matches |
| Knowledge.DiscoveryKeepsHighest | internal/controller/knowledge.go:88-100 | a match discovery drops overlaps no more than any it keeps |
| Cache.Normalized | internal/controller/result_cache.go:46-57 | 1000 entries and ten minutes replace values that are not positive |
| Cache.ResultOf | internal/controller/result_cache.go:98-103 | a hit hands back the entry's output, tokens and model |
| Cache.FirstPresent | internal/controller/result_cache.go:137-145 | the first key in the order that still has an entry, after absent keys only |
| Cache.Evict | internal/controller/result_cache.go:136-146 | the order loses everything up to its first present key, whose entry is deleted; with none the order empties |
| Cache.EvictTracked | internal/controller/result_cache.go:136-146 | on a tracked cache one eviction deletes exactly one entry and keeps the rest tracked |
| Cache.SuffixTracked | internal/controller/result_cache.go:136-146 | after dropping the order up to the first present key and deleting that key, the rest stays tracked |
| Cache.Room | internal/controller/result_cache.go:121-123 | the loop ends below capacity, keeps surviving entries unchanged and stays tracked |
| Cache.FirstPresentIsOldest | internal/controller/result_cache.go:136-146 | on an insertion-ordered cache the evicted key is an oldest entry |
| Cache.SuffixKeepsOrdered | internal/controller/result_cache.go:139-141 | dropping an order prefix and an entry keeps insertion order |
| Cache.EvictKeepsOrdered | internal/controller/result_cache.go:136-146 | eviction keeps insertion order |
| Cache.RoomEvictsOldest | internal/controller/result_cache.go:121-123 | on an insertion-ordered cache, what the loop evicts is no newer than anything it keeps |
| Cache.FirstPresentAt | internal/controller/result_cache.go:137-143 | a present key after absent ones only is the one evicted |
| Cache.ResultCache.constructor | internal/controller/result_cache.go:46-57 | an empty cache with the normalised configuration |
| Cache.ResultCache.Len | internal/controller/result_cache.go:149-153 | the number of entries |
| Cache.ResultCache.Get | internal/controller/result_cache.go:77-104 | disabled or unknown misses; older than the TTL deletes the entry (not its order slot) and misses; else the stored result, nothing changed |
| Cache.ResultCache.EvictOldest | internal/controller/result_cache.go:136-146 | the state after one eviction |
| Cache.ResultCache.MakeRoom | internal/controller/result_cache.go:121-123 | the state the eviction loop leaves |
| Cache.ResultCache.Put | internal/controller/result_cache.go:107-133 | disabled or existing keys change nothing; else room is made and the entry stored at the end of the order |
| Cache.StoredEntry | internal/controller/result_cache.go:125-131 | the stored entry returns the result and is stamped with the time |
| Cache.WithoutSubsequence | internal/controller/result_cache.go:132 | removing a key keeps the rest in their order |
| Cache.WithoutMembers | internal/controller/result_cache.go:132 | removing a key keeps only listed keys and drops that key |
| Cache.RepairedPutKeepsOrdered | internal/controller/result_cache.go:125-132 | the repaired Put keeps insertion order when time does not go back |
| Cache.ExpiryKeepsOrdered | internal/controller/result_cache.go:90-95 | expiring an entry keeps insertion order |
| Cache.StaleOrderEvictsNewer | internal/controller/result_cache.go:90-132 | as written: a key expired and stored again is evicted while an older entry stays |
| Cache.ResultCache.PutInOrder | internal/controller/result_cache.go:107-133 | Put with the key's stale place removed from the order before it is appended |
| Cache.RepairedOrderEvictsOldest | internal/controller/result_cache.go:107-146 | the repaired Put, on the same calls, evicts the older entry |
| Cache.CacheKeyInput | internal/controller/result_cache.go:60-66 | role, one separator, then prompt |
| Cache.SeparatorAt | internal/controller/result_cache.go:62-64 | the separator is the first 0 character when the role has none |
| Cache.CacheKeyInputInjective | internal/controller/result_cache.go:60-66 | the hash input determines role and prompt when roles hold no 0 character |
| Cache.CacheKeyCollision | internal/controller/result_cache.go:60-66 | two different role and prompt pairs share a key only when SHA-256 collides on their distinct inputs |
| Cache.ShouldSkipCache | internal/controller/result_cache.go:156-161 | skipped exactly when the no-cache annotation is "true" |
| Webhook.TierRank | internal/webhook/agenttask_webhook.go:32-43 | centurion 1, tribune 2, legionary and anything else 0 |
| Webhook.ParentCapabilities | internal/webhook/agenttask_webhook.go:113-120 | the parent's capabilities, plus "spawn" for tribune and centurion parents |
| Webhook.CapabilityErrors | internal/webhook/agenttask_webhook.go:121-127 | no error exactly when every child capability is the parent's; at most one per capability |
| Webhook.NoErrorsIffAdmissible | internal/webhook/agenttask_webhook.go:47-131 | validation passes exactly when the model, timeout, budget and parent conditions all hold |
| Webhook.OwnFieldChecks | internal/webhook/agenttask_webhook.go:51-84 | the model, timeout and budget checks report nothing exactly when the task's own fields are valid |
| Webhook.ParentLimitChecks | internal/webhook/agenttask_webhook.go:88-112 | the tier and budget checks against the parent report nothing exactly when the child stays within the parent's limits |
| Webhook.NoParentNoForbidden | internal/webhook/agenttask_webhook.go:87-128 | without a parent no parent-relative error appears |
| Webhook.TierChecks | internal/webhook/agenttask_webhook.go:89-92 | equal tiers pass and a tribune under a centurion is forbidden |
| Webhook.CheckCapabilities | internal/webhook/agenttask_webhook.go:121-127 | the loop appends the capability errors |
| Webhook.CollectParentCapabilities | internal/webhook/agenttask_webhook.go:113-120 | the loop collects the parent's capabilities |
| Webhook.ValidateAgentTask | internal/webhook/agenttask_webhook.go:47-131 | the errors of every check, in order, and none exactly when the task is admissible |
| Gateway.ReplaceInvalid | internal/gateway/helpers.go:17-22 | same length, every character outside a-z, 0-9 and "-" replaced by "-" |
| Gateway.TrimLeftDashes | internal/gateway/helpers.go:26 | a suffix of the input that does not start with "-", only dashes dropped |
| Gateway.TrimRightDashes | internal/gateway/helpers.go:26 | a prefix of the input that does not end with "-", only dashes dropped |
| Gateway.TrimDashes | internal/gateway/helpers.go:26 | no leading or trailing dash, never longer, name characters kept |
| Gateway.SanitizeName | internal/gateway/helpers.go:20-27 | only a-z, 0-9 and "-", at most 40 characters, no dash at either end |
| Gateway.SanitizeNameIdempotent | internal/gateway/helpers.go:20-27 | sanitising twice is sanitising once |
| Gateway.SanitizeNameFixes | internal/gateway/helpers.go:20-27 | a name that is already clean is left unchanged |
| Gateway.KeepFirst | internal/gateway/helpers.go:23-25 | a prefix of at most the given length; the whole string when it is short enough |
| Gateway.BuildPrompt | internal/gateway/helpers.go:31-55 | the loop produces the prompt the part lists describe |
| Gateway.PromptOfEmpty | internal/gateway/helpers.go:48-54 | no messages, an empty prompt |
| Gateway.PromptOpensWithSystem | internal/gateway/helpers.go:49-51 | with system texts the prompt opens with the system-context block |
| Gateway.OtherRolesDropped | internal/gateway/helpers.go:37-45 | a message of any other role leaves no trace |
| Gateway.PartsAppend | internal/gateway/helpers.go:35-46 | both part lists keep message order |
| Gateway.ModelBlock | internal/gateway/helpers.go:92-105 | the model name always; endpoint and key reference only when set |
| Gateway.BudgetBlock | internal/gateway/helpers.go:116-125 | each budget field only when set |
| Gateway.TaskSpec | internal/gateway/helpers.go:85-137 | prompt, role and tier always; model, capabilities, budget and the input-file list exactly when given, each with its built value |
| Gateway.SpecFields | internal/gateway/helpers.go:85-137 | prompt, role and tier always; each optional field exactly when it is given, with its value |
| Gateway.TaskMetadata | internal/gateway/helpers.go:143-159 | name, namespace, the source and role labels, and the no-cache annotation exactly when asked |
| Gateway.BuildAgentTask | internal/gateway/helpers.go:84-165 | an AgentTask with that metadata and spec, and no status |
| Gateway.ResourceObject | internal/gateway/helpers.go:84-165 | the object carries the API version, kind, metadata and spec given, and no status |
| Gateway.Strings | internal/gateway/helpers.go:203-209 | no longer than the list; holds exactly the string entries of the list |
| Gateway.StringsSingle | internal/gateway/helpers.go:205-207 | one entry contributes its text when it is a string and nothing otherwise |
| Gateway.StringsAppend | internal/gateway/helpers.go:204-208 | the strings of a joined list are the strings of each part in turn, so the entries keep list order |
| Gateway.ExtractTaskState | internal/gateway/helpers.go:168-218 | no status map reads as Pending with zero values; otherwise phase, output and message are the string fields or "", the token counts come from a tokensUsed map (0 without one), the children are the string entries of a childTasks list ([] otherwise), and startedAt is the parse of a string field (none otherwise); the name always |
| Gateway.StrOr | internal/gateway/helpers.go:178-186 | a string field gives its text; any other value gives the default |
| Gateway.CountOf | internal/gateway/helpers.go:189-200 | an int64 count as it is, a float64 count cut toward zero, anything else 0 |
| Gateway.BuiltTaskReadsPending | internal/gateway/helpers.go:84-172 | a task the gateway just built reads back as Pending |
| Gateway.FinishReason | internal/gateway/helpers.go:230-243 | "length" exactly for BudgetExceeded and TimedOut, else "stop" |
| Gateway.NonTerminalStops | internal/gateway/helpers.go:221-243 | a phase still in progress finishes with "stop" |
| Qdrant.Utf8 | internal/vectorstore/qdrant.go:90-97 | at least one byte per character |
| Qdrant.DocId | internal/vectorstore/qdrant.go:90-97 | the loop computes the 64-bit FNV-1a hash of the id's bytes |
| Qdrant.EmptyIdIsOffset | internal/vectorstore/qdrant.go:90-97 | the empty id hashes to the offset basis |
| Qdrant.FnvFromAppend | internal/vectorstore/qdrant.go:92-95 | hashing is incremental over concatenation |
| Qdrant.Payload | internal/vectorstore/qdrant.go:104-111 | the metadata keys plus the four reserved keys, reserved values from the document, other metadata kept |
| Qdrant.UpsertDeleteSamePoint | internal/vectorstore/qdrant.go:114 | Upsert and Delete address the same point for a document id |
| Qdrant.StringMap.constructor | internal/vectorstore/qdrant.go:104-106 | a map holding the given entries |
| Qdrant.UpsertPayload | internal/vectorstore/qdrant.go:104-111 | a nil metadata map is replaced by a new one; otherwise the caller's own map receives the reserved keys |
| Qdrant.FromPayload | internal/vectorstore/qdrant.go:206-212 | the whole payload becomes the metadata |
| Qdrant.PayloadRoundTrip | internal/vectorstore/qdrant.go:104-111 | id, task, namespace, content and ordinary metadata survive an upsert and a search |
| Qdrant.FilterClauses | internal/vectorstore/qdrant.go:164-173 | no filter exactly when empty; else one clause per filter key with its value |
| Qdrant.DistinctCount | internal/vectorstore/qdrant.go:166-171 | the iteration visits as many keys as the filter has |
| Qdrant.ApplyOptions | internal/vectorstore/qdrant.go:29-32 | the endpoint is kept; each option kind left alone keeps its default; the collection is that of the last WithCollection option and the dimension that of the last WithEmbeddingDimension option, wherever they stand |
| Qdrant.NewQdrant | internal/vectorstore/qdrant.go:25-39 | an error exactly for the empty endpoint, else the defaults with the options applied |
| Health.ResolveStuckConfig | internal/controller/health.go:205-227 | the defaults without an override; else each set override replaces its field and an empty action keeps the default |
| Health.EmptyOverrideKeepsDefaults | internal/controller/health.go:212-224 | an override with nothing set changes nothing |
| Health.ResolveIdempotent | internal/controller/health.go:205-227 | applying an override twice is applying it once |
| Health.CountHashes | internal/controller/health.go:67-70 | each hash seen, with its number of occurrences |
| Health.MaxCount | internal/controller/health.go:71-76 | the largest count, 0 for no counts |
| Health.RepeatedPrompts | internal/controller/health.go:65-78 | 0 for at most one hash, else the largest number of times one hash occurs |
| Health.StuckFailure | internal/controller/health.go:167-169 | Failed, with the message and a completion time, nothing else changed |
| Health.ExecuteStuckAction | internal/controller/health.go:138-201 | warn and other actions change nothing; a failed deletion reports an error; kill and escalate fail the task, and a written status notifies the parent; a task without a parent leaves the parent object untouched |
| Health.StuckActionPhases | internal/controller/health.go:155-197 | kill and escalate both end the task |
| PodBuilder.PvcSize | internal/controller/pod_builder.go:38-44 | the spec's size when given, else 1Gi for agentic tiers and 256Mi otherwise |
| PodBuilder.PvcAnnotations | internal/controller/pod_builder.go:46-49 | a retention of N followed by "d" exactly when RetainDays is set, and nothing else |
| PodBuilder.EnsurePVC | internal/controller/pod_builder.go:26-84 | nothing when the claim exists; the lookup error; a size error; else the claim named after the task with that size, annotations and the spec's storage class when one is set |
| PodBuilder.RetentionRoundTrip | internal/controller/pod_builder.go:46-49 | the retention a claim records reads back through the controller's duration parser as that many days |
| PodBuilder.PodImage | internal/controller/pod_builder.go:93-100 | the spec's image, else the agentic image for agentic tiers, else the default image |
| PodBuilder.ApiKeyEnvName | internal/controller/pod_builder.go:126-134 | ANTHROPIC_API_KEY or OPENAI_API_KEY by the lowercased endpoint, anthropic first, else LLM_API_KEY |
| PodBuilder.PreludeEnv | internal/controller/pod_builder.go:102-146 | the five fixed variables first; capabilities exactly when there are some; a secret reference exactly with an API key reference, last |
| PodBuilder.CapabilitiesEnv | internal/controller/pod_builder.go:110-115 | HORTATOR_CAPABILITIES with the comma-joined capabilities exactly when there are any |
| PodBuilder.ModelEnv | internal/controller/pod_builder.go:117-122 | HORTATOR_MODEL, holding the model name, exactly when the task names a model |
| PodBuilder.ApiKeyEnv | internal/controller/pod_builder.go:124-146 | the provider's key variable, read from the task's secret, exactly when the model gives an API key reference |
| PodBuilder.CopyEnv | internal/controller/pod_builder.go:149-168 | a secret reference is passed on, else the literal value |
| PodBuilder.PresidioEnv | internal/controller/pod_builder.go:205-212 | PRESIDIO_ENDPOINT exactly when Presidio is on and has an endpoint |
| PodBuilder.BuildEnv | internal/controller/pod_builder.go:102-212 | the prelude, then each custom variable copied in order, then the Presidio variable |
| PodBuilder.BuildEnvLayout | internal/controller/pod_builder.go:102-212 | the prelude first, each custom variable copied at its own position after it, and the Presidio variable last |
| PodBuilder.AppendCopies | internal/controller/pod_builder.go:148-168 | the loop appends each custom variable, copied, in order |
| PodBuilder.CopyAll | internal/controller/pod_builder.go:148-168 | one copied variable per custom variable, at the same position |
| PodBuilder.BuildVolumes | internal/controller/pod_builder.go:248-278 | an ephemeral inbox and the claim; outbox, workspace and memory on claim subpaths; /inbox on the claim only for agentic tiers |
| PodBuilder.InitInboxMount | internal/controller/pod_builder.go:183-191 | the init container mounts /inbox |
| PodBuilder.InitInboxAgrees | internal/controller/pod_builder.go:183-191 | the init container writes into the same /inbox the agent reads |
| PodBuilder.QuantityList | internal/controller/pod_builder.go:294-326 | accepted exactly when every non-empty quantity is valid; then holds exactly the non-empty quantities, under "cpu" and "memory" |
| PodBuilder.BuildResources | internal/controller/pod_builder.go:290-362 | with spec resources: succeeds exactly when every given list is accepted, each given list holds exactly its non-empty quantities, a missing list stays absent; without: succeeds exactly when both default lists are accepted, and both lists hold exactly the non-empty defaults |
| PodBuilder.DefaultResources | internal/controller/pod_builder.go:328-359 | with built-in defaults, 100m and 128Mi requested, limited to 500m and 512Mi |
| CliWatch.FormatInt | cmd/hortator/cmd/watch.go:751-764 | the loop produces the grouped rendering |
| CliWatch.GroupStep | cmd/hortator/cmd/watch.go:758-761 | peeling three digits keeps the rendering |
| CliWatch.FormatIntDigits | cmd/hortator/cmd/watch.go:751-764 | from 1000 on, dropping the commas gives back the decimal digits |
| CliWatch.FormatIntGroups | cmd/hortator/cmd/watch.go:751-764 | from 1000 on, a leading group of one to three digits and groups of three after it |
| CliWatch.ThreeDigitsSmall | cmd/hortator/cmd/watch.go:753-755 | three digits stay below 1000 |
| CliWatch.Flatten | cmd/hortator/cmd/watch.go:822-854 | the task's row first; rows descend one level at a time; every later row is deeper and a child row |
| CliWatch.FlattenKids | cmd/hortator/cmd/watch.go:825-853 | children's rows start one level down and stay below the parent |
| CliWatch.FlattenKidsChildRows | cmd/hortator/cmd/watch.go:825-853 | the rows one level down from children i.. are exactly one row per present child, in child order, the last child drawn with the closing connector and the others with the middle one |
| CliWatch.FlattenChildRows | cmd/hortator/cmd/watch.go:822-853 | the rows directly below a task are its present children, in order, with the closing connector only on the last child |
| CliWatch.FlattenSize | cmd/hortator/cmd/watch.go:822-853 | a task takes one row plus the rows of its present children's subtrees, whatever its depth and prefix |
| CliWatch.FlattenKidsSize | cmd/hortator/cmd/watch.go:825-853 | children i.. take exactly the rows of the present children's subtrees; absent children take none |
| CliWatch.AtDepthAppend | cmd/hortator/cmd/watch.go:822-853 | picking the rows of one depth out of joined rows picks them from each part in turn |
| CliWatch.AtDepthBelow | cmd/hortator/cmd/watch.go:822-853 | rows that are all deeper than a depth hold none of that depth |
| CliWatch.ByNameOf | cmd/hortator/cmd/watch.go:789-801 | every listed task is indexed by its name, only by listed tasks |
| CliWatch.ChildMapOf | cmd/hortator/cmd/watch.go:789-801 | child lists hold only listed children of that parent |
| CliWatch.ChildMapRanked | cmd/hortator/cmd/watch.go:789-801 | an acyclic listing gives a well-founded child map |
| CliWatch.ForestShape | cmd/hortator/cmd/watch.go:803-817 | top rows are roots, deeper rows child rows, descending one level at a time |
| CliWatch.ForestContents | cmd/hortator/cmd/watch.go:803-817 | the top-level rows are exactly one row per root present in the index, in root order and without a prefix, and the forest has as many rows as the roots' subtrees together |
| CliWatch.FetchTasks | cmd/hortator/cmd/watch.go:774-820 | the rows are the forest of the focused task or of the roots |
| CliWatch.IndexTasks | cmd/hortator/cmd/watch.go:789-801 | the loop builds the name index, the child map and the roots |
| CliWatch.FlattenRoots | cmd/hortator/cmd/watch.go:803-817 | the loop flattens each root found in the index |
| CliWatch.ForestStep | cmd/hortator/cmd/watch.go:803-817 | the forest is the first root's rows followed by the rest's |
| CliWatch.GoRem | cmd/hortator/cmd/watch.go:218 | a non-negative remainder below the divisor for non-negative input |
| CliWatch.FirstIndex | cmd/hortator/cmd/watch.go:267-272 | the first position of the namespace, if any |
| CliWatch.InitialInv | cmd/hortator/cmd/watch.go:55-78 | the starting state keeps the invariant |
| CliWatch.UpdateKeepsInv | cmd/hortator/cmd/watch.go:177-307 | every message keeps the cursor on a row and the indices non-negative |
| CliWatch.UpdateKeyKeepsInv | cmd/hortator/cmd/watch.go:184-237 | every key keeps the invariant |
| CliWatch.NsInputKeepsInv | cmd/hortator/cmd/watch.go:280-307 | namespace input keeps the invariant |
| CliWatch.CursorMoves | cmd/hortator/cmd/watch.go:188-197 | up and down move the cursor by one inside the rows and clear the logs; at the ends nothing changes |
| CliWatch.DownThenUp | cmd/hortator/cmd/watch.go:188-197 | down then up returns to the same row |
| CliWatch.PreviousNamespace | cmd/hortator/cmd/watch.go:215-224 | N steps back cyclically, selects that namespace, leaves all-namespaces mode and resets the cursor |
| CliWatch.FailedFetchKeepsRows | cmd/hortator/cmd/watch.go:246-253 | a failed fetch keeps rows and cursor and records the error |
| CliWatch.FetchClampsCursor | cmd/hortator/cmd/watch.go:246-253 | a fetch replaces the rows and pulls a cursor past the end back to the last row |
| Api.AgentTask.constructor | api/v1alpha1/agenttask_types.go:408-414 | a task with the given fields |
| Api.Complete | internal/controller/helpers.go:167-174 | the completion time is stamped and nothing else changes |

## Left out
- Network, Kubernetes API traffic, finalizers, owner references, events, metrics and tracing spans, because they are I/O. Status writes are taken to succeed unless an outcome parameter says otherwise.
- Concurrency: the mutexes of the result cache, the rate limiter and the price map, goroutines, and the runtime's signal handlers. The model is sequential.
- Presidio readiness polling and `report_to_crd`, because they are network I/O.
- Printing and logging, including the prompt-hash logging in the loop (runtime/agentic/loop.py:92-100), because it changes no state.
- The LLM call, subprocesses and the `hortator` CLI, which are oracles. Process execution and timeouts are only outcomes.
- Exact prompt wording and tool descriptions, which are supplied by `Prompt.Wording` and `Tools.Descriptions`. Long literal texts are not part of the model.
- Unicode case mapping: `Strs.Lower` and `Strs.UpperChar` map ASCII only, where Go and Python map all of Unicode.
- Strs.IsSpace: only the six ASCII characters that Python's `str.isspace` and Go's `unicode.IsSpace` agree on count as whitespace. Python's separators U+001C to U+001F, and every non-ASCII space (U+0085, U+00A0, U+2000 to U+200A and the rest) are not stripped by `Strs.Trim` or split on by the word helpers, where Python's `strip`/`split` or Go's `strings.TrimSpace`/`strings.Fields` would.
- Byte lengths: Go's `len` and slicing count UTF-8 bytes, but the model counts characters. This differs from the source only on non-ASCII text, as follows.
- CliStatus.Truncate: keeps the first maxLen-3 characters, where Go keeps that many bytes (cmd/hortator/cmd/status.go:156-161). On non-ASCII text Go can cut a character in half.
- ControllerHelpers.LogTail: the 16000 cap counts characters, where Go counts bytes (internal/controller/helpers.go:201-204).
- CliTree.Capitalize: upper-cases the first character, where Go's `s[:1]` takes the first byte (cmd/hortator/cmd/tree.go:152-157). On a non-ASCII first letter Go leaves the text as it is, or splits it.
- Knowledge.RoleTags: a dash-separated part of the role is a tag when it has more than two characters, where Go's `len(part) > 2` counts bytes (internal/controller/knowledge.go:118-119). A two-character part with a non-ASCII letter is a tag in Go but not in the model.
- Integer width: Go's int64 and `time.Duration` arithmetic is unbounded in the model.
- ControllerHelpers.ParseDurationString: N days become N × 24h exactly, where Go's `time.Duration` product wraps around above about 106751 days (internal/controller/helpers.go:152-164).
- The token sums of `Budget`, `HierarchyBudget` and `ControllerHelpers.FindTokens` never overflow, where Go's int64 would wrap.
- Floating point: costs are exact reals. Parsing and formatting of floats (`strconv.ParseFloat`, `%.4f`, `%.6f`, `FormatFloat`) are oracle parameters, and float64 rounding is not modelled.
- JSON numbers are integers. Python's `True == 1` is modelled only where the runtime compares with or converts a number: `Checkpoint.IsVersionOne` accepts `True` as version 1, and `AgentLoop.BudgetLimit` reads a `True` limit as 1. Everywhere else a boolean is not taken as a number.
- Python reads of a non-dict value can raise. The model reads them as the default.
- The weighted stuck score, tool diversity and status staleness in `checkStuckSignals`, which are floating-point logic. Only the prompt-repetition count is modelled.
- `time.ParseDuration`, which is an oracle. Only the "Nd" branch of `parseDurationString` is spelled out.
- `path.Match`, `resource.ParseQuantity` and the regular expressions, which are oracles or are written out by hand for the one pattern used.
- SHA-256 in `CacheKey`, which is a parameter. Injectivity is proved only for the hash input.
- Warm-pool pods, artifact extraction and child-result injection pods, because they are Kubernetes I/O.
- The Bubble Tea rendering, styling and key plumbing outside `model.Update`, the Cobra commands, the gateway HTTP handler, the SDK client, the Milvus stub and the vectorstore factory, because they are UI or network plumbing.
- `extractFiles` and the content-part decoding of gateway messages, because message content is taken as text.
- `Webhook.CapabilityErrors`: the message does not list the parent's capabilities, because Go prints them in map iteration order.
- `Api.Complete`: does not render the `Duration` string of `setCompletionStatus`.
- `Qdrant.FilterClauses`: takes the map's iteration order as a parameter, because Go's order is random.
- `CliWatch.FetchTasks`: asks for an acyclic parent relation (a rank), which the Go code does not check. A cyclic listing would make `flattenTree` recurse without end.
- `Tools.HiddenToolsNeverOffered`: stated over every tool the catalogue can hold, not over the list itself.
- `Prompt.RoleRulesListed`: role descriptions may contain headings of their own, so "rules once" is stated on the section structure rather than on the text.
- `CliWatch.ByNameOf`: with duplicate names in a listing, the later task wins, as in Go. Nothing more is claimed.
- RuntimeMain.WriteResult: the writes are taken to succeed. In the source a failed write of result.json or usage.json raises out of `write_result` (runtime/agentic/main.py:85-90), and the model does not represent that exception.
- `Checkpoint.SaveCheckpoint`: directory creation is not modelled.
- `Budget.PriceMap.RefreshIfStale`: the fetch from LiteLLM is a parameter.
- `HierarchyBudget.UpdateHierarchyBudget`: the status write of the root is taken to succeed.
- AgentLoop.BudgetLimit: a non-empty list or dict `maxTokens` is read as setting no limit. Python compares it with the token total and raises TypeError (runtime/agentic/loop.py:57-80).
- RuntimeMain.TaskId: a `prompt` that is neither a string nor a list, which `[:40]` cannot slice (runtime/agentic/main.py:157), is shown whole instead of raising.
- RuntimeMain.DecisionsPart: a truthy `decisions` that is not a list gives an empty list of decisions, where Python iterates a string's characters or a dict's keys (runtime/agentic/main.py:269-271).
- ControllerConfig.DefaultsCache.constructor: "never loaded" is time 0, where Go uses the zero `time.Time` (year 1). The first refresh therefore reloads only when `now` is at least the TTL past time 0. A Go process always reloads then, since its clock is centuries past year 1.
- Policy.Quote: wraps the text in double quotes without escaping, where Go's `%q` escapes quotes, backslashes and unprintable characters (internal/controller/policy.go:94-142). Plain names and images print the same.
- TaskController.Harvested: extracts the result through the corrected `ControllerHelpers.ExtractResult` of the "## Findings" row below. On a log whose markers share their newline, Go's `extractResult` panics in the middle of the reconcile (internal/controller/helpers.go:386), and the model keeps the output instead. That behaviour of the source is `ControllerHelpers.ExtractResultAsWritten`.
- TaskController.Harvest: inherits the corrected extraction from `TaskController.Harvested`, so the panic on the shared-newline log is not modelled.
- TaskController.HandlePodSucceeded: the status write, the root's status write and every cancellation are taken to succeed. Go returns before the follow-ups when the status write fails (internal/controller/agenttask_controller.go:696-698, 761-763). Metrics, events and the cost metric are not modelled.
- TaskController.FinishSucceeded: stores through the corrected `Cache.ResultCache.PutInOrder` of the "## Findings" row below, where Go's `Put` is `Cache.ResultCache.Put`. The key is `CacheKey(prompt, role)` as internal/controller/result_cache.go:60 defines it. The call at internal/controller/agenttask_controller.go:739 also passes the model name and tier, which that definition does not take.
- ToolExecutor.WriteFile: the filesystem is keyed by resolved paths, and `.`, `..` and repeated slashes are resolved lexically. Symbolic links are not followed, so a link under a write prefix that points elsewhere is still written through (runtime/agentic/tool_executor.py:337-355).
- ToolExecutor.ReadFile: the same holds for reads through symbolic links (runtime/agentic/tool_executor.py:311-334).
- ToolExecutor.Handle: uses the corrected file handlers of the "## Findings" rows below, so `..` cannot leave the prefixes. The source tests the path as given, and that behaviour is `ToolExecutor.WriteFileAsWritten` and `ToolExecutor.ReadFileAsWritten`. Symbolic links are not modelled.
- ToolExecutor.ExecuteTool: inherits the corrected file handlers from `ToolExecutor.Handle`. A write through `..` out of the prefixes, which the source performs, is refused, and symbolic links are not modelled.
- ToolExecutor.Resolve: a relative path is resolved as if it started at the root. The working directory is not modelled, and no relative path passes a prefix test, since every prefix starts with "/".
- CliTree.BuildTreeNode: asks for a well-founded child map (a rank). A task listed as its own parent, or any parent cycle, makes Go's `buildTreeNode` recurse without end (cmd/hortator/cmd/tree.go:88-100). The model does not cover that input.
- Knowledge.SortByOverlap: keeps equal overlaps in listing order. Go's `sort.Slice` is not stable and may order ties in any way (internal/controller/knowledge.go:89-91). The proved properties, sorted by overlap and a permutation, hold for every order Go may produce. The exact order of ties is not claimed.
- Budget.PriceMap.CalculateCost: the "no pricing found" error wraps the model name in double quotes without escaping, where Go's `%q` escapes quotes, backslashes and unprintable characters (internal/controller/budget.go:152). Plain model names print the same.

## Findings
| source | as written | input that shows it | evidently intended | confidence | as-written member | corrected member |
|---|---|---|---|---|---|---|
| internal/controller/helpers.go:376-389 | the body is sliced from the end of the begin marker to the end marker whenever the end marker comes after the start of the begin marker | "[hortator-result-begin]\n[hortator-result-end]" puts the end marker inside the begin marker's span, so the slice bounds are reversed and Go panics | slice only when the end marker starts at or after the end of the begin marker; otherwise leave the output as it is | not executed | ControllerHelpers.ExtractResultPanics | ControllerHelpers.ExtractResult |
| internal/controller/result_cache.go:90-132 | an expired entry is removed from the entries but not from the eviction order, and storing the key again appends a second slot | capacity 2: put "a" at 0s; get "a" after the TTL; put "b" at 12s, "a" at 13s and "c" at 14s. The stale first slot of "a" evicts the newer "a" while the older "b" stays | evict the oldest entry: a key stored again takes only its new place in the order | not executed | Cache.StaleOrderEvictsNewer | Cache.ResultCache.PutInOrder |
| runtime/agentic/tool_executor.py:344-355 | the write-prefix test reads the path as given, and `open` then writes the file the path resolves to | "/workspace/../etc/x" passes the test for "/workspace/" and writes /etc/x, which lies under no write prefix | apply the prefix test to the resolved path, so that every file written lies under a write prefix | not executed | ToolExecutor.TraversalWriteEscapes | ToolExecutor.ToolWritesConfined |
| runtime/agentic/tool_executor.py:317-334 | the read-prefix test reads the path as given, and `open` then reads the file the path resolves to | "/inbox/../etc/passwd" passes the test for "/inbox/" and returns the text of /etc/passwd | apply the prefix test to the resolved path | not executed | ToolExecutor.TraversalReadEscapes | ToolExecutor.ReadFile |
