/**
 * The agent's tool dispatcher (runtime/agentic/tool_executor.py): every tool
 * call becomes a result dict and never an exception. Shell commands are
 * gated by the HORTATOR_ALLOWED_COMMANDS / HORTATOR_DENIED_COMMANDS policy,
 * file access by path-prefix allowlists, and large outputs are cut to a head
 * and a tail around a marker.
 *
 * The `hortator` CLI and the shell are an oracle (`Runner`) that maps the
 * argument vector and timeout handed to `subprocess.run` to what it did;
 * the agent's filesystem is a map from resolved absolute path to text; an
 * I/O failure is an optional error text.
 */
module ToolExecutor {
  import opened Strs
  import opened Json
  import opened Wrappers

  /** The two policy variables, "" when unset. */
  datatype Env = Env(allowedCommands: string, deniedCommands: string)

  /** What `subprocess.run` did: exited (with stdout's JSON parse, None when it is not JSON), timed out, or raised. */
  datatype ProcOutcome =
    | Exited(returnCode: int, stdout: string, stderr: string, stdoutJson: Option<Json>)
    | Expired(message: string)
    | Failed(message: string)

  type Runner = (seq<Json>, Json) -> ProcOutcome

  /** A handler either returns a dict (and the new filesystem) or raises. */
  datatype HandlerOutcome = Returned(result: Dict, files: map<string, string>) | Raised(message: string)

  /** What `execute_tool` leaves behind: the result dict and the filesystem. */
  datatype Effect = Effect(result: Dict, files: map<string, string>)

  const KnownTools: seq<string> := ["spawn_task", "check_status", "get_result", "cancel_task",
    "checkpoint_and_wait", "list_roles", "describe_role", "run_shell", "read_file", "write_file"]

  const ReadPrefixes: seq<string> := ["/inbox/", "/outbox/", "/workspace/", "/memory/", "/prior/"]
  const WritePrefixes: seq<string> := ["/outbox/", "/workspace/", "/memory/"]
  const ReadPrefixesText := "['/inbox/', '/outbox/', '/workspace/', '/memory/', '/prior/']"
  const WritePrefixesText := "['/outbox/', '/workspace/', '/memory/']"

  const TruncationMarker := "\n... (truncated) ...\n"

  function Failure(message: string): (r: Dict)
    ensures "success" in r && "error" in r && r["success"] == JBool(false) && r["error"] == JStr(message)
    ensures WellFormed(r)
  { map["success" := JBool(false), "error" := JStr(message)] }

  /** A result dict as every handler produces it: a boolean "success", and on failure an "error" or a shell "exit_code". */
  predicate WellFormed(d: Dict)
  { "success" in d && d["success"].JBool? && (!d["success"].b ==> "error" in d || "exit_code" in d) }

  /** A handler outcome that returned a well-formed dict without touching the filesystem, or raised. */
  predicate Untouched(o: HandlerOutcome, files: map<string, string>)
  { o.Returned? ==> WellFormed(o.result) && o.files == files }

  /** Python's AttributeError text for a missing method on a decoded JSON value. */
  function NoAttribute(j: Json, attribute: string): string
  { "'" + PyTypeName(j) + "' object has no attribute '" + attribute + "'" }

  /** Python's `str()` of a decoded JSON value (lists and dicts are not rendered). */
  function PyStr(j: Json): string
  {
    match j
    case JNull => "None"
    case JBool(b) => if b then "True" else "False"
    case JInt(i) => IntToString(i)
    case JStr(s) => s
    case JArr(_) => "[...]"
    case JObj(_) => "{...}"
  }

  predicate HasAnyPrefix(path: string, prefixes: seq<string>)
  { exists p :: p in prefixes && StartsWith(path, p) }

  /** Every writable path is readable. */
  lemma WritableIsReadable(path: string)
    ensures HasAnyPrefix(path, WritePrefixes) ==> HasAnyPrefix(path, ReadPrefixes)
  {
    if HasAnyPrefix(path, WritePrefixes) {
      var p :| p in WritePrefixes && StartsWith(path, p);
      assert p in ReadPrefixes;
    }
  }

  /** Keep the first and last `keep` characters of an over-long text around the marker. */
  function HeadTail(s: string, limit: nat, keep: nat): (r: string)
    requires 0 < keep && 2 * keep <= limit
    ensures |s| <= limit ==> r == s
    ensures |s| > limit ==> (|r| == 2 * keep + |TruncationMarker|
      && r[..keep] == s[..keep]
      && r[keep..keep + |TruncationMarker|] == TruncationMarker
      && r[|r| - keep..] == s[|s| - keep..])
  { if |s| > limit then s[..keep] + TruncationMarker + s[|s| - keep..] else s }

  // ---------------------------------------------------------------- shell policy

  /** `[c.strip() for c in raw.split(",") if c.strip()]`. */
  function PolicyEntries(raw: string): (r: seq<string>)
    ensures forall e :: e in r ==> e != ""
  { TrimmedNonEmpty(Split(raw, ',')) }

  function TrimmedNonEmpty(parts: seq<string>): (r: seq<string>)
    ensures forall e :: e in r ==> e != ""
  {
    if parts == [] then []
    else (if Trim(parts[0]) != "" then [Trim(parts[0])] else []) + TrimmedNonEmpty(parts[1..])
  }

  lemma NoEntriesWhenUnset()
    ensures PolicyEntries("") == []
  {
    assert Split("", ',') == [""];
  }

  /** The base command a `|`-segment contributes, if any. */
  function BaseOf(part: string): seq<string>
  { var t := Trim(part); if t != "" && FirstWord(t) != "" then [FirstWord(t)] else [] }

  /** The first word of each non-empty `|`-segment, in order. */
  function BaseCommandsOf(parts: seq<string>): (r: seq<string>)
    ensures forall b :: b in r ==> b != ""
    decreases |parts|
  { if parts == [] then [] else BaseCommandsOf(parts[..|parts| - 1]) + BaseOf(parts[|parts| - 1]) }

  function BaseCommands(command: string): seq<string>
  { BaseCommandsOf(Split(command, '|')) }

  function NotAllowedMessage(b: string): string { "Command '" + b + "' is not allowed by policy" }
  function DeniedMessage(b: string): string { "Command '" + b + "' is denied by policy" }

  /** A denied entry matches when the stripped command starts with it or the base command equals it. */
  predicate DeniedMatch(b: string, d: string, stripped: string)
  { StartsWith(stripped, d) || b == d }

  /** One base command passes the allow-list and every deny entry. */
  predicate Admitted(b: string, allowed: seq<string>, denied: seq<string>, stripped: string)
  { (allowed == [] || b in allowed) && forall d :: d in denied ==> !DeniedMatch(b, d, stripped) }

  function FirstViolation(bases: seq<string>, allowed: seq<string>, denied: seq<string>, stripped: string): Option<string>
    decreases |bases|
  {
    if bases == [] then None
    else if allowed != [] && bases[0] !in allowed then Some(NotAllowedMessage(bases[0]))
    else if exists d :: d in denied && DeniedMatch(bases[0], d, stripped) then Some(DeniedMessage(bases[0]))
    else FirstViolation(bases[1..], allowed, denied, stripped)
  }

  /** What `_check_shell_command_policy` decides: None allows, Some carries the rejection. */
  function PolicyVerdict(command: string, env: Env): Option<string>
  {
    if env.allowedCommands == "" && env.deniedCommands == "" then None
    else FirstViolation(BaseCommands(command), PolicyEntries(env.allowedCommands),
                        PolicyEntries(env.deniedCommands), Trim(command))
  }

  /** `_check_shell_command_policy`: collect the base commands, then check each in order. */
  method CheckShellCommandPolicy(command: string, env: Env) returns (verdict: Option<string>)
    ensures verdict == PolicyVerdict(command, env)
  {
    if env.allowedCommands == "" && env.deniedCommands == "" {
      return None;
    }
    var allowed := PolicyEntries(env.allowedCommands);
    var denied := PolicyEntries(env.deniedCommands);
    var bases := CollectBaseCommands(Split(command, '|'));
    verdict := CheckBases(bases, allowed, denied, Trim(command));
  }

  /** The loop that gathers the first word of each non-empty segment. */
  method CollectBaseCommands(parts: seq<string>) returns (bases: seq<string>)
    ensures bases == BaseCommandsOf(parts)
  {
    bases := [];
    var i := 0;
    while i < |parts|
      invariant 0 <= i <= |parts|
      invariant bases == BaseCommandsOf(parts[..i])
    {
      assert parts[..i + 1][..i] == parts[..i];
      var stripped := Trim(parts[i]);
      if stripped != "" {
        var b := FirstWord(stripped);
        if b != "" {
          bases := bases + [b];
        }
      }
      i := i + 1;
    }
    assert parts[..|parts|] == parts;
  }

  /** The loop over base commands, with the inner loop over deny entries; returns at the first violation. */
  method CheckBases(bases: seq<string>, allowed: seq<string>, denied: seq<string>, st: string) returns (verdict: Option<string>)
    ensures verdict == FirstViolation(bases, allowed, denied, st)
  {
    var j := 0;
    while j < |bases|
      invariant 0 <= j <= |bases|
      invariant FirstViolation(bases, allowed, denied, st) == FirstViolation(bases[j..], allowed, denied, st)
    {
      var b := bases[j];
      if allowed != [] && b !in allowed {
        return Some(NotAllowedMessage(b));
      }
      var hit := DeniedEntryMatches(b, denied, st);
      if hit {
        return Some(DeniedMessage(b));
      }
      assert bases[j..][1..] == bases[j + 1..];
      j := j + 1;
    }
    return None;
  }

  /** The inner loop: does some deny entry match this base command? */
  method DeniedEntryMatches(b: string, denied: seq<string>, st: string) returns (hit: bool)
    ensures hit <==> exists d :: d in denied && DeniedMatch(b, d, st)
  {
    var k := 0;
    while k < |denied|
      invariant 0 <= k <= |denied|
      invariant forall i :: 0 <= i < k ==> !DeniedMatch(b, denied[i], st)
    {
      if StartsWith(st, denied[k]) || b == denied[k] {
        assert DeniedMatch(b, denied[k], st);
        return true;
      }
      k := k + 1;
    }
    return false;
  }

  /** A command is allowed exactly when every base command is admitted. */
  lemma {:induction false} FirstViolationNoneIff(bases: seq<string>, allowed: seq<string>, denied: seq<string>, stripped: string)
    ensures FirstViolation(bases, allowed, denied, stripped) == None
        <==> forall b :: b in bases ==> Admitted(b, allowed, denied, stripped)
    decreases |bases|
  {
    if bases != [] {
      FirstViolationNoneIff(bases[1..], allowed, denied, stripped);
      assert bases == [bases[0]] + bases[1..];
      if Admitted(bases[0], allowed, denied, stripped) {
        assert !(exists d :: d in denied && DeniedMatch(bases[0], d, stripped));
      } else {
        assert FirstViolation(bases, allowed, denied, stripped) != None;
      }
    }
  }

  /** A rejection names a base command that fails the allow-list or matches a deny entry. */
  lemma {:induction false} FirstViolationNamesBase(bases: seq<string>, allowed: seq<string>, denied: seq<string>, stripped: string)
    requires FirstViolation(bases, allowed, denied, stripped).Some?
    ensures exists b :: (b in bases &&
      ((FirstViolation(bases, allowed, denied, stripped) == Some(NotAllowedMessage(b)) && allowed != [] && b !in allowed)
       || (FirstViolation(bases, allowed, denied, stripped) == Some(DeniedMessage(b)) && exists d :: d in denied && DeniedMatch(b, d, stripped))))
    decreases |bases|
  {
    if allowed != [] && bases[0] !in allowed {
    } else if exists d :: d in denied && DeniedMatch(bases[0], d, stripped) {
    } else {
      FirstViolationNamesBase(bases[1..], allowed, denied, stripped);
      var b :| b in bases[1..] &&
        ((FirstViolation(bases[1..], allowed, denied, stripped) == Some(NotAllowedMessage(b)) && allowed != [] && b !in allowed)
         || (FirstViolation(bases[1..], allowed, denied, stripped) == Some(DeniedMessage(b)) && exists d :: d in denied && DeniedMatch(b, d, stripped)));
      assert b in bases;
    }
  }

  /** With neither variable set every command is allowed; otherwise exactly the commands all of whose bases are admitted. */
  lemma PolicyAllowsIff(command: string, env: Env)
    ensures PolicyVerdict(command, env) == None <==>
      forall b :: b in BaseCommands(command) ==>
        Admitted(b, PolicyEntries(env.allowedCommands), PolicyEntries(env.deniedCommands), Trim(command))
  {
    var bases, allowed, denied := BaseCommands(command), PolicyEntries(env.allowedCommands), PolicyEntries(env.deniedCommands);
    FirstViolationNoneIff(bases, allowed, denied, Trim(command));
    if env.allowedCommands == "" && env.deniedCommands == "" {
      NoEntriesWhenUnset();
      assert allowed == [] && denied == [];
      forall b | b in bases ensures Admitted(b, allowed, denied, Trim(command)) {
        NothingListedAdmits(b, Trim(command));
      }
    } else {
      assert PolicyVerdict(command, env) == FirstViolation(bases, allowed, denied, Trim(command));
    }
  }

  lemma NothingListedAdmits(b: string, stripped: string)
    ensures Admitted(b, [], [], stripped)
  {
  }

  // ---------------------------------------------------------------- run_shell

  /** `_exec_run_shell`'s own gate: the first token of the whole command against the raw comma parts. */
  function ShellGate(command: string, env: Env): Option<string>
  {
    var base := FirstWord(Trim(command));
    var allowed := Split(env.allowedCommands, ',');
    var denied := Split(env.deniedCommands, ',');
    if allowed != [""] && base !in allowed then Some("Command '" + base + "' not in allowed list")
    else if denied != [""] && base in denied then Some("Command '" + base + "' is denied by policy")
    else None
  }

  lemma {:induction false} SplitIsBlank(raw: string)
    ensures Split(raw, ',') == [""] <==> raw == ""
  {
    if raw != [] {
      var rest := Split(raw[1..], ',');
      if raw[0] == ',' { assert |Split(raw, ',')| == 1 + |rest|; }
      else { assert Split(raw, ',')[0] == [raw[0]] + rest[0]; }
    }
  }

  /** The gate admits exactly when the first token is a raw allowed entry (if any are set) and no raw denied entry. */
  lemma ShellGateIff(command: string, env: Env)
    ensures ShellGate(command, env) == None <==>
      (env.allowedCommands == "" || FirstWord(Trim(command)) in Split(env.allowedCommands, ',')) &&
      (env.deniedCommands == "" || FirstWord(Trim(command)) !in Split(env.deniedCommands, ','))
  {
    SplitIsBlank(env.allowedCommands);
    SplitIsBlank(env.deniedCommands);
  }

  function RunShell(args: Dict, env: Env, files: map<string, string>, run: Runner): (o: HandlerOutcome)
    ensures Untouched(o, files)
  {
    var command := Get(args, "command", JStr(""));
    if !Truthy(command) then Returned(Failure("command is required"), files)
    else if !command.JStr? then Raised(NoAttribute(command, "strip"))
    else match ShellGate(command.s, env)
      case Some(err) => Returned(Failure(err), files)
      case None =>
        var timeout := Get(args, "timeout", JInt(120));
        ShellOutcome(run([JStr("/bin/sh"), JStr("-c"), command], timeout), timeout, files)
  }

  /** What run_shell reports for a command that passed the gate: success iff the exit code is 0, outputs truncated. */
  function ShellOutcome(p: ProcOutcome, timeout: Json, files: map<string, string>): (o: HandlerOutcome)
    ensures Untouched(o, files)
    ensures p.Exited? ==> o.Returned? && "success" in o.result && o.result["success"] == JBool(p.returnCode == 0)
  {
    match p
    case Expired(_) =>
      Returned(map["success" := JBool(false), "error" := JStr("Command timed out after " + PyStr(timeout) + "s"),
                   "exit_code" := JInt(-1)], files)
    case Failed(m) => Raised(m)
    case Exited(rc, out, err, _) =>
      Returned(map["success" := JBool(rc == 0), "exit_code" := JInt(rc),
                   "stdout" := JStr(HeadTail(out, 10000, 5000)), "stderr" := JStr(HeadTail(err, 5000, 2500))], files)
  }

  /** The message run_shell fails with for a command the gate rejects. */
  function GateRejection(args: Dict, env: Env): string
    requires Get(args, "command", JStr("")).JStr?
    requires ShellGate(Get(args, "command", JStr("")).s, env).Some?
  {
    var command := Get(args, "command", JStr(""));
    if !Truthy(command) then "command is required" else ShellGate(command.s, env).value
  }

  lemma RejectedOutcome(args: Dict, env: Env, files: map<string, string>, run: Runner)
    requires Get(args, "command", JStr("")).JStr?
    requires ShellGate(Get(args, "command", JStr("")).s, env).Some?
    ensures RunShell(args, env, files, run) == Returned(Failure(GateRejection(args, env)), files)
  {
    if !Truthy(Get(args, "command", JStr(""))) {
      RejectedEmpty(args, env, files, run);
    } else {
      RejectedByGate(args, env, files, run);
    }
  }

  lemma RejectedEmpty(args: Dict, env: Env, files: map<string, string>, run: Runner)
    requires !Truthy(Get(args, "command", JStr("")))
    ensures RunShell(args, env, files, run) == Returned(Failure("command is required"), files)
  {}

  lemma RejectedByGate(args: Dict, env: Env, files: map<string, string>, run: Runner)
    requires Get(args, "command", JStr("")).JStr? && Truthy(Get(args, "command", JStr("")))
    requires ShellGate(Get(args, "command", JStr("")).s, env).Some?
    ensures RunShell(args, env, files, run) == Returned(Failure(ShellGate(Get(args, "command", JStr("")).s, env).value), files)
  {}

  /** A command the gate rejects never reaches subprocess.run: the outcome does not depend on the runner. */
  lemma RunShellRejectsBeforeRunning(args: Dict, env: Env, files: map<string, string>, run1: Runner, run2: Runner)
    requires Get(args, "command", JStr("")).JStr?
    requires ShellGate(Get(args, "command", JStr("")).s, env).Some?
    ensures RunShell(args, env, files, run1) == RunShell(args, env, files, run2)
    ensures RunShell(args, env, files, run1).Returned?
    ensures RunShell(args, env, files, run1).result["success"] == JBool(false)
  {
    RejectedOutcome(args, env, files, run1);
    RejectedOutcome(args, env, files, run2);
    var f := Failure(GateRejection(args, env));
    assert f["success"] == JBool(false);
  }

  /**
   * The run's own gate looks at the first command only: with only `a` allowed,
   * `a |b` passes run_shell's gate although the pipe-aware policy rejects `b`.
   */
  lemma ShellGateMissesPipedCommand(a: string, b: string)
    requires Word(a, {'|', ','}) && Word(b, {'|', ','}) && a != b
    ensures ShellGate(a + " |" + b, Env(a, "")) == None
    ensures PolicyVerdict(a + " |" + b, Env(a, "")) == Some(NotAllowedMessage(b))
  {
    var c := a + " |" + b;
    PipedCommandHead(a, b);
    WordEntries(a);
    NoEntriesWhenUnset();
    GatePassesFirstWord(c, a);
    PipedCommandBases(a, b);
    PipedVerdict(a, b, c);
  }

  lemma GatePassesFirstWord(c: string, a: string)
    requires FirstWord(Trim(c)) == a && Split(a, ',') == [a]
    ensures ShellGate(c, Env(a, "")) == None
  {
    assert Split("", ',') == [""];
  }

  lemma PipedVerdict(a: string, b: string, c: string)
    requires a != "" && a != b && BaseCommands(c) == [a, b] && PolicyEntries(a) == [a] && PolicyEntries("") == []
    ensures PolicyVerdict(c, Env(a, "")) == Some(NotAllowedMessage(b))
  {
    TwoBaseVerdict(a, b, Trim(c));
  }

  lemma TwoBaseVerdict(a: string, b: string, st: string)
    requires a != b
    ensures FirstViolation([a, b], [a], [], st) == Some(NotAllowedMessage(b))
  {
    assert [a, b][1..] == [b];
    assert FirstViolation([b], [a], [], st) == Some(NotAllowedMessage(b));
    assert !(exists d :: d in [] && DeniedMatch(a, d, st));
  }

  /** `a |b` is already stripped and its first word is `a`. */
  lemma PipedCommandHead(a: string, b: string)
    requires Word(a, {'|', ','}) && Word(b, {'|', ','})
    ensures Trim(a + " |" + b) == a + " |" + b && FirstWord(a + " |" + b) == a
  {
    var c := a + " |" + b;
    assert TrimLeft(c) == c;
    assert c[|c| - 1] == b[|b| - 1];
    assert TrimRight(c) == c;
    assert c == a + (" |" + b);
    TakeWordOfWord(a, " |" + b, {'|', ','});
  }

  /** A single word is both its own allow-list and its own base command. */
  lemma WordEntries(a: string)
    requires Word(a, {'|', ','})
    ensures PolicyEntries(a) == [a] && Split(a, ',') == [a]
  {
    NoSepInWord(a, {'|', ','}, ',');
    SplitNoSep(a, ',');
    WordTrims(a, {'|', ','});
    assert [a][1..] == [];
    assert TrimmedNonEmpty([a]) == [Trim(a)] + TrimmedNonEmpty([]);
  }

  lemma PipedCommandBases(a: string, b: string)
    requires Word(a, {'|', ','}) && Word(b, {'|', ','})
    ensures BaseCommands(a + " |" + b) == [a, b]
  {
    var left := a + " ";
    assert a + " |" + b == left + ['|'] + b;
    NoSepInWord(a, {'|', ','}, '|');
    NoSepInWord(b, {'|', ','}, '|');
    assert '|' !in left by { assert forall i :: 0 <= i < |left| ==> left[i] == (if i < |a| then a[i] else ' '); }
    SplitNoSep(left, '|');
    SplitAppendSep(left, b, '|');
    TrimWordSpace(a, {'|', ','});
    WordTrims(a, {'|', ','});
    WordTrims(b, {'|', ','});
    assert BaseOf(left) == [a];
    assert BaseOf(b) == [b];
    assert Split(a + " |" + b, '|') == [left, b];
    assert [left, b][..1] == [left];
    assert [left][..0] == [];
    assert BaseCommandsOf([left]) == [a];
    assert BaseCommandsOf([left, b]) == [a, b];
  }

  // ---------------------------------------------------------------- path resolution

  /** A segment that names a directory entry: not empty, not `.` or `..`, and free of slashes. */
  predicate NameSegment(seg: string) { seg != "" && seg != "." && seg != ".." && '/' !in seg }

  predicate NameSegments(segs: seq<string>) { forall i :: 0 <= i < |segs| ==> NameSegment(segs[i]) }

  predicate SlashFree(segs: seq<string>) { forall i :: 0 <= i < |segs| ==> '/' !in segs[i] }

  /** The directory reached from `dirs` by following `segs`: an empty segment or `.` stays,
      `..` goes up one level and never above the root, any other name goes down. */
  function Walk(dirs: seq<string>, segs: seq<string>): (r: seq<string>)
    requires NameSegments(dirs) && SlashFree(segs)
    ensures NameSegments(r)
    decreases |segs|
  {
    if segs == [] then dirs
    else if segs[0] == "" || segs[0] == "." then Walk(dirs, segs[1..])
    else if segs[0] == ".." then Walk(if dirs == [] then [] else dirs[..|dirs| - 1], segs[1..])
    else Walk(dirs + [segs[0]], segs[1..])
  }

  /** The file an absolute path opens, symbolic links aside: `.`, `..` and repeated slashes resolved. */
  function Resolve(path: string): (r: string)
    ensures StartsWith(r, "/")
  { "/" + Join(Walk([], Split(path, '/')), "/") }

  /** Following names only goes down by exactly those names. */
  lemma {:induction false} WalkNames(dirs: seq<string>, segs: seq<string>)
    requires NameSegments(dirs) && NameSegments(segs)
    ensures Walk(dirs, segs) == dirs + segs
    decreases |segs|
  {
    if segs == [] {
      assert dirs + segs == dirs;
    } else {
      WalkNames(dirs + [segs[0]], segs[1..]);
      assert dirs + [segs[0]] + segs[1..] == dirs + segs;
    }
  }

  /** Splitting at the first separator, when the text before it has none. */
  lemma {:induction false} SplitFirstSep(a: string, b: string, sep: char)
    requires sep !in a
    ensures Split(a + [sep] + b, sep) == [a] + Split(b, sep)
    decreases |a|
  {
    if a == [] {
      assert a + [sep] + b == [sep] + b;
      assert ([sep] + b)[1..] == b;
    } else {
      assert (a + [sep] + b)[1..] == a[1..] + [sep] + b;
      SplitFirstSep(a[1..], b, sep);
      assert [a[0]] + a[1..] == a;
    }
  }

  /** Joining slash-free parts and splitting again gives the parts back. */
  lemma {:induction false} SplitJoin(parts: seq<string>)
    requires parts != [] && SlashFree(parts)
    ensures Split(Join(parts, "/"), '/') == parts
    decreases |parts|
  {
    if |parts| == 1 {
      SplitNoSep(parts[0], '/');
    } else {
      SplitJoin(parts[1..]);
      assert Join(parts, "/") == parts[0] + ['/'] + Join(parts[1..], "/");
      SplitFirstSep(parts[0], Join(parts[1..], "/"), '/');
      assert [parts[0]] + parts[1..] == parts;
    }
  }

  /** A resolved path resolves to itself: no `..` is left that could climb out of its prefix. */
  lemma ResolveIdempotent(path: string)
    ensures Resolve(Resolve(path)) == Resolve(path)
  {
    var dirs := Walk([], Split(path, '/'));
    var r := Resolve(path);
    assert r[1..] == Join(dirs, "/");
    if dirs == [] {
      assert r == "/";
      assert Split("", '/') == [""];
      assert Split(r, '/') == [""] + Split("", '/');
      assert Walk([], ["", ""]) == [];
    } else {
      SplitJoin(dirs);
      assert Split(r, '/') == [""] + dirs;
      assert Walk([], [""] + dirs) == Walk([], dirs) by { assert ([""] + dirs)[1..] == dirs; }
      WalkNames([], dirs);
      assert [] + dirs == dirs;
    }
  }

  // ---------------------------------------------------------------- file I/O

  /** `_exec_read_file` as written: the prefix test reads the path as given, while `open` reads
      the file the path resolves to. */
  function ReadFileAsWritten(args: Dict, files: map<string, string>, io: Option<string>): (o: HandlerOutcome)
    ensures Untouched(o, files)
    ensures o.Returned? && "success" in o.result && o.result["success"] == JBool(true) ==>
              "path" in args && args["path"].JStr? && HasAnyPrefix(args["path"].s, ReadPrefixes) &&
              Resolve(args["path"].s) in files && "content" in o.result &&
              o.result["content"] == JStr(HeadTail(files[Resolve(args["path"].s)], 50000, 25000))
  {
    var path := Get(args, "path", JStr(""));
    if !Truthy(path) then Returned(Failure("path is required"), files)
    else if !path.JStr? then Raised(NoAttribute(path, "startswith"))
    else if !HasAnyPrefix(path.s, ReadPrefixes) then
      Returned(Failure("Read access denied: " + path.s + ". Allowed prefixes: " + ReadPrefixesText), files)
    else if Resolve(path.s) !in files then Returned(Failure("File not found: " + path.s), files)
    else if io.Some? then Returned(Failure("Read failed: " + io.value), files)
    else Returned(map["success" := JBool(true), "path" := path, "content" := JStr(HeadTail(files[Resolve(path.s)], 50000, 25000))], files)
  }

  /** The read with the prefix test applied to the resolved path as well. */
  function ReadFile(args: Dict, files: map<string, string>, io: Option<string>): (o: HandlerOutcome)
    ensures Untouched(o, files)
    ensures o.Returned? && "success" in o.result && o.result["success"] == JBool(true) ==>
              "path" in args && args["path"].JStr? && HasAnyPrefix(Resolve(args["path"].s), ReadPrefixes) &&
              Resolve(args["path"].s) in files && "content" in o.result &&
              o.result["content"] == JStr(HeadTail(files[Resolve(args["path"].s)], 50000, 25000))
  {
    var path := Get(args, "path", JStr(""));
    if path.JStr? && HasAnyPrefix(path.s, ReadPrefixes) && !HasAnyPrefix(Resolve(path.s), ReadPrefixes) then
      Returned(Failure("Read access denied: " + path.s + ". Allowed prefixes: " + ReadPrefixesText), files)
    else ReadFileAsWritten(args, files, io)
  }

  /** `_exec_write_file` as written: the prefix test reads the path as given, while `open`
      writes the file the path resolves to. */
  function WriteFileAsWritten(args: Dict, files: map<string, string>, io: Option<string>): (o: HandlerOutcome)
    ensures o.Returned? ==> WellFormed(o.result)
    ensures o.Returned? && o.files != files ==>
      ("path" in args && args["path"].JStr? && HasAnyPrefix(args["path"].s, WritePrefixes)
      && Resolve(args["path"].s) in o.files && o.files == files[Resolve(args["path"].s) := o.files[Resolve(args["path"].s)]])
  {
    var path := Get(args, "path", JStr(""));
    var content := Get(args, "content", JStr(""));
    if !Truthy(path) then Returned(Failure("path is required"), files)
    else if !path.JStr? then Raised(NoAttribute(path, "startswith"))
    else if !HasAnyPrefix(path.s, WritePrefixes) then
      Returned(Failure("Write access denied: " + path.s + ". Allowed prefixes: " + WritePrefixesText), files)
    else if io.Some? then Returned(Failure("Write failed: " + io.value), files)
    else if !content.JStr? then
      // open(path, "w") has already emptied the file when f.write rejects a non-string
      Returned(Failure("Write failed: write() argument must be str, not " + PyTypeName(content)), files[Resolve(path.s) := ""])
    else Returned(map["success" := JBool(true), "path" := path, "bytes_written" := JInt(|content.s|)], files[Resolve(path.s) := content.s])
  }

  /** The write with the prefix test applied to the resolved path as well. */
  function WriteFile(args: Dict, files: map<string, string>, io: Option<string>): (o: HandlerOutcome)
    ensures o.Returned? ==> WellFormed(o.result)
    ensures o.Returned? && o.files != files ==>
      ("path" in args && args["path"].JStr? && HasAnyPrefix(Resolve(args["path"].s), WritePrefixes)
      && Resolve(args["path"].s) in o.files && o.files == files[Resolve(args["path"].s) := o.files[Resolve(args["path"].s)]])
  {
    var path := Get(args, "path", JStr(""));
    if path.JStr? && HasAnyPrefix(path.s, WritePrefixes) && !HasAnyPrefix(Resolve(path.s), WritePrefixes) then
      Returned(Failure("Write access denied: " + path.s + ". Allowed prefixes: " + WritePrefixesText), files)
    else WriteFileAsWritten(args, files, io)
  }

  /** The segments of a path that goes down into `a`, back up, and down into `b` and `c`. */
  lemma SplitClimb(a: string, b: string, c: string)
    requires NameSegment(a) && NameSegment(b) && NameSegment(c)
    ensures Split("/" + a + "/../" + b + "/" + c, '/') == ["", a, "..", b, c]
  {
    var bc := b + ['/'] + c;
    var up := ".." + ['/'] + bc;
    var abc := a + ['/'] + up;
    assert "/" + a + "/../" + b + "/" + c == "" + ['/'] + abc;
    SplitNoSep(c, '/');
    SplitFirstSep(b, c, '/');
    SplitFirstSep("..", bc, '/');
    SplitFirstSep(a, up, '/');
    SplitFirstSep("", abc, '/');
  }

  lemma WalkClimb(a: string, b: string, c: string)
    requires NameSegment(a) && NameSegment(b) && NameSegment(c)
    ensures Walk([], ["", a, "..", b, c]) == [b, c]
  {
    WalkStepEmpty([a, "..", b, c]);
    WalkStepName(a, ["..", b, c]);
    WalkStepUp([a], [b, c]);
    WalkNames([], [b, c]);
  }

  lemma WalkStepEmpty(segs: seq<string>)
    requires SlashFree(segs)
    ensures Walk([], [""] + segs) == Walk([], segs)
  {
    assert ([""] + segs)[1..] == segs;
  }

  lemma WalkStepName(a: string, segs: seq<string>)
    requires NameSegment(a) && SlashFree(segs)
    ensures Walk([], [a] + segs) == Walk([a], segs)
  {
    assert ([a] + segs)[1..] == segs;
    assert [] + [a] == [a];
  }

  lemma WalkStepUp(dirs: seq<string>, segs: seq<string>)
    requires |dirs| == 1 && NameSegments(dirs) && SlashFree(segs)
    ensures Walk(dirs, [".."] + segs) == Walk([], segs)
  {
    assert ([".."] + segs)[1..] == segs;
  }

  /** Going down into `a` and back up with `..` leaves the path at the root. */
  lemma ClimbOut(a: string, b: string, c: string)
    requires NameSegment(a) && NameSegment(b) && NameSegment(c)
    ensures Resolve("/" + a + "/../" + b + "/" + c) == "/" + b + "/" + c
  {
    SplitClimb(a, b, c);
    WalkClimb(a, b, c);
    assert Join([b, c], "/") == b + "/" + Join([c], "/");
  }

  /** The path that enters `a` and climbs back out starts with the prefix "/a/". */
  lemma ClimbStartsInside(a: string, b: string, c: string)
    ensures StartsWith("/" + a + "/../" + b + "/" + c, "/" + a + "/")
  {
    assert "/" + a + "/../" + b + "/" + c == ("/" + a + "/") + ("../" + b + "/" + c);
  }

  /** As written, a path that enters a writable directory and climbs out with `..` writes a file
      under no write prefix; the corrected write refuses it and changes nothing. */
  lemma TraversalWriteEscapes(files: map<string, string>, a: string, b: string, c: string, content: string)
    requires NameSegment(a) && NameSegment(b) && NameSegment(c)
    requires "/" + a + "/" in WritePrefixes
    requires !HasAnyPrefix("/" + b + "/" + c, WritePrefixes)
    ensures var path := "/" + a + "/../" + b + "/" + c;
            var args := map["path" := JStr(path), "content" := JStr(content)];
            HasAnyPrefix(path, WritePrefixes) &&
            WriteFileAsWritten(args, files, None) ==
              Returned(map["success" := JBool(true), "path" := JStr(path), "bytes_written" := JInt(|content|)],
                       files["/" + b + "/" + c := content]) &&
            WriteFile(args, files, None) ==
              Returned(Failure("Write access denied: " + path + ". Allowed prefixes: " + WritePrefixesText), files)
  {
    ClimbOut(a, b, c);
    ClimbStartsInside(a, b, c);
  }

  /** As written, a path that enters a readable directory and climbs out with `..` returns the
      text of a file under no read prefix; the corrected read refuses it. */
  lemma TraversalReadEscapes(files: map<string, string>, a: string, b: string, c: string)
    requires NameSegment(a) && NameSegment(b) && NameSegment(c)
    requires "/" + a + "/" in ReadPrefixes
    requires !HasAnyPrefix("/" + b + "/" + c, ReadPrefixes)
    requires "/" + b + "/" + c in files
    ensures var path := "/" + a + "/../" + b + "/" + c;
            var args := map["path" := JStr(path)];
            HasAnyPrefix(path, ReadPrefixes) &&
            ReadFileAsWritten(args, files, None) ==
              Returned(map["success" := JBool(true), "path" := JStr(path),
                           "content" := JStr(HeadTail(files["/" + b + "/" + c], 50000, 25000))], files) &&
            ReadFile(args, files, None) ==
              Returned(Failure("Read access denied: " + path + ". Allowed prefixes: " + ReadPrefixesText), files)
  {
    ClimbOut(a, b, c);
    ClimbStartsInside(a, b, c);
  }

  /** No read or write prefix names a directory that starts with `e`. */
  lemma NoPrefixStartsWithE(path: string)
    requires |path| >= 2 && path[1] == 'e'
    ensures !HasAnyPrefix(path, ReadPrefixes) && !HasAnyPrefix(path, WritePrefixes)
  {
    forall p | p in ReadPrefixes ensures !StartsWith(path, p) {
      assert |p| >= 2 && p[1] != 'e';
    }
    WritableIsReadable(path);
  }

  /** "/workspace/../etc/x" and "/inbox/../etc/passwd" are such paths. */
  lemma EtcEscapes()
    ensures NameSegment("workspace") && NameSegment("inbox") && NameSegment("etc") && NameSegment("x") && NameSegment("passwd")
    ensures "/" + "workspace" + "/" in WritePrefixes && !HasAnyPrefix("/" + "etc" + "/" + "x", WritePrefixes)
    ensures "/" + "inbox" + "/" in ReadPrefixes && !HasAnyPrefix("/" + "etc" + "/" + "passwd", ReadPrefixes)
  {
    assert "/" + "workspace" + "/" == WritePrefixes[1];
    assert "/" + "inbox" + "/" == ReadPrefixes[0];
    NoPrefixStartsWithE("/" + "etc" + "/" + "x");
    NoPrefixStartsWithE("/" + "etc" + "/" + "passwd");
  }

  // ---------------------------------------------------------------- task management

  /** The stdout of a CLI call as a dict: its JSON parse, or {"raw": stdout.strip()} when it is not JSON. */
  function ParsedOrRaw(p: Option<Json>, stdout: string): Json
  { if p.Some? then p.value else JObj(map["raw" := JStr(Trim(stdout))]) }

  /** The flags `_exec_spawn_task` passes to `hortator spawn`. */
  function SpawnCommand(args: Dict, parent: string): (cmd: seq<Json>)
  {
    [JStr("hortator"), JStr("spawn"), JStr("--prompt"), Get(args, "prompt", JStr("")), JStr("--parent"), JStr(parent)]
    + (if Truthy(Get(args, "role", JNull)) then [JStr("--role"), args["role"]] else [])
    + (if Truthy(Get(args, "tier", JNull)) then [JStr("--tier"), args["tier"]] else [])
    + (if Truthy(Get(args, "capabilities", JNull)) then [JStr("--capabilities"), args["capabilities"]] else [])
    + (if Truthy(Get(args, "wait", JBool(false))) then [JStr("--wait")] else [])
    + [JStr("-o"), JStr("json")]
  }

  /** The spawn command always starts with the prompt and parent and ends with `-o json`; `--wait` comes just before when waiting. */
  lemma SpawnCommandShape(args: Dict, parent: string)
    ensures var cmd := SpawnCommand(args, parent);
      cmd[..6] == [JStr("hortator"), JStr("spawn"), JStr("--prompt"), Get(args, "prompt", JStr("")), JStr("--parent"), JStr(parent)]
      && cmd[|cmd| - 2..] == [JStr("-o"), JStr("json")]
      && (Truthy(Get(args, "wait", JBool(false))) ==> cmd[|cmd| - 3] == JStr("--wait"))
      && |cmd| == 8 + (if Truthy(Get(args, "role", JNull)) then 2 else 0) + (if Truthy(Get(args, "tier", JNull)) then 2 else 0)
                    + (if Truthy(Get(args, "capabilities", JNull)) then 2 else 0) + (if Truthy(Get(args, "wait", JBool(false))) then 1 else 0)
  {}

  function SpawnTask(args: Dict, parent: string, run: Runner, files: map<string, string>): (o: HandlerOutcome)
    ensures Untouched(o, files)
  {
    var prompt := Get(args, "prompt", JStr(""));
    if !Truthy(prompt) then Returned(Failure("prompt is required"), files)
    else
      var wait := Truthy(Get(args, "wait", JBool(false)));
      match run(SpawnCommand(args, parent), JInt(if wait then 600 else 30))
      case Expired(m) => Raised(m)
      case Failed(m) => Raised(m)
      case Exited(rc, out, err, parsed) =>
        if rc != 0 then
          Returned(Failure(if Trim(err) != "" then Trim(err) else "exit code " + IntToString(rc)), files)
        else
          var o := ParsedOrRaw(parsed, out);
          if !o.JObj? then Raised(NoAttribute(o, "get"))
          else
            var name := Get(o.fields, "name", JNull);
            Returned(map["success" := JBool(true),
                         "task_name" := if Truthy(name) then name else Get(o.fields, "task", JStr("")),
                         "phase" := Get(o.fields, "phase", JStr("")),
                         "output" := Get(o.fields, "output", JStr("")),
                         "async" := JBool(!wait)], files)
  }

  /** check_status, get_result and cancel_task share this shape: a task name is required. */
  function CheckStatus(args: Dict, run: Runner, files: map<string, string>): (o: HandlerOutcome)
    ensures Untouched(o, files)
  {
    var taskName := Get(args, "task_name", JStr(""));
    if !Truthy(taskName) then Returned(Failure("task_name is required"), files)
    else match run([JStr("hortator"), JStr("status"), taskName, JStr("-o"), JStr("json")], JInt(15))
      case Expired(m) => Raised(m)
      case Failed(m) => Raised(m)
      case Exited(rc, out, err, parsed) =>
        if rc != 0 then Returned(Failure(Trim(err)), files)
        else
          var o := ParsedOrRaw(parsed, out);
          if !o.JObj? then Raised(NoAttribute(o, "get"))
          else Returned(map["success" := JBool(true), "name" := taskName,
                            "phase" := Get(o.fields, "phase", JStr("Unknown")),
                            "message" := Get(o.fields, "message", JStr(""))], files)
  }

  function GetResult(args: Dict, run: Runner, files: map<string, string>): (o: HandlerOutcome)
    ensures Untouched(o, files)
  {
    var taskName := Get(args, "task_name", JStr(""));
    if !Truthy(taskName) then Returned(Failure("task_name is required"), files)
    else match run([JStr("hortator"), JStr("result"), taskName, JStr("-o"), JStr("json")], JInt(15))
      case Expired(m) => Raised(m)
      case Failed(m) => Raised(m)
      case Exited(rc, out, err, parsed) =>
        if rc != 0 then Returned(Failure(Trim(err)), files)
        else if parsed.None? then Returned(map["success" := JBool(true), "output" := JStr(Trim(out))], files)
        else if !parsed.value.JObj? then Raised(NoAttribute(parsed.value, "get"))
        else Returned(map["success" := JBool(true), "name" := taskName,
                          "phase" := Get(parsed.value.fields, "phase", JStr("")),
                          "output" := Get(parsed.value.fields, "output", JStr(""))], files)
  }

  function CancelTask(args: Dict, run: Runner, files: map<string, string>): (o: HandlerOutcome)
    ensures Untouched(o, files)
  {
    var taskName := Get(args, "task_name", JStr(""));
    if !Truthy(taskName) then Returned(Failure("task_name is required"), files)
    else match run([JStr("hortator"), JStr("cancel"), taskName], JInt(15))
      case Expired(m) => Raised(m)
      case Failed(m) => Raised(m)
      case Exited(rc, _, err, _) =>
        if rc != 0 then Returned(Failure(Trim(err)), files)
        else Returned(map["success" := JBool(true), "message" := JStr("Task " + PyStr(taskName) + " cancelled")], files)
  }

  /** The checkpoint_and_wait sentinel: a success carrying the flag and the summary. */
  function CheckpointAndWait(args: Dict): (r: Dict)
    ensures "success" in r && "_checkpoint_and_wait" in r && "summary" in r
    ensures r["success"] == JBool(true) && r["_checkpoint_and_wait"] == JBool(true)
    ensures r["summary"] == Get(args, "summary", JStr(""))
    ensures WellFormed(r)
  { map["success" := JBool(true), "_checkpoint_and_wait" := JBool(true), "summary" := Get(args, "summary", JStr(""))] }

  function ListRoles(run: Runner, files: map<string, string>): (o: HandlerOutcome)
    ensures Untouched(o, files)
  {
    match run([JStr("hortator"), JStr("roles"), JStr("list"), JStr("-o"), JStr("json")], JInt(15))
    case Expired(m) => Raised(m)
    case Failed(m) => Raised(m)
    case Exited(rc, _, err, parsed) =>
      if rc != 0 then Returned(Failure(Trim(err)), files)
      else if parsed.None? then Returned(Failure("Failed to parse roles output"), files)
      else Returned(map["success" := JBool(true), "roles" := parsed.value], files)
  }

  function DescribeRole(args: Dict, run: Runner, files: map<string, string>): (o: HandlerOutcome)
    ensures Untouched(o, files)
  {
    var name := Get(args, "name", JStr(""));
    if !Truthy(name) then Returned(Failure("name is required"), files)
    else match run([JStr("hortator"), JStr("roles"), JStr("describe"), name, JStr("-o"), JStr("json")], JInt(15))
      case Expired(m) => Raised(m)
      case Failed(m) => Raised(m)
      case Exited(rc, _, err, parsed) =>
        if rc != 0 then Returned(Failure(Trim(err)), files)
        else if parsed.None? then Returned(Failure("Failed to parse role output"), files)
        else Returned(map["success" := JBool(true), "role" := parsed.value], files)
  }

  // ---------------------------------------------------------------- dispatcher

  /** A known tool is one of the ten names. */
  lemma KnownToolNames(name: string)
    requires name in KnownTools
    ensures name == "spawn_task" || name == "check_status" || name == "get_result" || name == "cancel_task" ||
            name == "checkpoint_and_wait" || name == "list_roles" || name == "describe_role" || name == "run_shell" ||
            name == "read_file" || name == "write_file"
  {
    var i :| 0 <= i < |KnownTools| && KnownTools[i] == name;
  }

  /** The handler `execute_tool` selects; every handler but list_roles reads its arguments with `.get`. */
  function Handle(name: string, args: Json, parent: string, env: Env, files: map<string, string>,
                  run: Runner, io: Option<string>): (o: HandlerOutcome)
    ensures o.Returned? ==> WellFormed(o.result)
    ensures o.Returned? && o.files != files ==> (name == "write_file" && args.JObj? && "path" in args.fields
      && args.fields["path"].JStr? && HasAnyPrefix(Resolve(args.fields["path"].s), WritePrefixes)
      && Resolve(args.fields["path"].s) in o.files && o.files == files[Resolve(args.fields["path"].s) := o.files[Resolve(args.fields["path"].s)]])
  {
    if name !in KnownTools then Returned(Failure("Unknown tool: " + name), files)
    else
    KnownToolNames(name);
    if name == "list_roles" then ListRoles(run, files)
    else if !args.JObj? then Raised(NoAttribute(args, "get"))
    else if name == "spawn_task" then SpawnTask(args.fields, parent, run, files)
    else if name == "check_status" then CheckStatus(args.fields, run, files)
    else if name == "get_result" then GetResult(args.fields, run, files)
    else if name == "cancel_task" then CancelTask(args.fields, run, files)
    else if name == "checkpoint_and_wait" then Returned(CheckpointAndWait(args.fields), files)
    else if name == "describe_role" then DescribeRole(args.fields, run, files)
    else if name == "run_shell" then RunShell(args.fields, env, files, run)
    else if name == "read_file" then ReadFile(args.fields, files, io)
    else WriteFile(args.fields, files, io)
  }

  /**
   * `execute_tool`: total — an exception becomes {"success": False, "error": str(e)}.
   * Every result has a boolean "success"; a failure carries "error" or a shell "exit_code".
   * Only write_file changes the filesystem, and only at the file its path resolves to, under a write prefix.
   */
  function ExecuteTool(name: string, args: Json, parent: string, env: Env, files: map<string, string>,
                       run: Runner, io: Option<string>): (e: Effect)
    ensures WellFormed(e.result)
    ensures name !in KnownTools ==> e == Effect(Failure("Unknown tool: " + name), files)
    ensures e.files != files ==> (name == "write_file" && args.JObj? && "path" in args.fields
      && args.fields["path"].JStr? && HasAnyPrefix(Resolve(args.fields["path"].s), WritePrefixes)
      && Resolve(args.fields["path"].s) in e.files && e.files == files[Resolve(args.fields["path"].s) := e.files[Resolve(args.fields["path"].s)]])
  {
    match Handle(name, args, parent, env, files, run, io)
    case Returned(d, fs) => Effect(d, fs)
    case Raised(m) => Effect(Failure(m), files)
  }

  /** A read outside the five prefixes is refused without looking at the filesystem. */
  lemma ReadDeniedBeforeAccess(path: string, files1: map<string, string>, files2: map<string, string>, io1: Option<string>, io2: Option<string>)
    requires path != "" && !HasAnyPrefix(path, ReadPrefixes)
    ensures ReadFile(map["path" := JStr(path)], files1, io1).result
         == ReadFile(map["path" := JStr(path)], files2, io2).result
         == Failure("Read access denied: " + path + ". Allowed prefixes: " + ReadPrefixesText)
  {}

  /** A read under a read prefix returns the text of the file the path resolves to, head and
      tail kept when it exceeds 50000 characters, unless the resolved path leaves the prefixes. */
  lemma ReadReturnsContent(path: string, files: map<string, string>)
    requires HasAnyPrefix(path, ReadPrefixes)
    ensures !HasAnyPrefix(Resolve(path), ReadPrefixes) ==>
              ExecuteTool("read_file", JObj(map["path" := JStr(path)]), "", Env("", ""), files, (_, _) => Failed(""), None).result
                == Failure("Read access denied: " + path + ". Allowed prefixes: " + ReadPrefixesText)
    ensures HasAnyPrefix(Resolve(path), ReadPrefixes) && Resolve(path) !in files ==>
              ExecuteTool("read_file", JObj(map["path" := JStr(path)]), "", Env("", ""), files, (_, _) => Failed(""), None).result
                == Failure("File not found: " + path)
    ensures HasAnyPrefix(Resolve(path), ReadPrefixes) && Resolve(path) in files ==>
              ExecuteTool("read_file", JObj(map["path" := JStr(path)]), "", Env("", ""), files, (_, _) => Failed(""), None).result
                == map["success" := JBool(true), "path" := JStr(path), "content" := JStr(HeadTail(files[Resolve(path)], 50000, 25000))]
  {
    assert path != "" by { var p :| p in ReadPrefixes && StartsWith(path, p); }
  }

  /** A write whose path stays under a write prefix once resolved stores the content at the
      resolved path and reports its length; one that leaves the prefixes changes nothing. */
  lemma WriteStoresContent(args: Dict, files: map<string, string>)
    requires "path" in args && args["path"].JStr? && HasAnyPrefix(args["path"].s, WritePrefixes)
    requires "content" in args && args["content"].JStr?
    ensures var e := ExecuteTool("write_file", JObj(args), "", Env("", ""), files, (_, _) => Failed(""), None);
      HasAnyPrefix(Resolve(args["path"].s), WritePrefixes) ==>
        e.files == files[Resolve(args["path"].s) := args["content"].s]
        && e.result["bytes_written"] == JInt(|args["content"].s|)
        && e.result["success"] == JBool(true)
    ensures var e := ExecuteTool("write_file", JObj(args), "", Env("", ""), files, (_, _) => Failed(""), None);
      !HasAnyPrefix(Resolve(args["path"].s), WritePrefixes) ==>
        e == Effect(Failure("Write access denied: " + args["path"].s + ". Allowed prefixes: " + WritePrefixesText), files)
  {
    assert args["path"].s != "" by { var p :| p in WritePrefixes && StartsWith(args["path"].s, p); }
  }

  /** Two spellings of one file read back what either wrote. */
  lemma WriteThenRead(path: string, alias: string, content: string, files: map<string, string>)
    requires HasAnyPrefix(path, WritePrefixes) && HasAnyPrefix(Resolve(path), WritePrefixes)
    requires HasAnyPrefix(alias, ReadPrefixes) && Resolve(alias) == Resolve(path)
    ensures var written := ExecuteTool("write_file", JObj(map["path" := JStr(path), "content" := JStr(content)]), "", Env("", ""),
                                       files, (_, _) => Failed(""), None).files;
            ExecuteTool("read_file", JObj(map["path" := JStr(alias)]), "", Env("", ""), written, (_, _) => Failed(""), None).result
              == map["success" := JBool(true), "path" := JStr(alias), "content" := JStr(HeadTail(content, 50000, 25000))]
  {
    WriteStoresContent(map["path" := JStr(path), "content" := JStr(content)], files);
    WritableIsReadable(Resolve(path));
    var written := files[Resolve(path) := content];
    ReadReturnsContent(alias, written);
  }

  /** No tool call changes or removes a file outside the write prefixes: every file that
      differs afterwards sits at a resolved path under a write prefix. */
  lemma ToolWritesConfined(name: string, args: Json, parent: string, env: Env, files: map<string, string>,
                           run: Runner, io: Option<string>)
    ensures var e := ExecuteTool(name, args, parent, env, files, run, io);
            files.Keys <= e.files.Keys &&
            forall k :: k in e.files && (k !in files || e.files[k] != files[k]) ==>
              HasAnyPrefix(k, WritePrefixes) && Resolve(k) == k
  {
    var e := ExecuteTool(name, args, parent, env, files, run, io);
    if e.files != files {
      ResolveIdempotent(args.fields["path"].s);
    }
  }

  /** A successful spawn reports async exactly when it did not wait. */
  lemma SpawnAsyncIsNotWait(args: Dict, parent: string, run: Runner, files: map<string, string>)
    requires SpawnTask(args, parent, run, files).Returned?
    requires SpawnTask(args, parent, run, files).result["success"] == JBool(true)
    ensures SpawnTask(args, parent, run, files).result["async"] == JBool(!Truthy(Get(args, "wait", JBool(false))))
  {}

  /** The agent's filesystem, updated in place by write_file. */
  class Sandbox {
    var files: map<string, string>

    constructor (initial: map<string, string>)
      ensures files == initial
    { files := initial; }

    method Execute(name: string, args: Json, parent: string, env: Env, run: Runner, io: Option<string>)
      returns (result: Dict)
      modifies this
      ensures result == ExecuteTool(name, args, parent, env, old(files), run, io).result
      ensures files == ExecuteTool(name, args, parent, env, old(files), run, io).files
    {
      var e := ExecuteTool(name, args, parent, env, files, run, io);
      files := e.files;
      result := e.result;
    }
  }
}
