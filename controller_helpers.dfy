/**
 * Helpers of the task reconciler (internal/controller/helpers.go): retention durations,
 * the log tail kept as a task's output, token-usage and result extraction from the agent's
 * logs, and the bookkeeping a finished child does on its parent.
 */
module ControllerHelpers {
  import opened Wrappers
  import opened Strs
  import opened Api

  // ---------------------------------------------------------------- parseDurationString

  /** Go's `time.ParseDuration`, which the model takes as given. */
  type GoDurationParser = string -> Option<Duration>

  predicate IsDigit(c: char) { '0' <= c <= '9' }

  /** The `^(\d+)d$` form: one or more digits followed by `d`. */
  predicate IsDayCount(s: string)
  { |s| >= 2 && s[|s| - 1] == 'd' && forall i :: 0 <= i < |s| - 1 ==> IsDigit(s[i]) }

  /** `parseDurationString`: Go's duration syntax first, then a whole number of days. */
  function ParseDurationString(s: string, goParse: GoDurationParser): (r: Result<Duration>)
    ensures goParse(s).Some? ==> r == Ok(goParse(s).value)
    ensures goParse(s).None? && !IsDayCount(s) ==> r == Err("invalid duration: " + s)
    ensures goParse(s).None? && IsDayCount(s) ==> r.Ok? && r.value >= 0 && r.value % Day == 0
  {
    if goParse(s).Some? then Ok(goParse(s).value)
    else if IsDayCount(s) then Ok(DigitsValue(s[..|s| - 1]) * Day)
    else Err("invalid duration: " + s)
  }

  /** "<N>d" means N days (Go's own parser rejects the unit `d`). */
  lemma ParseDays(n: nat, goParse: GoDurationParser)
    requires goParse(NatToString(n) + "d").None?
    ensures ParseDurationString(NatToString(n) + "d", goParse) == Ok(n * Day)
  {
    var s := NatToString(n) + "d";
    assert s[..|s| - 1] == NatToString(n);
    NatToStringValue(n);
  }

  // ---------------------------------------------------------------- collectPodLogs

  const MaxOutputLen := 16000

  /** The part of the agent's log `collectPodLogs` keeps: the last 16000 characters. */
  function LogTail(output: string): (r: string)
    ensures |r| <= MaxOutputLen
    ensures EndsWith(output, r)
    ensures |output| <= MaxOutputLen ==> r == output
    ensures |output| > MaxOutputLen ==> |r| == MaxOutputLen
  { if |output| > MaxOutputLen then output[|output| - MaxOutputLen..] else output }

  // ---------------------------------------------------------------- extractTokenUsage

  const TokensIn := "Tokens: in="
  const TokensOut := " out="
  const MaxInt64 := 0x7FFF_FFFF_FFFF_FFFF

  /** The length of the run of digits starting at `i`. */
  function DigitRun(s: string, i: nat): (n: nat)
    requires i <= |s|
    ensures i + n <= |s|
    ensures forall k :: i <= k < i + n ==> IsDigit(s[k])
    ensures i + n == |s| || !IsDigit(s[i + n])
    decreases |s| - i
  { if i < |s| && IsDigit(s[i]) then 1 + DigitRun(s, i + 1) else 0 }

  /** `strconv.ParseInt(d, 10, 64)` with its error ignored: out-of-range values saturate. */
  function ParseInt64(d: string): (v: int)
    requires forall k :: 0 <= k < |d| ==> '0' <= d[k] <= '9'
    ensures 0 <= v <= MaxInt64
    ensures DigitsValue(d) <= MaxInt64 ==> v == DigitsValue(d)
  { if DigitsValue(d) > MaxInt64 then MaxInt64 else DigitsValue(d) }

  /** A match of `Tokens: in=(\d+) out=(\d+)` starting at `p`, with both runs greedy. */
  function MatchTokensAt(s: string, p: nat): (r: Option<TokenUsage>)
    requires p <= |s|
    ensures r.Some? ==> OccursAt(s, TokensIn, p)
  {
    if !OccursAt(s, TokensIn, p) then None
    else
      var a := p + |TokensIn|;
      var n := DigitRun(s, a);
      if n == 0 || !OccursAt(s, TokensOut, a + n) then None
      else
        var b := a + n + |TokensOut|;
        var m := DigitRun(s, b);
        if m == 0 then None
        else Some(TokenUsage(ParseInt64(s[a..a + n]), ParseInt64(s[b..b + m])))
  }

  /** The leftmost match at or after `p` (`regexp.FindStringSubmatch`). */
  function FindTokens(s: string, p: nat): (r: Option<TokenUsage>)
    requires p <= |s|
    decreases |s| - p
  {
    match MatchTokensAt(s, p)
    case Some(u) => Some(u)
    case None => if p == |s| then None else FindTokens(s, p + 1)
  }

  /** Without the "Tokens: in=" marker nothing is extracted. */
  lemma {:induction false} NoMarkerNoTokens(s: string, p: nat)
    requires p <= |s|
    requires forall j :: p <= j ==> !OccursAt(s, TokensIn, j)
    ensures FindTokens(s, p) == None
    decreases |s| - p
  {
    if p < |s| { NoMarkerNoTokens(s, p + 1); }
  }

  /** A digit run is exactly as long as the digits placed there. */
  lemma {:induction false} DigitRunOf(s: string, i: nat, k: nat)
    requires i + k <= |s|
    requires forall j :: i <= j < i + k ==> IsDigit(s[j])
    requires i + k == |s| || !IsDigit(s[i + k])
    ensures DigitRun(s, i) == k
    decreases k
  {
    if k > 0 { DigitRunOf(s, i + 1, k - 1); }
  }

  /** A usage line built from two digit strings matches at its start. */
  lemma MatchDigits(s: string, da: string, db: string, post: string)
    requires da != "" && db != ""
    requires forall k :: 0 <= k < |da| ==> '0' <= da[k] <= '9'
    requires forall k :: 0 <= k < |db| ==> '0' <= db[k] <= '9'
    requires post == "" || !IsDigit(post[0])
    requires s == TokensIn + da + TokensOut + db + post
    ensures MatchTokensAt(s, 0) == Some(TokenUsage(ParseInt64(da), ParseInt64(db)))
  {
    var i := |TokensIn|;
    var j := i + |da| + |TokensOut|;
    FiveParts(TokensIn, da, TokensOut, db, post, s);
    assert OccursAt(s, TokensIn, 0);
    assert s[i + |da|] == TokensOut[0];
    DigitRunOf(s, i, |da|);
    assert OccursAt(s, TokensOut, i + |da|);
    if post != [] { assert s[j + |db|] == post[0]; }
    DigitRunOf(s, j, |db|);
  }

  /** Where each of five concatenated parts sits. */
  lemma FiveParts<T>(a: seq<T>, b: seq<T>, c: seq<T>, d: seq<T>, e: seq<T>, s: seq<T>)
    requires s == a + b + c + d + e
    ensures s[..|a|] == a && s[|a|..|a| + |b|] == b && s[|a| + |b|..|a| + |b| + |c|] == c
    ensures s[|a| + |b| + |c|..|a| + |b| + |c| + |d|] == d
    ensures forall k :: 0 <= k < |b| ==> s[|a| + k] == b[k]
    ensures forall k :: 0 <= k < |c| ==> s[|a| + |b| + k] == c[k]
    ensures forall k :: 0 <= k < |d| ==> s[|a| + |b| + |c| + k] == d[k]
    ensures forall k :: 0 <= k < |e| ==> s[|a| + |b| + |c| + |d| + k] == e[k]
  {
  }

  /** The runtime's usage line yields exactly the two counts it prints. */
  lemma TokensLine(a: nat, b: nat, post: string)
    requires a <= MaxInt64 && b <= MaxInt64
    requires post == "" || !IsDigit(post[0])
    ensures FindTokens(TokensIn + NatToString(a) + TokensOut + NatToString(b) + post, 0) == Some(TokenUsage(a, b))
  {
    var s := TokensIn + NatToString(a) + TokensOut + NatToString(b) + post;
    MatchDigits(s, NatToString(a), NatToString(b), post);
    NatToStringValue(a);
    NatToStringValue(b);
  }

  /** `extractTokenUsage`: set TokensUsed from the first usage line, else leave it alone. */
  method ExtractTokenUsage(task: AgentTask)
    modifies task
    ensures FindTokens(old(task.status.output), 0).None? ==> task.status == old(task.status)
    ensures FindTokens(old(task.status.output), 0).Some? ==>
              task.status == old(task.status).(tokensUsed := FindTokens(old(task.status.output), 0))
    ensures task.annotations == old(task.annotations)
  {
    if task.status.output == "" {
      return;
    }
    var m := FindTokens(task.status.output, 0);
    if m.Some? {
      task.status := task.status.(tokensUsed := m);
    }
  }

  // ---------------------------------------------------------------- extractResult

  const BeginMarker := "[hortator-result-begin]\n"
  const EndMarker := "\n[hortator-result-end]"

  /** `extractResult` exactly as written: when the end marker is found after the start of the
      begin marker but before its end, Go's slice expression panics (reported as `Err`). */
  function ExtractResultAsWritten(output: string): (r: Result<string>)
  {
    if output == "" then Ok(output)
    else
      var b := IndexOf(output, BeginMarker);
      var e := IndexOf(output, EndMarker);
      if b >= 0 && e > b then
        if b + |BeginMarker| <= e then Ok(Trim(output[b + |BeginMarker|..e]))
        else Err("slice bounds out of range")
      else Ok(output)
  }

  /** The two markers sharing their newline: the begin marker ends where the end marker starts. */
  const BeginText := "[hortator-result-begin]"
  const SharedNewline := BeginText + EndMarker

  lemma ExtractResultPanics()
    ensures ExtractResultAsWritten(SharedNewline).Err?
  {
    var s := SharedNewline;
    assert BeginMarker == BeginText + [EndMarker[0]];
    assert s[..|BeginMarker|] == BeginMarker;
    assert OccursAt(s, BeginMarker, 0);
    assert s[|BeginText|..] == EndMarker;
    assert OccursAt(s, EndMarker, |BeginText|);
    forall j | 0 <= j < |BeginText| ensures !OccursAt(s, EndMarker, j)
    {
      assert s[j] == BeginText[j];
      assert s[j..j + |EndMarker|][0] == s[j];
    }
  }

  /** `extractResult` as intended: the trimmed text between the markers when the end marker
      comes after the whole begin marker, otherwise the output unchanged. */
  function ExtractResult(output: string): (r: string)
    ensures IndexOf(output, BeginMarker) < 0 || IndexOf(output, EndMarker) < 0 ==> r == output
  {
    var b := IndexOf(output, BeginMarker);
    var e := IndexOf(output, EndMarker);
    if b >= 0 && e >= b + |BeginMarker| then Trim(output[b + |BeginMarker|..e]) else output
  }

  /** The correction changes nothing where the original does not panic. */
  lemma ExtractResultAgrees(output: string)
    requires ExtractResultAsWritten(output).Ok?
    ensures ExtractResultAsWritten(output).value == ExtractResult(output)
  {}

  /** On the panicking input the corrected version leaves the output alone. */
  lemma ExtractResultNoPanic()
    ensures ExtractResult(SharedNewline) == SharedNewline
  {
    ExtractResultPanics();
  }

  /** The end marker occurs neither in the body nor across the begin marker's closing
      newline and the body's start. */
  predicate NoEndMarkerIn(body: string)
  {
    !Contains("\n" + body, EndMarker)
  }

  /** Only the first character of the end marker is a newline, so an end marker never
      overlaps the start of another one. */
  lemma EndMarkerOneNewline(d: int)
    requires 1 <= d < |EndMarker|
    ensures EndMarker[d] != '\n'
  {}

  /** No end marker starts inside the begin marker's text: none of it is a newline. */
  lemma NoEndInBeginText(s: string, j: int)
    requires |BeginMarker| <= |s| && s[..|BeginMarker|] == BeginMarker
    requires 0 <= j < |BeginText|
    ensures !OccursAt(s, EndMarker, j)
  {
    if j + |EndMarker| <= |s| {
      assert s[j..j + |EndMarker|][0] == s[j] == BeginMarker[j];
      assert BeginMarker[j] != EndMarker[0];
    }
  }

  /** No end marker starts less than its own length before a real one. */
  lemma NoEndStraddling(s: string, e: int, j: int)
    requires 0 <= e && e + |EndMarker| <= |s| && s[e..e + |EndMarker|] == EndMarker
    requires e - |EndMarker| < j < e && 0 <= j
    ensures !OccursAt(s, EndMarker, j)
  {
    var d := e - j;
    assert s[j..j + |EndMarker|][d] == s[e] == EndMarker[0];
    EndMarkerOneNewline(d);
  }

  /** No end marker starts before `e` when the text before it is the begin marker followed
      by a body such that the begin marker's newline and the body hold no end marker. */
  lemma NoEarlyEnd(s: string, body: string, e: int, j: int)
    requires e == |BeginMarker| + |body| && e + |EndMarker| <= |s|
    requires s[..|BeginMarker|] == BeginMarker && s[|BeginMarker|..e] == body && s[e..e + |EndMarker|] == EndMarker
    requires NoEndMarkerIn(body)
    requires 0 <= j < e
    ensures !OccursAt(s, EndMarker, j)
  {
    var t := "\n" + body;
    var k := j - |BeginText|;
    if j < |BeginText| {
      NoEndInBeginText(s, j);
    } else if k + |EndMarker| <= |t| {
      assert s[|BeginText|..e] == t by {
        assert s[|BeginText|] == BeginMarker[|BeginText|] == '\n';
      }
      assert s[j..j + |EndMarker|] == t[k..k + |EndMarker|];
      assert !OccursAt(t, EndMarker, k);
    } else {
      NoEndStraddling(s, e, j);
    }
  }

  /** The corrected extraction on any output laid out as begin marker, body, end marker. */
  lemma ExtractBetween(s: string, body: string)
    requires |BeginMarker| + |body| + |EndMarker| <= |s|
    requires s[..|BeginMarker|] == BeginMarker
    requires s[|BeginMarker|..|BeginMarker| + |body|] == body
    requires s[|BeginMarker| + |body|..|BeginMarker| + |body| + |EndMarker|] == EndMarker
    requires NoEndMarkerIn(body)
    ensures ExtractResult(s) == Trim(body)
  {
    var e := |BeginMarker| + |body|;
    IndexOfFirst(s, BeginMarker, 0);
    forall j | 0 <= j < e ensures !OccursAt(s, EndMarker, j)
    {
      NoEarlyEnd(s, body, e, j);
    }
    IndexOfFirst(s, EndMarker, e);
  }

  /** Output written between the markers by the runtime comes back out, trimmed, whenever
      the end marker does not already occur in the body (counting the begin marker's
      closing newline): multi-line bodies included. */
  lemma ExtractResultRoundTrip(body: string, post: string)
    requires NoEndMarkerIn(body)
    ensures ExtractResult(BeginMarker + body + EndMarker + post) == Trim(body)
  {
    var s := BeginMarker + body + EndMarker + post;
    var e := |BeginMarker| + |body|;
    assert s[..|BeginMarker|] == BeginMarker;
    assert s[|BeginMarker|..e] == body;
    assert s[e..e + |EndMarker|] == EndMarker;
    ExtractBetween(s, body);
  }

  /** `extractResult` on the task, in its corrected form. */
  method ExtractResultInto(task: AgentTask)
    modifies task
    ensures task.status == old(task.status).(output := ExtractResult(old(task.status.output)))
    ensures task.annotations == old(task.annotations)
  {
    if task.status.output == "" {
      return;
    }
    task.status := task.status.(output := ExtractResult(task.status.output));
  }

  // ---------------------------------------------------------------- notifyParentTask

  /** `xs` with `x` appended unless it is already there. */
  function AddOnce(xs: seq<string>, x: string): (r: seq<string>)
  { if x in xs then xs else xs + [x] }

  /** `xs` without any occurrence of `x`, the rest in order. */
  function Without(xs: seq<string>, x: string): (r: seq<string>)
  { if xs == [] then [] else Without(xs[..|xs| - 1], x) + (if xs[|xs| - 1] == x then [] else [xs[|xs| - 1]]) }

  predicate NoDuplicates(xs: seq<string>)
  { forall i, j :: 0 <= i < j < |xs| ==> xs[i] != xs[j] }

  /** AddOnce records the child and never creates a duplicate. */
  lemma AddOnceSpec(xs: seq<string>, x: string)
    ensures x in AddOnce(xs, x)
    ensures forall y :: y in xs ==> y in AddOnce(xs, x)
    ensures NoDuplicates(xs) ==> NoDuplicates(AddOnce(xs, x))
    ensures xs <= AddOnce(xs, x) && |AddOnce(xs, x)| <= |xs| + 1
  {}

  /** Without removes every occurrence and keeps the multiplicity of everything else. */
  lemma {:induction false} WithoutCounts(xs: seq<string>, x: string)
    ensures multiset(Without(xs, x)) == multiset(xs)[x := 0]
    decreases |xs|
  {
    if xs != [] {
      WithoutCounts(xs[..|xs| - 1], x);
      assert xs == xs[..|xs| - 1] + [xs[|xs| - 1]];
    }
  }

  /** Without is an order-preserving filter: it distributes over concatenation. */
  lemma {:induction false} WithoutAppend(a: seq<string>, b: seq<string>, x: string)
    ensures Without(a + b, x) == Without(a, x) + Without(b, x)
    decreases |b|
  {
    if b == [] {
      assert a + b == a;
    } else {
      var b' := b[..|b| - 1];
      assert (a + b)[..|a + b| - 1] == a + b';
      assert (a + b)[|a + b| - 1] == b[|b| - 1];
      WithoutAppend(a, b', x);
    }
  }

  /** The parent's status after a child named `child` reports in. */
  function NotifiedStatus(st: TaskStatus, child: string): (r: TaskStatus)
  {
    var remaining := Without(st.pendingChildren, child);
    var s1 := st.(childTasks := AddOnce(st.childTasks, child), pendingChildren := remaining);
    if st.phase == Waiting && remaining == [] then s1.(phase := Pending, message := "Children completed, restarting agent")
    else s1
  }

  /** Removing `x` from a list holding only `x` leaves nothing. */
  lemma {:induction false} WithoutAll(xs: seq<string>, x: string)
    requires forall p :: p in xs ==> p == x
    ensures Without(xs, x) == []
    decreases |xs|
  {
    if xs != [] {
      var init := xs[..|xs| - 1];
      assert xs == init + [xs[|xs| - 1]];
      assert xs[|xs| - 1] in xs;
      forall p | p in init ensures p == x {
        assert p in xs;
      }
      WithoutAll(init, x);
    }
  }

  /** Every other element survives the removal of `x`. */
  lemma {:induction false} WithoutKeeps(xs: seq<string>, x: string, p: string)
    requires p in xs && p != x
    ensures p in Without(xs, x)
    decreases |xs|
  {
    var init := xs[..|xs| - 1];
    assert xs == init + [xs[|xs| - 1]];
    if p != xs[|xs| - 1] {
      WithoutKeeps(init, x, p);
    }
  }

  /** The parent wakes exactly when it was Waiting and the child was all it was waiting for. */
  lemma WakeIff(st: TaskStatus, child: string)
    ensures NotifiedStatus(st, child).phase == Pending <==>
              st.phase == Pending || (st.phase == Waiting && forall p :: p in st.pendingChildren ==> p == child)
  {
    if forall p :: p in st.pendingChildren ==> p == child {
      WithoutAll(st.pendingChildren, child);
    } else {
      var p :| p in st.pendingChildren && p != child;
      WithoutKeeps(st.pendingChildren, child, p);
    }
  }

  /** The loop that looks for the child among the parent's children. */
  method ContainsChild(xs: seq<string>, x: string) returns (found: bool)
    ensures found <==> x in xs
  {
    found := false;
    var i := 0;
    while i < |xs|
      invariant 0 <= i <= |xs|
      invariant x !in xs[..i]
    {
      if xs[i] == x {
        found := true;
        break;
      }
      i := i + 1;
    }
    if !found { assert xs[..i] == xs; }
  }

  /** The loop that filters the child out of the pending list. */
  method RemoveChild(xs: seq<string>, x: string) returns (remaining: seq<string>)
    ensures remaining == Without(xs, x)
  {
    remaining := [];
    var i := 0;
    while i < |xs|
      invariant 0 <= i <= |xs|
      invariant remaining == Without(xs[..i], x)
    {
      if xs[i] != x {
        remaining := remaining + [xs[i]];
      }
      assert xs[..i + 1][..i] == xs[..i];
      i := i + 1;
    }
    assert xs[..i] == xs;
  }

  /** `notifyParentTask` with the parent already looked up (`null` when the lookup failed).
      Writing the child's result into the parent's volume is not modelled. */
  method NotifyParentTask(childName: string, parentTaskId: string, parent: AgentTask?)
    modifies parent
    ensures parentTaskId == "" || parent == null ==> parent == null || parent.status == old(parent.status)
    ensures parentTaskId != "" && parent != null ==> parent.status == NotifiedStatus(old(parent.status), childName)
  {
    if parentTaskId == "" || parent == null {
      return;
    }
    var found := ContainsChild(parent.status.childTasks, childName);
    if !found {
      parent.status := parent.status.(childTasks := parent.status.childTasks + [childName]);
    }
    var remaining := RemoveChild(parent.status.pendingChildren, childName);
    parent.status := parent.status.(pendingChildren := remaining);
    if parent.status.phase == Waiting && |remaining| == 0 {
      parent.status := parent.status.(phase := Pending, message := "Children completed, restarting agent");
    }
  }
}
