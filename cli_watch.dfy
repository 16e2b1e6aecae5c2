// The `hortator watch` dashboard's pure parts: thousands formatting, flattening the task
// tree into display rows, and the cursor and namespace state transitions of `Update`
// (cmd/hortator/cmd/watch.go).
module CliWatch {
  import opened Strs
  import opened Wrappers

  // ---------------------------------------------------------------- formatInt

  /** What `formatInt` renders: the plain decimal below 1000 (negative numbers included),
      otherwise the digits grouped in threes from the right. */
  function FormatIntSpec(n: int): string
  { if n < 1000 then IntToString(n) else GroupThousands(NatToString(n)) }

  /** `formatInt`: peel three digits at a time off the right end, then join with commas. */
  method FormatInt(n: int) returns (r: string)
    ensures r == FormatIntSpec(n)
  {
    var s := IntToString(n);
    if n < 1000 {
      return s;
    }
    var parts: seq<string> := [];
    while |s| > 3
      invariant GroupThousands(NatToString(n)) == GroupThousands(s) + CommaEach(parts)
      decreases |s|
    {
      GroupStep(s, parts);
      parts := [s[|s| - 3..]] + parts;
      s := s[..|s| - 3];
    }
    JoinCons(s, parts, ",");
    parts := [s] + parts;
    r := Join(parts, ",");
  }

  /** Each part preceded by a comma. */
  function CommaEach(parts: seq<string>): string
  { if parts == [] then "" else "," + parts[0] + CommaEach(parts[1..]) }

  lemma GroupStep(s: string, parts: seq<string>)
    requires |s| > 3
    ensures GroupThousands(s) + CommaEach(parts) == GroupThousands(s[..|s| - 3]) + CommaEach([s[|s| - 3..]] + parts)
  {
    var head, tail := s[..|s| - 3], s[|s| - 3..];
    assert GroupThousands(s) == GroupThousands(head) + "," + tail;
    var more := [tail] + parts;
    assert more[0] == tail && more[1..] == parts;
    assert CommaEach(more) == "," + tail + CommaEach(parts);
    var g := GroupThousands(head);
    AppendAssoc(g, ",", tail);
    AppendAssoc(g, "," + tail, CommaEach(parts));
  }

  lemma {:induction false} JoinCons(s: string, parts: seq<string>, sep: string)
    requires sep == ","
    ensures Join([s] + parts, sep) == s + CommaEach(parts)
    decreases |parts|
  {
    if parts != [] {
      assert ([s] + parts)[1..] == parts;
      JoinCons(parts[0], parts[1..], sep);
      assert [parts[0]] + parts[1..] == parts;
    }
  }

  /** For n >= 1000, removing the commas gives back the decimal digits. */
  lemma FormatIntDigits(n: int)
    requires n >= 1000
    ensures DropCommas(FormatIntSpec(n)) == NatToString(n)
  {
    GroupThousandsDigits(NatToString(n));
  }

  /** For n >= 1000, the leading group has one to three digits and every other group three. */
  lemma FormatIntGroups(n: int)
    requires n >= 1000
    ensures var g := Split(FormatIntSpec(n), ',');
      |g| >= 2 && 1 <= |g[0]| <= 3 && forall i :: 1 <= i < |g| ==> |g[i]| == 3
  {
    var d := NatToString(n);
    GroupThousandsShape(d);
    NatToStringValue(n);
    if |d| <= 3 { ThreeDigitsSmall(d); }
    var head, tail := d[..|d| - 3], d[|d| - 3..];
    NoCommaSlices(d, |d| - 3);
    SplitAppendSep(GroupThousands(head), tail, ',');
  }

  lemma ThreeDigitsSmall(d: string)
    requires |d| <= 3 && forall i :: 0 <= i < |d| ==> '0' <= d[i] <= '9'
    ensures DigitsValue(d) < 1000
    decreases |d|
  {
    if d != [] { ThreeDigitsSmall(d[..|d| - 1]); }
  }

  // ---------------------------------------------------------------- flattenTree

  /** The fields of an AgentTask the dashboard's tree reads. */
  datatype WTask = WTask(name: string, parent: string, phase: string)

  /** A display row: the task, its depth in the tree and its connector prefix. */
  datatype TaskItem = TaskItem(task: WTask, depth: nat, prefix: string)

  const LastConnector := "└─ "
  const MidConnector := "├─ "

  /** Child lists are well-founded: every child name ranks strictly below its parent's. */
  predicate Ranked(childMap: map<string, seq<string>>, rank: map<string, nat>)
  {
    forall p :: p in childMap ==> p in rank && forall c :: c in childMap[p] ==> c in rank && rank[c] < rank[p]
  }

  /** The name index maps every name to a task of that name. */
  predicate Keyed(byName: map<string, WTask>)
  { forall n :: n in byName ==> byName[n].name == n }

  function Rank(rank: map<string, nat>, name: string): nat
  { if name in rank then rank[name] else 0 }

  function Kids(childMap: map<string, seq<string>>, p: string): seq<string>
  { if p in childMap then childMap[p] else [] }

  /** Consecutive rows never go down more than one level at a time (pre-order shape). */
  predicate Steps(items: seq<TaskItem>)
  { forall k :: 0 < k < |items| ==> items[k].depth <= items[k - 1].depth + 1 }

  /** Rows strictly below `depth`, each of an indexed task and drawn with a child connector. */
  predicate Below(items: seq<TaskItem>, depth: nat, byName: map<string, WTask>)
  {
    forall k :: 0 <= k < |items| ==>
      items[k].depth > depth && items[k].task in byName.Values
      && (items[k].prefix == LastConnector || items[k].prefix == MidConnector)
  }

  lemma BelowAppend(a: seq<TaskItem>, b: seq<TaskItem>, depth: nat, byName: map<string, WTask>)
    requires Below(a, depth, byName) && Below(b, depth, byName)
    ensures Below(a + b, depth, byName)
  {
    forall k | 0 <= k < |a + b| ensures (a + b)[k] == (if k < |a| then a[k] else b[k - |a|]) { }
  }

  /** `flattenTree`: the task's row, then the rows of each present child, depth plus one. */
  function Flatten(t: WTask, byName: map<string, WTask>, childMap: map<string, seq<string>>, rank: map<string, nat>,
                   depth: nat, prefix: string): (r: seq<TaskItem>)
    requires Ranked(childMap, rank) && Keyed(byName)
    ensures |r| >= 1 && r[0] == TaskItem(t, depth, prefix)
    ensures Steps(r)
    ensures Below(r[1..], depth, byName)
    decreases Rank(rank, t.name), 1
  {
    var rest := FlattenKids(t.name, byName, childMap, rank, depth, 0);
    StepsAppend([TaskItem(t, depth, prefix)], rest);
    assert ([TaskItem(t, depth, prefix)] + rest)[1..] == rest;
    [TaskItem(t, depth, prefix)] + rest
  }

  /** The rows of children `i..` of `parent`, skipping names with no task. */
  function FlattenKids(parent: string, byName: map<string, WTask>, childMap: map<string, seq<string>>,
                       rank: map<string, nat>, depth: nat, i: nat): (r: seq<TaskItem>)
    requires Ranked(childMap, rank) && Keyed(byName)
    requires i <= |Kids(childMap, parent)|
    ensures r != [] ==> r[0].depth == depth + 1
    ensures Steps(r)
    ensures Below(r, depth, byName)
    decreases Rank(rank, parent), 0, |Kids(childMap, parent)| - i
  {
    var kids := Kids(childMap, parent);
    if i == |kids| then []
    else
      var rest := FlattenKids(parent, byName, childMap, rank, depth, i + 1);
      if kids[i] !in byName then rest
      else
        var connector := if i == |kids| - 1 then LastConnector else MidConnector;
        assert parent in childMap && kids[i] in childMap[parent];
        assert byName[kids[i]].name == kids[i];
        var sub := Flatten(byName[kids[i]], byName, childMap, rank, depth + 1, connector);
        FlattenHeadBelow(sub, depth, byName, connector);
        StepsAppend(sub, rest);
        BelowAppend(sub, rest, depth, byName);
        sub + rest
  }

  lemma FlattenHeadBelow(sub: seq<TaskItem>, depth: nat, byName: map<string, WTask>, connector: string)
    requires |sub| >= 1 && sub[0].depth == depth + 1 && sub[0].prefix == connector && sub[0].task in byName.Values
    requires connector == LastConnector || connector == MidConnector
    requires Below(sub[1..], depth + 1, byName)
    ensures Below(sub, depth, byName)
  {
    forall k | 1 <= k < |sub| ensures sub[k] == sub[1..][k - 1] { }
  }

  lemma StepsAppend(a: seq<TaskItem>, b: seq<TaskItem>)
    requires Steps(a) && Steps(b)
    requires a != [] && b != [] ==> b[0].depth <= a[|a| - 1].depth + 1
    ensures Steps(a + b)
  {
    forall k | 0 < k < |a + b| ensures (a + b)[k].depth <= (a + b)[k - 1].depth + 1 {
      if k < |a| {
        assert (a + b)[k] == a[k] && (a + b)[k - 1] == a[k - 1];
      } else if k == |a| {
        assert (a + b)[k] == b[0] && (a + b)[k - 1] == a[|a| - 1];
      } else {
        assert (a + b)[k] == b[k - |a|] && (a + b)[k - 1] == b[k - 1 - |a|];
      }
    }
  }

  // ------------------------------------------------ what the flattened rows contain

  /** The rows of `items` at depth `d`, in order. */
  function AtDepth(items: seq<TaskItem>, d: nat): seq<TaskItem>
  {
    if items == [] then [] else (if items[0].depth == d then [items[0]] else []) + AtDepth(items[1..], d)
  }

  lemma {:induction false} AtDepthAppend(a: seq<TaskItem>, b: seq<TaskItem>, d: nat)
    ensures AtDepth(a + b, d) == AtDepth(a, d) + AtDepth(b, d)
    decreases |a|
  {
    if a == [] {
      assert a + b == b;
    } else {
      assert (a + b)[0] == a[0] && (a + b)[1..] == a[1..] + b;
      AtDepthAppend(a[1..], b, d);
    }
  }

  lemma {:induction false} AtDepthBelow(items: seq<TaskItem>, d: nat, byName: map<string, WTask>)
    requires Below(items, d, byName)
    ensures AtDepth(items, d) == []
    decreases |items|
  {
    if items != [] {
      assert Below(items[1..], d, byName) by {
        forall k | 0 <= k < |items[1..]| ensures items[1..][k] == items[k + 1] { }
      }
      AtDepthBelow(items[1..], d, byName);
    }
  }

  /** The child rows `flattenTree` owes children `i..` of `parent`: one per child present in the
      index, in child order, one level below `depth`, the last child closing the list. */
  function ChildRows(parent: string, byName: map<string, WTask>, childMap: map<string, seq<string>>,
                     depth: nat, i: nat): seq<TaskItem>
    requires i <= |Kids(childMap, parent)|
    decreases |Kids(childMap, parent)| - i
  {
    var kids := Kids(childMap, parent);
    if i == |kids| then []
    else
      (if kids[i] in byName then [TaskItem(byName[kids[i]], depth + 1, if i == |kids| - 1 then LastConnector else MidConnector)] else [])
      + ChildRows(parent, byName, childMap, depth, i + 1)
  }

  /** The rows one level down from the children `i..` are exactly their own rows. */
  lemma {:induction false} FlattenKidsChildRows(parent: string, byName: map<string, WTask>, childMap: map<string, seq<string>>,
                                                rank: map<string, nat>, depth: nat, i: nat)
    requires Ranked(childMap, rank) && Keyed(byName)
    requires i <= |Kids(childMap, parent)|
    ensures AtDepth(FlattenKids(parent, byName, childMap, rank, depth, i), depth + 1) == ChildRows(parent, byName, childMap, depth, i)
    decreases |Kids(childMap, parent)| - i
  {
    var kids := Kids(childMap, parent);
    if i < |kids| {
      FlattenKidsChildRows(parent, byName, childMap, rank, depth, i + 1);
      var rest := FlattenKids(parent, byName, childMap, rank, depth, i + 1);
      if kids[i] in byName {
        var connector := if i == |kids| - 1 then LastConnector else MidConnector;
        assert parent in childMap && kids[i] in childMap[parent];
        var sub := Flatten(byName[kids[i]], byName, childMap, rank, depth + 1, connector);
        AtDepthBelow(sub[1..], depth + 1, byName);
        assert AtDepth(sub, depth + 1) == [sub[0]] + AtDepth(sub[1..], depth + 1);
        AtDepthAppend(sub, rest, depth + 1);
      }
    }
  }

  /** The rows directly below a task's own row are its present children, in order, with the
      closing connector on the last child. */
  lemma FlattenChildRows(t: WTask, byName: map<string, WTask>, childMap: map<string, seq<string>>, rank: map<string, nat>,
                         depth: nat, prefix: string)
    requires Ranked(childMap, rank) && Keyed(byName)
    ensures AtDepth(Flatten(t, byName, childMap, rank, depth, prefix), depth + 1) == ChildRows(t.name, byName, childMap, depth, 0)
  {
    var r := Flatten(t, byName, childMap, rank, depth, prefix);
    assert r[1..] == FlattenKids(t.name, byName, childMap, rank, depth, 0);
    FlattenKidsChildRows(t.name, byName, childMap, rank, depth, 0);
  }

  /** How many rows a task's subtree takes: its own, plus its present children's subtrees. */
  function TreeSize(name: string, byName: map<string, WTask>, childMap: map<string, seq<string>>, rank: map<string, nat>): nat
    requires Ranked(childMap, rank)
    decreases Rank(rank, name), 1
  {
    1 + KidsSize(name, byName, childMap, rank, 0)
  }

  function KidsSize(parent: string, byName: map<string, WTask>, childMap: map<string, seq<string>>, rank: map<string, nat>,
                    i: nat): nat
    requires Ranked(childMap, rank)
    requires i <= |Kids(childMap, parent)|
    decreases Rank(rank, parent), 0, |Kids(childMap, parent)| - i
  {
    var kids := Kids(childMap, parent);
    if i == |kids| then 0
    else
      assert parent in childMap && kids[i] in childMap[parent];
      (if kids[i] in byName then TreeSize(kids[i], byName, childMap, rank) else 0) + KidsSize(parent, byName, childMap, rank, i + 1)
  }

  /** A task's rows number one plus its present children's subtree sizes, whatever its depth and prefix. */
  lemma {:induction false} FlattenSize(t: WTask, byName: map<string, WTask>, childMap: map<string, seq<string>>,
                                       rank: map<string, nat>, depth: nat, prefix: string)
    requires Ranked(childMap, rank) && Keyed(byName)
    ensures |Flatten(t, byName, childMap, rank, depth, prefix)| == TreeSize(t.name, byName, childMap, rank)
    decreases Rank(rank, t.name), 1
  {
    FlattenKidsSize(t.name, byName, childMap, rank, depth, 0);
  }

  lemma {:induction false} FlattenKidsSize(parent: string, byName: map<string, WTask>, childMap: map<string, seq<string>>,
                                           rank: map<string, nat>, depth: nat, i: nat)
    requires Ranked(childMap, rank) && Keyed(byName)
    requires i <= |Kids(childMap, parent)|
    ensures |FlattenKids(parent, byName, childMap, rank, depth, i)| == KidsSize(parent, byName, childMap, rank, i)
    decreases Rank(rank, parent), 0, |Kids(childMap, parent)| - i
  {
    var kids := Kids(childMap, parent);
    if i < |kids| {
      FlattenKidsSize(parent, byName, childMap, rank, depth, i + 1);
      if kids[i] in byName {
        assert parent in childMap && kids[i] in childMap[parent];
        FlattenSize(byName[kids[i]], byName, childMap, rank, depth + 1, if i == |kids| - 1 then LastConnector else MidConnector);
      }
    }
  }

  // ---------------------------------------------------------------- fetchTasks

  /** The name index built by `fetchTasks`: a later task of the same name replaces an earlier one. */
  function ByNameOf(tasks: seq<WTask>): (m: map<string, WTask>)
    ensures Keyed(m)
    ensures forall n :: n in m ==> m[n] in tasks
    ensures forall t :: t in tasks ==> t.name in m
  {
    if tasks == [] then map[]
    else var last := tasks[|tasks| - 1]; ByNameOf(tasks[..|tasks| - 1])[last.name := last]
  }

  /** The child map built by `fetchTasks`: child names grouped by non-empty parent, in list order. */
  function ChildMapOf(tasks: seq<WTask>): (m: map<string, seq<string>>)
    ensures forall p :: p in m ==> p != "" && forall c :: c in m[p] ==> exists t :: t in tasks && t.name == c && t.parent == p
  {
    if tasks == [] then map[]
    else
      var prev, last := ChildMapOf(tasks[..|tasks| - 1]), tasks[|tasks| - 1];
      if last.parent == "" then prev
      else prev[last.parent := Kids(prev, last.parent) + [last.name]]
  }

  /** The root names: tasks without a parent, in list order. */
  function RootsOf(tasks: seq<WTask>): seq<string>
  {
    if tasks == [] then []
    else var last := tasks[|tasks| - 1]; RootsOf(tasks[..|tasks| - 1]) + (if last.parent == "" then [last.name] else [])
  }

  /** Every parent link goes from a lower-ranked child to a higher-ranked parent. */
  predicate TasksRanked(tasks: seq<WTask>, rank: map<string, nat>)
  {
    forall t :: t in tasks && t.parent != "" ==> t.name in rank && t.parent in rank && rank[t.name] < rank[t.parent]
  }

  lemma ChildMapRanked(tasks: seq<WTask>, rank: map<string, nat>)
    requires TasksRanked(tasks, rank)
    ensures Ranked(ChildMapOf(tasks), rank)
  {
  }

  /** Top-level rows are roots with no prefix; deeper rows carry a child connector; all are indexed tasks. */
  predicate ForestRows(items: seq<TaskItem>, roots: seq<string>, byName: map<string, WTask>)
  {
    forall k :: 0 <= k < |items| ==>
      items[k].task in byName.Values
      && (items[k].depth == 0 ==> items[k].prefix == "" && items[k].task.name in roots)
      && (items[k].depth > 0 ==> items[k].prefix == LastConnector || items[k].prefix == MidConnector)
  }

  /** The rows of each present root in turn. */
  function Forest(roots: seq<string>, byName: map<string, WTask>, childMap: map<string, seq<string>>,
                  rank: map<string, nat>): seq<TaskItem>
    requires Ranked(childMap, rank) && Keyed(byName)
  {
    if roots == [] then []
    else
      var rest := Forest(roots[1..], byName, childMap, rank);
      if roots[0] !in byName then rest
      else Flatten(byName[roots[0]], byName, childMap, rank, 0, "") + rest
  }

  /** The forest's rows start at the top level, go down at most one level at a time, and sit
      where they belong: top rows are roots without a prefix, deeper rows carry a connector. */
  lemma {:induction false} ForestShape(roots: seq<string>, byName: map<string, WTask>, childMap: map<string, seq<string>>,
                                       rank: map<string, nat>)
    requires Ranked(childMap, rank) && Keyed(byName)
    ensures Forest(roots, byName, childMap, rank) != [] ==> Forest(roots, byName, childMap, rank)[0].depth == 0
    ensures Steps(Forest(roots, byName, childMap, rank))
    ensures ForestRows(Forest(roots, byName, childMap, rank), roots, byName)
    decreases |roots|
  {
    if roots != [] {
      var rest := Forest(roots[1..], byName, childMap, rank);
      ForestShape(roots[1..], byName, childMap, rank);
      RootsWiden(rest, roots, byName);
      if roots[0] in byName {
        var sub := Flatten(byName[roots[0]], byName, childMap, rank, 0, "");
        TreeRows(sub, roots, byName);
        StepsAppend(sub, rest);
        ForestRowsAppend(sub, rest, roots, byName);
      }
    }
  }

  lemma RootsWiden(rest: seq<TaskItem>, roots: seq<string>, byName: map<string, WTask>)
    requires roots != [] && ForestRows(rest, roots[1..], byName)
    ensures ForestRows(rest, roots, byName)
  {
    forall k | 0 <= k < |rest| && rest[k].depth == 0 ensures rest[k].task.name in roots {
      assert rest[k].task.name in roots[1..];
    }
  }

  lemma TreeRows(sub: seq<TaskItem>, roots: seq<string>, byName: map<string, WTask>)
    requires roots != [] && roots[0] in byName && Keyed(byName)
    requires |sub| >= 1 && sub[0] == TaskItem(byName[roots[0]], 0, "") && Below(sub[1..], 0, byName)
    ensures ForestRows(sub, roots, byName)
  {
    forall k | 1 <= k < |sub| ensures sub[k] == sub[1..][k - 1] { }
  }

  lemma ForestRowsAppend(a: seq<TaskItem>, b: seq<TaskItem>, roots: seq<string>, byName: map<string, WTask>)
    requires ForestRows(a, roots, byName) && ForestRows(b, roots, byName)
    ensures ForestRows(a + b, roots, byName)
  {
    forall k | 0 <= k < |a + b| ensures (a + b)[k] == (if k < |a| then a[k] else b[k - |a|]) { }
  }

  /** The top-level rows of the forest: one per root present in the index, in root order, without a prefix. */
  function TopRows(roots: seq<string>, byName: map<string, WTask>): seq<TaskItem>
  {
    if roots == [] then []
    else (if roots[0] in byName then [TaskItem(byName[roots[0]], 0, "")] else []) + TopRows(roots[1..], byName)
  }

  /** The forest's length: the subtree sizes of the present roots added up. */
  function ForestSize(roots: seq<string>, byName: map<string, WTask>, childMap: map<string, seq<string>>,
                      rank: map<string, nat>): nat
    requires Ranked(childMap, rank)
  {
    if roots == [] then 0
    else (if roots[0] in byName then TreeSize(roots[0], byName, childMap, rank) else 0) + ForestSize(roots[1..], byName, childMap, rank)
  }

  /** Every present root gets exactly one top-level row, in root order, and each root adds its
      whole subtree's rows. */
  lemma {:induction false} ForestContents(roots: seq<string>, byName: map<string, WTask>, childMap: map<string, seq<string>>,
                                          rank: map<string, nat>)
    requires Ranked(childMap, rank) && Keyed(byName)
    ensures AtDepth(Forest(roots, byName, childMap, rank), 0) == TopRows(roots, byName)
    ensures |Forest(roots, byName, childMap, rank)| == ForestSize(roots, byName, childMap, rank)
    decreases |roots|
  {
    if roots != [] {
      ForestContents(roots[1..], byName, childMap, rank);
      if roots[0] in byName {
        var sub := Flatten(byName[roots[0]], byName, childMap, rank, 0, "");
        var rest := Forest(roots[1..], byName, childMap, rank);
        AtDepthBelow(sub[1..], 0, byName);
        assert AtDepth(sub, 0) == [sub[0]] + AtDepth(sub[1..], 0);
        AtDepthAppend(sub, rest, 0);
        FlattenSize(byName[roots[0]], byName, childMap, rank, 0, "");
      }
    }
  }

  /** `fetchTasks` once the list has arrived: index the tasks, pick the roots (the focused task
      alone when one is set), and flatten each root present in the index. */
  method FetchTasks(tasks: seq<WTask>, focusTask: string, rank: map<string, nat>) returns (items: seq<TaskItem>)
    requires TasksRanked(tasks, rank)
    ensures Ranked(ChildMapOf(tasks), rank)
    ensures items == Forest(if focusTask != "" then [focusTask] else RootsOf(tasks), ByNameOf(tasks), ChildMapOf(tasks), rank)
  {
    var byName, childMap, roots := IndexTasks(tasks);
    if focusTask != "" {
      roots := [focusTask];
    }
    ChildMapRanked(tasks, rank);
    items := FlattenRoots(roots, byName, childMap, rank);
  }

  /** The first loop of `fetchTasks`: the name index, the child map and the roots. */
  method IndexTasks(tasks: seq<WTask>) returns (byName: map<string, WTask>, childMap: map<string, seq<string>>, roots: seq<string>)
    ensures byName == ByNameOf(tasks) && childMap == ChildMapOf(tasks) && roots == RootsOf(tasks)
  {
    byName, childMap, roots := map[], map[], [];
    var i := 0;
    while i < |tasks|
      invariant 0 <= i <= |tasks|
      invariant byName == ByNameOf(tasks[..i]) && childMap == ChildMapOf(tasks[..i]) && roots == RootsOf(tasks[..i])
    {
      assert tasks[..i + 1][..i] == tasks[..i];
      var t := tasks[i];
      byName := byName[t.name := t];
      if t.parent != "" {
        childMap := childMap[t.parent := Kids(childMap, t.parent) + [t.name]];
      } else {
        roots := roots + [t.name];
      }
      i := i + 1;
    }
    assert tasks[..|tasks|] == tasks;
  }

  /** The second loop of `fetchTasks`: flatten each root found in the index, skipping the others. */
  method FlattenRoots(roots: seq<string>, byName: map<string, WTask>, childMap: map<string, seq<string>>,
                      rank: map<string, nat>) returns (items: seq<TaskItem>)
    requires Ranked(childMap, rank) && Keyed(byName)
    ensures items == Forest(roots, byName, childMap, rank)
  {
    items := [];
    var j := 0;
    while j < |roots|
      invariant 0 <= j <= |roots|
      invariant items + Forest(roots[j..], byName, childMap, rank) == Forest(roots, byName, childMap, rank)
    {
      ForestAdvance(items, roots, j, byName, childMap, rank);
      items := items + RootRows(roots[j], byName, childMap, rank);
      j := j + 1;
    }
    assert roots[j..] == [];
  }

  lemma AppendAssoc<T>(a: seq<T>, b: seq<T>, c: seq<T>)
    ensures (a + b) + c == a + (b + c)
  {
  }

  /** The rows one root contributes: its tree when it is in the index, nothing otherwise. */
  function RootRows(root: string, byName: map<string, WTask>, childMap: map<string, seq<string>>,
                    rank: map<string, nat>): seq<TaskItem>
    requires Ranked(childMap, rank) && Keyed(byName)
  {
    if root in byName then Flatten(byName[root], byName, childMap, rank, 0, "") else []
  }

  /** One root's rows, then the rest of the forest. */
  lemma ForestStep(roots: seq<string>, byName: map<string, WTask>, childMap: map<string, seq<string>>, rank: map<string, nat>)
    requires Ranked(childMap, rank) && Keyed(byName) && roots != []
    ensures Forest(roots, byName, childMap, rank) ==
              RootRows(roots[0], byName, childMap, rank) + Forest(roots[1..], byName, childMap, rank)
  {
  }

  /** Taking root `j`'s rows into the prefix keeps prefix-plus-rest equal to the whole forest. */
  lemma ForestAdvance(items: seq<TaskItem>, roots: seq<string>, j: nat, byName: map<string, WTask>,
                      childMap: map<string, seq<string>>, rank: map<string, nat>)
    requires Ranked(childMap, rank) && Keyed(byName) && j < |roots|
    requires items + Forest(roots[j..], byName, childMap, rank) == Forest(roots, byName, childMap, rank)
    ensures (items + RootRows(roots[j], byName, childMap, rank)) + Forest(roots[j + 1..], byName, childMap, rank)
              == Forest(roots, byName, childMap, rank)
  {
    ForestStep(roots[j..], byName, childMap, rank);
    assert roots[j..][1..] == roots[j + 1..];
    AppendAssoc(items, RootRows(roots[j], byName, childMap, rank), Forest(roots[j + 1..], byName, childMap, rank));
  }

  // ---------------------------------------------------------------- Update

  /** The dashboard state `Update` reads and writes (sizes, styles and clients left out). */
  datatype Model = Model(
    tasks: seq<TaskItem>, cursor: int, width: int, height: int,
    namespace: string, namespaces: seq<string>, nsIndex: int, allNS: bool,
    lastErr: Option<string>, logLines: seq<string>,
    showLogs: bool, showDetail: bool, showDescribe: bool, showSummary: bool,
    nsInputMode: bool, nsInputValue: string)

  /** The key names `Update` distinguishes (the strings Bubble Tea's `KeyMsg.String` yields:
      "q", "ctrl+c", "up", "k", "down", "j", "enter", "esc", "l", "r", "n", "N", "A", "D", "S"), and any other. */
  datatype Key = KeyQ | CtrlC | Up | KeyK | Down | KeyJ | Enter | Esc | KeyL | KeyR | KeyN | ShiftN | ShiftA | ShiftD | ShiftS | OtherKey

  /** The messages the program receives; an error is `Some(text)`. */
  datatype Msg =
    | KeyPress(key: Key)
    | WindowSize(w: int, h: int)
    | Tick
    | TasksArrived(items: seq<TaskItem>, err: Option<string>)
    | LogsArrived(lines: seq<string>, err: Option<string>)
    | NamespacesArrived(names: seq<string>, err: Option<string>)

  /** The command returned alongside the new state. */
  datatype Cmd = NoCmd | Quit | FetchTasksCmd | FetchLogsCmd | FetchTasksAndTick | InputCmd

  /** Go's `%`, which truncates toward zero. */
  function GoRem(a: int, b: int): (r: int)
    requires b > 0
    ensures a >= 0 ==> 0 <= r < b
  { if a >= 0 then a % b else -((-a) % b) }

  /** The index of the first occurrence of `x`, if any. */
  function FirstIndex(xs: seq<string>, x: string): (r: Option<nat>)
    ensures r.Some? ==> r.value < |xs| && xs[r.value] == x && forall i :: 0 <= i < r.value ==> xs[i] != x
    ensures r.None? ==> x !in xs
  {
    if xs == [] then None
    else if xs[0] == x then Some(0)
    else match FirstIndex(xs[1..], x) {
      case None => None
      case Some(i) => Some(i + 1)
    }
  }

  /** `model.Update` and `updateNsInput`. `edited` is the text field's value after the text
      input widget has handled a key, which is all the model needs of that widget. */
  function Update(m: Model, msg: Msg, edited: string): (Model, Cmd)
  {
    if m.nsInputMode then UpdateNsInput(m, msg, edited)
    else match msg {
      case KeyPress(key) => UpdateKey(m, key)
      case WindowSize(w, h) => (m.(width := w, height := h), NoCmd)
      case Tick => (m, FetchTasksAndTick)
      case TasksArrived(items, err) =>
        var m1 := if err.Some? then m.(lastErr := err)
                  else m.(lastErr := err, tasks := items,
                          cursor := if m.cursor >= |items| && |items| > 0 then |items| - 1 else m.cursor);
        (m1, if m1.showLogs && |m1.tasks| > 0 then FetchLogsCmd else NoCmd)
      case LogsArrived(lines, err) => (if err.None? then m.(logLines := lines) else m, NoCmd)
      case NamespacesArrived(names, err) =>
        if err.Some? then (m, NoCmd)
        else
          var idx := FirstIndex(names, m.namespace);
          (m.(namespaces := names, nsIndex := if idx.Some? then idx.value else m.nsIndex), NoCmd)
    }
  }

  function UpdateKey(m: Model, key: Key): (Model, Cmd)
  {
    match key {
      case KeyQ => (m, Quit)
      case CtrlC => (m, Quit)
      case Up => (CursorUp(m), NoCmd)
      case KeyK => (CursorUp(m), NoCmd)
      case Down => (CursorDown(m), NoCmd)
      case KeyJ => (CursorDown(m), NoCmd)
      case Enter => (m.(showDetail := !m.showDetail, showDescribe := false), NoCmd)
      case KeyL =>
        var m1 := m.(showLogs := !m.showLogs);
        if m1.showLogs && |m1.tasks| > 0 then (m1, FetchLogsCmd) else (m1.(logLines := []), NoCmd)
      case KeyR => (m, FetchTasksCmd)
      case KeyN => (m.(nsInputMode := true, nsInputValue := m.namespace), NoCmd)
      case ShiftN =>
        // The fallback stands for a negative index, where Go's slice would panic; `Inv` keeps
        // `nsIndex` non-negative, so under it `i` is never negative and the fallback is not taken.
        if |m.namespaces| > 0 then
          var i := GoRem(m.nsIndex - 1 + |m.namespaces|, |m.namespaces|);
          (m.(nsIndex := i, namespace := if 0 <= i then m.namespaces[i] else m.namespace, allNS := false, cursor := 0, logLines := []),
           FetchTasksCmd)
        else (m, NoCmd)
      case ShiftA => (m.(allNS := !m.allNS, cursor := 0, logLines := []), FetchTasksCmd)
      case ShiftD => (m.(showDescribe := !m.showDescribe), NoCmd)
      case ShiftS => (m.(showSummary := !m.showSummary), NoCmd)
      case Esc => (m, NoCmd)
      case OtherKey => (m, NoCmd)
    }
  }

  function CursorUp(m: Model): Model
  { if m.cursor > 0 then m.(cursor := m.cursor - 1, logLines := []) else m }

  function CursorDown(m: Model): Model
  { if m.cursor < |m.tasks| - 1 then m.(cursor := m.cursor + 1, logLines := []) else m }

  function UpdateNsInput(m: Model, msg: Msg, edited: string): (Model, Cmd)
  {
    if msg.KeyPress? && msg.key.Enter? then (Accepted(m, Trim(m.nsInputValue)).(nsInputMode := false), FetchTasksCmd)
    else if msg.KeyPress? && msg.key.Esc? then (m.(nsInputMode := false), NoCmd)
    else (m.(nsInputValue := edited), InputCmd)
  }

  /** Enter in the namespace field: a non-blank entry becomes the namespace and resets the view. */
  function Accepted(m: Model, ns: string): Model
  { if ns != "" then m.(namespace := ns, allNS := false, cursor := 0, logLines := []) else m }

  /** The cursor is never negative and stays on a row whenever there are rows; the namespace
      index is never negative. */
  predicate Inv(m: Model)
  { 0 <= m.cursor && (|m.tasks| > 0 ==> m.cursor < |m.tasks|) && 0 <= m.nsIndex }

  /** The starting state satisfies the invariant. */
  lemma InitialInv(namespace: string, allNS: bool)
    ensures Inv(Model([], 0, 0, 0, namespace, [], 0, allNS, None, [], false, false, false, false, false, ""))
  {
  }

  /** Every message keeps the invariant. */
  lemma UpdateKeepsInv(m: Model, msg: Msg, edited: string)
    requires Inv(m)
    ensures Inv(Update(m, msg, edited).0)
  {
    if m.nsInputMode {
      NsInputKeepsInv(m, msg, edited);
      assert Update(m, msg, edited) == UpdateNsInput(m, msg, edited);
    } else {
      if msg.KeyPress? {
        UpdateKeyKeepsInv(m, msg.key);
        assert Update(m, msg, edited) == UpdateKey(m, msg.key);
      } else if msg.TasksArrived? {
        TasksArrivedKeepsInv(m, msg.items, msg.err, edited);
      } else {
        OtherMsgKeepsInv(m, msg, edited);
      }
    }
  }

  lemma TasksArrivedKeepsInv(m: Model, items: seq<TaskItem>, err: Option<string>, edited: string)
    requires Inv(m) && !m.nsInputMode
    ensures Inv(Update(m, TasksArrived(items, err), edited).0)
  {
  }

  lemma OtherMsgKeepsInv(m: Model, msg: Msg, edited: string)
    requires Inv(m) && !m.nsInputMode && !msg.KeyPress? && !msg.TasksArrived?
    ensures Inv(Update(m, msg, edited).0)
  {
  }

  lemma UpdateKeyKeepsInv(m: Model, key: Key)
    requires Inv(m)
    ensures Inv(UpdateKey(m, key).0)
  {
  }

  lemma NsInputKeepsInv(m: Model, msg: Msg, edited: string)
    requires Inv(m)
    ensures Inv(UpdateNsInput(m, msg, edited).0)
  {
    if msg.KeyPress? && msg.key.Enter? {
      AcceptedKeepsInv(m, Trim(m.nsInputValue));
      assert UpdateNsInput(m, msg, edited).0 == Accepted(m, Trim(m.nsInputValue)).(nsInputMode := false);
    }
  }

  lemma AcceptedKeepsInv(m: Model, ns: string)
    requires Inv(m)
    ensures Inv(Accepted(m, ns).(nsInputMode := false))
  {
  }

  /** A cursor move changes the cursor by exactly one, inside the rows, and clears the log pane;
      at either end the key does nothing. */
  lemma CursorMoves(m: Model)
    requires Inv(m) && !m.nsInputMode
    ensures var up := Update(m, KeyPress(Up), "").0;
      if m.cursor > 0 then up == m.(cursor := m.cursor - 1, logLines := []) else up == m
    ensures var down := Update(m, KeyPress(Down), "").0;
      if m.cursor + 1 < |m.tasks| then down == m.(cursor := m.cursor + 1, logLines := []) else down == m
  {
  }

  /** Stepping down then up from a row that is not the last returns to that row. */
  lemma DownThenUp(m: Model)
    requires Inv(m) && !m.nsInputMode && m.cursor + 1 < |m.tasks|
    ensures Update(Update(m, KeyPress(KeyJ), "").0, KeyPress(KeyK), "").0.cursor == m.cursor
  {
  }

  /** "N" steps back through the namespaces cyclically and lands on the one it selects. */
  lemma PreviousNamespace(m: Model)
    requires Inv(m) && !m.nsInputMode && |m.namespaces| > 0
    ensures var m1 := Update(m, KeyPress(ShiftN), "").0;
      m1.nsIndex == (m.nsIndex + |m.namespaces| - 1) % |m.namespaces|
        && m1.namespace == m.namespaces[m1.nsIndex] && !m1.allNS && m1.cursor == 0
  {
  }

  /** A failed task fetch keeps the rows and the cursor and records the error. */
  lemma FailedFetchKeepsRows(m: Model, items: seq<TaskItem>, e: string)
    requires !m.nsInputMode
    ensures var m1 := Update(m, TasksArrived(items, Some(e)), "").0;
      m1.tasks == m.tasks && m1.cursor == m.cursor && m1.lastErr == Some(e)
  {
  }

  /** A successful fetch replaces the rows and pulls a cursor past the end back to the last row. */
  lemma FetchClampsCursor(m: Model, items: seq<TaskItem>)
    requires Inv(m) && !m.nsInputMode
    ensures var m1 := Update(m, TasksArrived(items, None), "").0;
      m1.tasks == items && m1.lastErr.None? && Inv(m1)
        && (m.cursor < |items| ==> m1.cursor == m.cursor)
        && (|items| > 0 && m.cursor >= |items| ==> m1.cursor == |items| - 1)
  {
  }
}
