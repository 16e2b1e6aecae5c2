// `hortator tree`: the parent-to-children map, the tree of nodes built from it and the
// ASCII rendering with box-drawing connectors (cmd/hortator/cmd/tree.go).
module CliTree {
  import opened Strs

  /** The fields of an AgentTask the tree command reads. */
  datatype Task = Task(name: string, tier: string, phase: string, duration: string, parent: string)

  datatype TreeNode = TreeNode(name: string, tier: string, phase: string, duration: string, children: seq<TreeNode>)

  /** Upper-cases the first character and keeps the rest. */
  function Capitalize(s: string): (r: string)
    ensures |r| == |s|
    ensures s == "" ==> r == ""
    ensures s != "" ==> r[0] == UpperChar(s[0]) && r[1..] == s[1..]
  {
    if s == "" then s else [UpperChar(s[0])] + s[1..]
  }

  /** Capitalising twice is capitalising once. */
  lemma CapitalizeIdempotent(s: string)
    ensures Capitalize(Capitalize(s)) == Capitalize(s)
  {
  }

  /** The tasks of `tasks` whose parent is `p`, in list order. */
  function ChildrenOf(tasks: seq<Task>, p: string): (r: seq<Task>)
    ensures forall t :: t in r ==> t in tasks && t.parent == p
    ensures forall i :: 0 <= i < |tasks| && tasks[i].parent == p ==> tasks[i] in r
    ensures |r| <= |tasks|
  {
    if tasks == [] then []
    else (if tasks[0].parent == p then [tasks[0]] else []) + ChildrenOf(tasks[1..], p)
  }

  /** `childMap` holds, for every non-empty parent name with children, those children in list order. */
  ghost predicate IsChildMap(childMap: map<string, seq<Task>>, tasks: seq<Task>)
  {
    (forall p :: p in childMap <==> p != "" && ChildrenOf(tasks, p) != [])
    && forall p :: p in childMap ==> childMap[p] == ChildrenOf(tasks, p)
  }

  /** The loop in `runTree` that groups the tasks by non-empty parent name. */
  method BuildChildMap(tasks: seq<Task>) returns (childMap: map<string, seq<Task>>)
    ensures IsChildMap(childMap, tasks)
  {
    childMap := map[];
    var i := 0;
    while i < |tasks|
      invariant 0 <= i <= |tasks|
      invariant IsChildMap(childMap, tasks[..i])
    {
      assert tasks[..i + 1] == tasks[..i] + [tasks[i]];
      childMap := AddChild(childMap, tasks[..i], tasks[i]);
      i := i + 1;
    }
    assert tasks[..|tasks|] == tasks;
  }

  /** One step of the grouping loop. */
  function AddChild(childMap: map<string, seq<Task>>, tasks: seq<Task>, t: Task): (m: map<string, seq<Task>>)
    requires IsChildMap(childMap, tasks)
    ensures IsChildMap(m, tasks + [t])
  {
    ChildrenOfSnoc(tasks, t);
    if t.parent == "" then
      OrphanKeepsMap(childMap, tasks, t);
      childMap
    else
      var m := childMap[t.parent := (if t.parent in childMap then childMap[t.parent] else []) + [t]];
      ChildExtendsMap(childMap, tasks, t, m);
      assert IsChildMap(m, tasks + [t]);
      m
  }

  lemma OrphanKeepsMap(childMap: map<string, seq<Task>>, tasks: seq<Task>, t: Task)
    requires IsChildMap(childMap, tasks) && t.parent == ""
    requires forall p :: ChildrenOf(tasks + [t], p) == ChildrenOf(tasks, p) + (if t.parent == p then [t] else [])
    ensures IsChildMap(childMap, tasks + [t])
  {
    forall p | p != "" ensures ChildrenOf(tasks + [t], p) == ChildrenOf(tasks, p) {
      assert ChildrenOf(tasks + [t], p) == ChildrenOf(tasks, p) + [];
    }
  }

  lemma ChildExtendsMap(childMap: map<string, seq<Task>>, tasks: seq<Task>, t: Task, m: map<string, seq<Task>>)
    requires IsChildMap(childMap, tasks) && t.parent != ""
    requires m == childMap[t.parent := (if t.parent in childMap then childMap[t.parent] else []) + [t]]
    ensures IsChildMap(m, tasks + [t])
  {
    forall p ensures (p in m <==> p != "" && ChildrenOf(tasks + [t], p) != []) && (p in m ==> m[p] == ChildrenOf(tasks + [t], p)) {
      ChildrenOfSnocAt(tasks, t, p);
      var before := ChildrenOf(tasks, p);
      if p == t.parent {
        assert ChildrenOf(tasks + [t], p) == before + [t];
        assert p in childMap ==> childMap[p] == before;
        assert p !in childMap ==> before == [];
        assert m[p] == before + [t];
      } else {
        assert before + [] == before;
        assert ChildrenOf(tasks + [t], p) == before;
        assert p in m <==> p in childMap;
        assert p in m ==> m[p] == childMap[p];
      }
    }
  }

  lemma ChildrenOfSnocAt(tasks: seq<Task>, t: Task, p: string)
    ensures ChildrenOf(tasks + [t], p) == ChildrenOf(tasks, p) + (if t.parent == p then [t] else [])
  {
    ChildrenOfSnoc(tasks, t);
  }

  lemma {:induction false} ChildrenOfSnoc(tasks: seq<Task>, t: Task)
    ensures forall p :: ChildrenOf(tasks + [t], p) == ChildrenOf(tasks, p) + (if t.parent == p then [t] else [])
    decreases |tasks|
  {
    forall p ensures ChildrenOf(tasks + [t], p) == ChildrenOf(tasks, p) + (if t.parent == p then [t] else []) {
      if tasks == [] {
        assert [t][1..] == [];
      } else {
        assert (tasks + [t])[1..] == tasks[1..] + [t];
        ChildrenOfSnoc(tasks[1..], t);
      }
    }
  }

  /** The children recorded for `p`, or none. */
  function Kids(childMap: map<string, seq<Task>>, p: string): seq<Task>
  { if p in childMap then childMap[p] else [] }

  /** The parent links are well-founded: every child ranks strictly below its parent.
      `buildTreeNode` recurses without a depth limit, so it only terminates on such maps. */
  predicate Ranked(childMap: map<string, seq<Task>>, rank: map<string, nat>)
  {
    forall p :: p in childMap ==> p in rank && forall c :: c in childMap[p] ==> c.name in rank && rank[c.name] < rank[p]
  }

  function Rank(rank: map<string, nat>, name: string): nat
  { if name in rank then rank[name] else 0 }

  /** `buildTreeNode`: a node for the task with one child node per child-map entry, in order. */
  function BuildTreeNode(t: Task, childMap: map<string, seq<Task>>, rank: map<string, nat>): (node: TreeNode)
    requires Ranked(childMap, rank)
    ensures node.name == t.name && node.tier == Capitalize(t.tier) && node.phase == t.phase && node.duration == t.duration
    ensures |node.children| == |Kids(childMap, t.name)|
    ensures forall i :: 0 <= i < |node.children| ==> node.children[i].name == Kids(childMap, t.name)[i].name
    decreases Rank(rank, t.name)
  {
    var kids := Kids(childMap, t.name);
    TreeNode(t.name, Capitalize(t.tier), t.phase, t.duration,
      seq(|kids|, i requires 0 <= i < |kids| => BuildTreeNode(kids[i], childMap, rank)))
  }

  /** The number of nodes of a tree. */
  function Size(n: TreeNode): (k: nat)
    ensures k >= 1
    decreases n, 1
  { 1 + SizeAll(n.children) }

  function SizeAll(ns: seq<TreeNode>): nat
    decreases ns, 0
  { if ns == [] then 0 else Size(ns[0]) + SizeAll(ns[1..]) }

  /** Every node of the built tree came from a task, and every child hangs under its parent's name. */
  predicate Faithful(node: TreeNode, childMap: map<string, seq<Task>>)
    decreases node
  {
    forall i :: 0 <= i < |node.children| ==>
      (node.children[i].name in NamesOf(Kids(childMap, node.name)) && Faithful(node.children[i], childMap))
  }

  function NamesOf(ts: seq<Task>): seq<string>
  { seq(|ts|, i requires 0 <= i < |ts| => ts[i].name) }

  lemma {:induction false} BuildTreeNodeFaithful(t: Task, childMap: map<string, seq<Task>>, rank: map<string, nat>)
    requires Ranked(childMap, rank)
    ensures Faithful(BuildTreeNode(t, childMap, rank), childMap)
    decreases Rank(rank, t.name)
  {
    var node := BuildTreeNode(t, childMap, rank);
    var kids := Kids(childMap, t.name);
    forall i | 0 <= i < |node.children|
      ensures node.children[i].name in NamesOf(kids) && Faithful(node.children[i], childMap)
    {
      assert node.children[i] == BuildTreeNode(kids[i], childMap, rank);
      assert NamesOf(kids)[i] == kids[i].name;
      BuildTreeNodeFaithful(kids[i], childMap, rank);
    }
  }

  // ---------------------------------------------------------------- rendering

  /** The connector drawn before a child, and the prefix its own children inherit. */
  function Connector(i: nat, count: nat): (r: (string, string))
    ensures i + 1 == count ==> r == ("└── ", "    ")
    ensures i + 1 != count ==> r == ("├── ", "│   ")
  { if i + 1 == count then ("└── ", "    ") else ("├── ", "│   ") }

  function Label(n: TreeNode): string
  { n.name + " (" + n.tier + ", " + n.phase + ", " + n.duration + ")" }

  /** `printTreeNode`: the root's label, then every descendant line. */
  function Render(root: TreeNode): (lines: seq<string>)
    ensures |lines| == Size(root)
    ensures lines[0] == Label(root)
  {
    RenderSubTreeSize(root, "");
    [Label(root)] + RenderSubTree(root, "")
  }

  /** `printSubTree`: one line per descendant, each starting with `prefix`. */
  function RenderSubTree(n: TreeNode, prefix: string): (lines: seq<string>)
    ensures forall k :: 0 <= k < |lines| ==> StartsWith(lines[k], prefix)
    decreases n, 1
  { RenderChildren(n.children, 0, prefix) }

  function RenderChildren(ns: seq<TreeNode>, i: nat, prefix: string): (lines: seq<string>)
    requires i <= |ns|
    ensures forall k :: 0 <= k < |lines| ==> StartsWith(lines[k], prefix)
    decreases ns, 0, |ns| - i
  {
    if i == |ns| then []
    else
      var (connector, childPrefix) := Connector(i, |ns|);
      var sub := RenderSubTree(ns[i], prefix + childPrefix);
      assert forall k :: 0 <= k < |sub| ==> StartsWith(sub[k], prefix) by {
        forall k | 0 <= k < |sub| ensures StartsWith(sub[k], prefix) {
          assert StartsWith(sub[k], prefix + childPrefix);
          assert (prefix + childPrefix)[..|prefix|] == prefix;
        }
      }
      [prefix + connector + Label(ns[i])] + sub + RenderChildren(ns, i + 1, prefix)
  }

  /** Every descendant gets exactly one line. */
  lemma {:induction false} RenderSubTreeSize(n: TreeNode, prefix: string)
    ensures |RenderSubTree(n, prefix)| == Size(n) - 1
    decreases n, 1
  {
    RenderChildrenSize(n.children, 0, prefix);
    assert n.children[0..] == n.children;
  }

  lemma {:induction false} RenderChildrenSize(ns: seq<TreeNode>, i: nat, prefix: string)
    requires i <= |ns|
    ensures |RenderChildren(ns, i, prefix)| == SizeAll(ns[i..])
    decreases ns, 0, |ns| - i
  {
    if i < |ns| {
      var (_, childPrefix) := Connector(i, |ns|);
      RenderSubTreeSize(ns[i], prefix + childPrefix);
      RenderChildrenSize(ns, i + 1, prefix);
      assert ns[i..][1..] == ns[i + 1..];
    }
  }
}
