// The capability filter of `hortator roles list` (cmd/hortator/cmd/roles.go).
module CliRoles {
  import opened Strs

  /** The fields of a role listing entry the filter reads. */
  datatype RoleEntry = RoleEntry(name: string, scope: string, tools: seq<string>)

  /** `hasAllTools`: every required entry, with surrounding spaces removed, is one of the tools. */
  predicate HasAllTools(tools: seq<string>, required: seq<string>)
  {
    forall r :: r in required ==> Trim(r) in tools
  }

  /** Only the set of tools matters: duplicates and order in `tools` change nothing. */
  lemma HasAllToolsBySet(tools: seq<string>, tools': seq<string>, required: seq<string>)
    requires (set t | t in tools) == (set t | t in tools')
    ensures HasAllTools(tools, required) == HasAllTools(tools', required)
  {
    var s1, s2 := set u | u in tools, set u | u in tools';
    forall r | r in required ensures Trim(r) in tools <==> Trim(r) in tools' {
      var t := Trim(r);
      assert t in tools <==> t in s1;
      assert t in tools' <==> t in s2;
    }
  }

  /** An empty requirement is met by every entry. */
  lemma HasAllToolsEmpty(tools: seq<string>)
    ensures HasAllTools(tools, [])
  {
  }

  /** A requirement of one more entry is met exactly when both parts are. */
  lemma HasAllToolsAppend(tools: seq<string>, a: seq<string>, b: seq<string>)
    ensures HasAllTools(tools, a + b) <==> HasAllTools(tools, a) && HasAllTools(tools, b)
  {
    assert forall r :: r in a + b <==> r in a || r in b;
  }

  /** The entries meeting a `--capability` value, in their original order; an empty value keeps all. */
  function FilterByCapability(entries: seq<RoleEntry>, capability: string): (r: seq<RoleEntry>)
    ensures capability == "" ==> r == entries
    ensures forall e :: e in r ==> e in entries
    ensures capability != "" ==> forall e :: e in r ==> HasAllTools(e.tools, Split(capability, ','))
    ensures capability != "" ==> forall e :: e in entries && HasAllTools(e.tools, Split(capability, ',')) ==> e in r
  {
    if capability == "" then entries else KeepWithTools(entries, Split(capability, ','))
  }

  function KeepWithTools(entries: seq<RoleEntry>, required: seq<string>): (r: seq<RoleEntry>)
    ensures |r| <= |entries|
    ensures forall e :: e in r <==> e in entries && HasAllTools(e.tools, required)
  {
    if entries == [] then []
    else (if HasAllTools(entries[0].tools, required) then [entries[0]] else []) + KeepWithTools(entries[1..], required)
  }

  /** The filter keeps the entries' relative order: filtering distributes over concatenation. */
  lemma {:induction false} KeepWithToolsAppend(a: seq<RoleEntry>, b: seq<RoleEntry>, required: seq<string>)
    ensures KeepWithTools(a + b, required) == KeepWithTools(a, required) + KeepWithTools(b, required)
    decreases |a|
  {
    if a == [] {
      assert a + b == b;
    } else {
      assert (a + b)[1..] == a[1..] + b;
      KeepWithToolsAppend(a[1..], b, required);
    }
  }
}
