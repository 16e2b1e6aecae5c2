/**
 * Discovery of retained knowledge volumes (internal/controller/knowledge.go): a finished
 * task's PVC can be kept with a set of tags, and a new task is offered the retained PVCs
 * whose tags overlap the new task's own tags, most overlapping first. The PVC listing is
 * passed in; a failed listing is `None`.
 */
module Knowledge {
  import opened Wrappers
  import opened Strs
  import opened Api
  import opened ControllerConfig

  /** A PersistentVolumeClaim as the discovery sees it: its name and annotations. */
  datatype Pvc = Pvc(name: string, annotations: map<string, string>)

  /** `RetainedPVC`. */
  datatype RetainedPvc = RetainedPvc(name: string, taskName: string, tags: seq<string>, reason: string,
                                     completedAt: string, tagOverlap: int)

  /** A Go map lookup: a missing annotation reads as "". */
  function Annotation(p: Pvc, key: string): (v: string)
    ensures key !in p.annotations ==> v == ""
    ensures key in p.annotations ==> v == p.annotations[key]
  {
    if key in p.annotations then p.annotations[key] else ""
  }

  // ---------------------------------------------------------------------------------------
  // splitTags
  // ---------------------------------------------------------------------------------------

  /** How one comma-separated part becomes a tag: lowercased, then trimmed. */
  function CleanTag(part: string): string
  {
    Trim(Lower(part))
  }

  /** Every part cleaned, in order. */
  function CleanAll(parts: seq<string>): (r: seq<string>)
    ensures |r| == |parts|
  {
    if parts == [] then [] else CleanAll(parts[..|parts| - 1]) + [CleanTag(parts[|parts| - 1])]
  }

  /** The non-empty entries, in order. */
  function NonEmpty(xs: seq<string>): seq<string>
  {
    if xs == [] then []
    else NonEmpty(xs[..|xs| - 1]) + (if xs[|xs| - 1] != "" then [xs[|xs| - 1]] else [])
  }

  /** The tags `splitTags` keeps from the comma parts. */
  function CleanTags(parts: seq<string>): seq<string>
  {
    NonEmpty(CleanAll(parts))
  }

  /** Dropping the empty entries keeps exactly the non-empty ones. */
  lemma {:induction false} NonEmptyMembers(xs: seq<string>)
    ensures forall t :: t in NonEmpty(xs) <==> t != "" && t in xs
    ensures |NonEmpty(xs)| <= |xs|
  {
    if xs != [] {
      var init := xs[..|xs| - 1];
      NonEmptyMembers(init);
      assert xs == init + [xs[|xs| - 1]];
    }
  }

  /** Entry i of the cleaned list is part i cleaned. */
  lemma {:induction false} CleanAllAt(parts: seq<string>)
    ensures forall i :: 0 <= i < |parts| ==> CleanAll(parts)[i] == CleanTag(parts[i])
  {
    if parts != [] {
      var init := parts[..|parts| - 1];
      CleanAllAt(init);
      var last := CleanTag(parts[|parts| - 1]);
      assert CleanAll(parts) == CleanAll(init) + [last];
      forall i | 0 <= i < |parts| ensures CleanAll(parts)[i] == CleanTag(parts[i]) {
        if i < |init| {
          assert init[i] == parts[i];
          assert CleanAll(parts)[i] == CleanAll(init)[i];
        } else {
          assert i == |parts| - 1;
          assert CleanAll(parts)[i] == last;
        }
      }
    }
  }

  /** `splitTags`: the loop over the comma parts that keeps the non-empty cleaned ones. */
  method SplitTags(tagsStr: string) returns (tags: seq<string>)
    ensures tags == CleanTags(Split(tagsStr, ','))
    ensures forall t :: t in tags <==> t != "" && t in CleanAll(Split(tagsStr, ','))
    ensures |tags| <= |Split(tagsStr, ',')|
  {
    var parts := Split(tagsStr, ',');
    tags := [];
    for i := 0 to |parts|
      invariant tags == CleanTags(parts[..i])
    {
      assert parts[..i + 1][..i] == parts[..i];
      var t := Trim(Lower(parts[i]));
      assert CleanAll(parts[..i + 1]) == CleanAll(parts[..i]) + [t];
      if t != "" {
        tags := tags + [t];
      }
    }
    assert parts[..|parts|] == parts;
    NonEmptyMembers(CleanAll(parts));
  }

  // ---------------------------------------------------------------------------------------
  // tagOverlap
  // ---------------------------------------------------------------------------------------

  /** How many entries of `pvcTags` are task tags; a repeated tag counts each time. */
  function Overlap(taskTags: set<string>, pvcTags: seq<string>): nat
  {
    if pvcTags == [] then 0
    else Overlap(taskTags, pvcTags[..|pvcTags| - 1]) + (if pvcTags[|pvcTags| - 1] in taskTags then 1 else 0)
  }

  /** The count adds up over concatenation, is bounded by the list, and is zero exactly
      when no PVC tag is a task tag. */
  lemma {:induction false} OverlapProperties(taskTags: set<string>, a: seq<string>, b: seq<string>)
    ensures Overlap(taskTags, a + b) == Overlap(taskTags, a) + Overlap(taskTags, b)
    ensures Overlap(taskTags, b) <= |b|
    ensures Overlap(taskTags, b) == 0 <==> forall t :: t in b ==> t !in taskTags
    decreases |b|
  {
    if b != [] {
      var init := b[..|b| - 1];
      var last := b[|b| - 1];
      assert (a + b)[..|a + b| - 1] == a + init;
      assert (a + b)[|a + b| - 1] == last;
      assert b == init + [last];
      OverlapProperties(taskTags, a, init);
      assert (forall t :: t in b ==> t !in taskTags) <==> (forall t :: t in init ==> t !in taskTags) && last !in taskTags;
    } else {
      assert a + b == a;
    }
  }

  /** The overlap equals the number of positions holding a task tag. */
  lemma {:induction false} OverlapIsCount(taskTags: set<string>, pvcTags: seq<string>)
    ensures Overlap(taskTags, pvcTags) == |set i | 0 <= i < |pvcTags| && pvcTags[i] in taskTags|
  {
    if pvcTags != [] {
      var n := |pvcTags| - 1;
      OverlapIsCount(taskTags, pvcTags[..n]);
      var prev := set i | 0 <= i < n && pvcTags[..n][i] in taskTags;
      var all := set i | 0 <= i < |pvcTags| && pvcTags[i] in taskTags;
      assert prev == set i | 0 <= i < n && pvcTags[i] in taskTags;
      if pvcTags[n] in taskTags {
        assert all == prev + {n};
      } else {
        assert all == prev;
      }
    }
  }

  /** `tagOverlap`: the counting loop. */
  method TagOverlap(taskTags: set<string>, pvcTags: seq<string>) returns (count: nat)
    ensures count == Overlap(taskTags, pvcTags)
    ensures count <= |pvcTags|
    ensures count == 0 <==> forall t :: t in pvcTags ==> t !in taskTags
  {
    count := 0;
    for i := 0 to |pvcTags|
      invariant count == Overlap(taskTags, pvcTags[..i])
    {
      assert pvcTags[..i + 1][..i] == pvcTags[..i];
      if pvcTags[i] in taskTags {
        count := count + 1;
      }
    }
    assert pvcTags[..|pvcTags|] == pvcTags;
    OverlapProperties(taskTags, [], pvcTags);
  }

  // ---------------------------------------------------------------------------------------
  // buildTaskTags
  // ---------------------------------------------------------------------------------------

  /** Which strings are tags of a task: the lowercased role and its hyphen-separated parts
      longer than two characters, the lowercased tier, and every lowercased capability. */
  predicate IsTaskTag(spec: TaskSpec, x: string)
  {
    (spec.role != "" && (x == Lower(spec.role) || exists part :: part in Split(spec.role, '-') && |part| > 2 && x == Lower(part))) ||
    (spec.tier != "" && x == Lower(spec.tier)) ||
    (exists c :: c in spec.capabilities && x == Lower(c))
  }

  /** `buildTaskTags`: the loops that fill the tag set. */
  method BuildTaskTags(spec: TaskSpec) returns (tags: set<string>)
    ensures forall x :: x in tags <==> IsTaskTag(spec, x)
  {
    tags := {};
    if spec.role != "" {
      tags := RoleTags(spec.role);
    }
    if spec.tier != "" {
      tags := tags + {Lower(spec.tier)};
    }
    var capTags := CapabilityTags(spec.capabilities);
    tags := tags + capTags;
  }

  /** The role and each of its dash-separated parts longer than two characters, lower-cased. */
  method RoleTags(role: string) returns (tags: set<string>)
    ensures forall x :: x in tags <==> x == Lower(role) || exists part :: part in Split(role, '-') && |part| > 2 && x == Lower(part)
  {
    tags := {Lower(role)};
    var parts := Split(role, '-');
    for i := 0 to |parts|
      invariant forall x :: x in tags <==> x == Lower(role) || exists part :: part in parts[..i] && |part| > 2 && x == Lower(part)
    {
      assert parts[..i + 1] == parts[..i] + [parts[i]];
      if |parts[i]| > 2 {
        tags := tags + {Lower(parts[i])};
      }
    }
    assert parts[..|parts|] == parts;
  }

  /** Every capability, lower-cased. */
  method CapabilityTags(caps: seq<string>) returns (tags: set<string>)
    ensures forall x :: x in tags <==> exists c :: c in caps && x == Lower(c)
  {
    tags := {};
    for i := 0 to |caps|
      invariant forall x :: x in tags <==> exists c :: c in caps[..i] && x == Lower(c)
    {
      assert caps[..i + 1] == caps[..i] + [caps[i]];
      tags := tags + {Lower(caps[i])};
    }
    assert caps[..|caps|] == caps;
  }

  // ---------------------------------------------------------------------------------------
  // discoverRetainedPVCs
  // ---------------------------------------------------------------------------------------

  /** The match a PVC yields, if any: it must be retained, not the task's own PVC, carry
      tags, and share at least one of them with the task. */
  function MatchOf(ownPvc: string, taskTags: set<string>, p: Pvc): (r: Option<RetainedPvc>)
    ensures r.Some? <==> Annotation(p, "hortator.ai/retain") == "true" && p.name != ownPvc &&
                         Annotation(p, "hortator.ai/retain-tags") != "" &&
                         Overlap(taskTags, CleanTags(Split(Annotation(p, "hortator.ai/retain-tags"), ','))) > 0
    ensures r.Some? ==> r.value.name == p.name && r.value.tagOverlap > 0 &&
                        r.value.tags == CleanTags(Split(Annotation(p, "hortator.ai/retain-tags"), ',')) &&
                        r.value.tagOverlap == Overlap(taskTags, r.value.tags)
  {
    if Annotation(p, "hortator.ai/retain") != "true" || p.name == ownPvc then None
    else
      var tagsStr := Annotation(p, "hortator.ai/retain-tags");
      if tagsStr == "" then None
      else
        var pvcTags := CleanTags(Split(tagsStr, ','));
        var overlap := Overlap(taskTags, pvcTags);
        if overlap == 0 then None
        else Some(RetainedPvc(p.name, Annotation(p, "hortator.ai/task"), pvcTags,
                              Annotation(p, "hortator.ai/retain-reason"), Annotation(p, "hortator.ai/completed-at"), overlap))
  }

  /** The matches of a listing, in listing order. */
  function Matches(ownPvc: string, taskTags: set<string>, items: seq<Pvc>): (r: seq<RetainedPvc>)
    ensures |r| <= |items|
    ensures forall m :: m in r ==> m.tagOverlap > 0 && exists p :: p in items && MatchOf(ownPvc, taskTags, p) == Some(m)
  {
    if items == [] then []
    else
      var m := MatchOf(ownPvc, taskTags, items[|items| - 1]);
      Matches(ownPvc, taskTags, items[..|items| - 1]) + (if m.Some? then [m.value] else [])
  }

  /** Highest overlap first. */
  predicate SortedByOverlap(s: seq<RetainedPvc>)
  {
    forall i, j :: 0 <= i < j < |s| ==> s[i].tagOverlap >= s[j].tagOverlap
  }

  /** Insert behind every entry with at least the same overlap. */
  function InsertByOverlap(x: RetainedPvc, s: seq<RetainedPvc>): (r: seq<RetainedPvc>)
    ensures |r| == |s| + 1
    ensures multiset(r) == multiset(s) + multiset{x}
    ensures s == [] ==> r == [x]
    ensures s != [] ==> r[0] == x || r[0] == s[0]
  {
    if s == [] then [x]
    else if x.tagOverlap > s[0].tagOverlap then [x] + s
    else
      assert s == [s[0]] + s[1..];
      [s[0]] + InsertByOverlap(x, s[1..])
  }

  /** Inserting into a sorted list keeps it sorted. */
  lemma {:induction false} InsertSorted(x: RetainedPvc, s: seq<RetainedPvc>)
    requires SortedByOverlap(s)
    ensures SortedByOverlap(InsertByOverlap(x, s))
  {
    if s != [] && x.tagOverlap <= s[0].tagOverlap {
      var rest := InsertByOverlap(x, s[1..]);
      InsertSorted(x, s[1..]);
      assert rest[0] == x || rest[0] == s[1];
      assert s[0].tagOverlap >= rest[0].tagOverlap;
      assert InsertByOverlap(x, s) == [s[0]] + rest;
    }
  }

  /** The matches by overlap, highest first. Go's `sort.Slice` is not stable and leaves ties in
      no fixed order; this is one of the orders it may produce, keeping ties in listing order. */
  function SortByOverlap(s: seq<RetainedPvc>): (r: seq<RetainedPvc>)
    ensures SortedByOverlap(r)
    ensures |r| == |s|
    ensures multiset(r) == multiset(s)
  {
    if s == [] then []
    else
      assert s == s[..|s| - 1] + [s[|s| - 1]];
      var init := SortByOverlap(s[..|s| - 1]);
      InsertSorted(s[|s| - 1], init);
      InsertByOverlap(s[|s| - 1], init)
  }

  /** Where the limit falls: `MaxRetainedPerNS`, or 5 when that is not positive. */
  function ResultLimit(cfg: StorageRetainedConfig): (n: int)
    ensures n > 0
    ensures cfg.maxRetainedPerNs > 0 ==> n == cfg.maxRetainedPerNs
    ensures cfg.maxRetainedPerNs <= 0 ==> n == 5
  {
    if cfg.maxRetainedPerNs <= 0 then 5 else cfg.maxRetainedPerNs
  }

  /** The filtering loop of `discoverRetainedPVCs`. */
  method CollectMatches(ownPvc: string, taskTags: set<string>, items: seq<Pvc>) returns (matches: seq<RetainedPvc>)
    ensures matches == Matches(ownPvc, taskTags, items)
  {
    matches := [];
    for i := 0 to |items|
      invariant matches == Matches(ownPvc, taskTags, items[..i])
    {
      assert items[..i + 1][..i] == items[..i];
      var p := items[i];
      if Annotation(p, "hortator.ai/retain") != "true" {
        continue;
      }
      if p.name == ownPvc {
        continue;
      }
      var tagsStr := Annotation(p, "hortator.ai/retain-tags");
      if tagsStr == "" {
        continue;
      }
      var pvcTags := SplitTags(tagsStr);
      var overlap := TagOverlap(taskTags, pvcTags);
      if overlap == 0 {
        continue;
      }
      matches := matches + [RetainedPvc(p.name, Annotation(p, "hortator.ai/task"), pvcTags,
                                        Annotation(p, "hortator.ai/retain-reason"), Annotation(p, "hortator.ai/completed-at"), overlap)];
    }
    assert items[..|items|] == items;
  }

  /** The tags of a task, as `buildTaskTags` collects them. */
  function TaskTags(spec: TaskSpec): (r: set<string>)
    ensures forall x :: x in r <==> IsTaskTag(spec, x)
  {
    (if spec.role != "" then {Lower(spec.role)} + (set part | part in Split(spec.role, '-') && |part| > 2 :: Lower(part)) else {}) +
    (if spec.tier != "" then {Lower(spec.tier)} else {}) +
    (set c | c in spec.capabilities :: Lower(c))
  }

  /** The matches, most overlapping first, cut to the limit. */
  function Discovered(ownPvc: string, taskTags: set<string>, items: seq<Pvc>, limit: int): (r: seq<RetainedPvc>)
    requires limit > 0
    ensures SortedByOverlap(r)
    ensures |r| == if |Matches(ownPvc, taskTags, items)| > limit then limit else |Matches(ownPvc, taskTags, items)|
  {
    var sorted := SortByOverlap(Matches(ownPvc, taskTags, items));
    if |sorted| > limit then sorted[..limit] else sorted
  }

  /** `discoverRetainedPVCs`. Off when discovery is "none" or auto-mount is off; a failed
      listing is an error; otherwise the matches, most overlapping first, cut to the limit. */
  method DiscoverRetainedPvcs(task: AgentTask, cfg: StorageRetainedConfig, listing: Option<seq<Pvc>>)
    returns (r: Result<seq<RetainedPvc>>)
    ensures cfg.discovery == "none" || !cfg.autoMount ==> r == Ok([])
    ensures cfg.discovery != "none" && cfg.autoMount && listing.None? ==> r.Err?
    ensures cfg.discovery != "none" && cfg.autoMount && listing.Some? ==>
              r == Ok(Discovered(task.name + "-storage", TaskTags(task.spec), listing.value, ResultLimit(cfg)))
  {
    if cfg.discovery == "none" || !cfg.autoMount {
      return Ok([]);
    }
    if listing.None? {
      return Err("failed to list PVCs");
    }
    var taskTags := BuildTaskTags(task.spec);
    assert taskTags == TaskTags(task.spec);
    var matches := CollectMatches(task.name + "-storage", taskTags, listing.value);
    var sorted := SortByOverlap(matches);
    var maxResults := cfg.maxRetainedPerNs;
    if maxResults <= 0 {
      maxResults := 5;
    }
    if |sorted| > maxResults {
      sorted := sorted[..maxResults];
    }
    return Ok(sorted);
  }

  /** Cutting a sorted list keeps entries at least as overlapping as every one it drops. */
  lemma CutKeepsHighest(s: seq<RetainedPvc>, k: nat)
    requires SortedByOverlap(s) && k <= |s|
    ensures multiset(s) - multiset(s[..k]) == multiset(s[k..])
    ensures forall m, x :: m in s[k..] && x in s[..k] ==> x.tagOverlap >= m.tagOverlap
  {
    assert s == s[..k] + s[k..];
    forall m, x | m in s[k..] && x in s[..k]
      ensures x.tagOverlap >= m.tagOverlap
    {
      var j :| 0 <= j < |s[k..]| && s[k..][j] == m;
      var i :| 0 <= i < k && s[..k][i] == x;
      assert s[i] == x && s[k + j] == m;
    }
  }

  /** A match comes from a retained PVC of the listing, other than the task's own, that
      shares a tag with the task. */
  lemma MatchesAreRetained(ownPvc: string, taskTags: set<string>, items: seq<Pvc>, m: RetainedPvc)
    requires m in Matches(ownPvc, taskTags, items)
    ensures m.name != ownPvc && m.tagOverlap > 0
    ensures exists p :: p in items && p.name == m.name && Annotation(p, "hortator.ai/retain") == "true"
  {
    var p :| p in items && MatchOf(ownPvc, taskTags, p) == Some(m);
    assert p.name == m.name;
  }

  /** A prefix of a permutation of `all` holds no more of anything than `all`. */
  lemma PrefixWithin(all: seq<RetainedPvc>, s: seq<RetainedPvc>, k: nat)
    requires multiset(s) == multiset(all) && k <= |s|
    ensures multiset(s[..k]) <= multiset(all)
    ensures forall m :: m in s[..k] ==> m in all
  {
    assert s == s[..k] + s[k..];
    assert multiset(s) == multiset(s[..k]) + multiset(s[k..]);
    forall m | m in s[..k] ensures m in all {
      assert m in multiset(s[..k]);
      assert m in multiset(all);
    }
  }

  /** Every discovered entry is a match of the listing. */
  lemma DiscoveredAreMatches(ownPvc: string, taskTags: set<string>, items: seq<Pvc>, limit: int)
    requires limit > 0
    ensures multiset(Discovered(ownPvc, taskTags, items, limit)) <= multiset(Matches(ownPvc, taskTags, items))
    ensures forall m :: m in Discovered(ownPvc, taskTags, items, limit) ==> m in Matches(ownPvc, taskTags, items)
  {
    var all := Matches(ownPvc, taskTags, items);
    var sorted := SortByOverlap(all);
    var kept := Discovered(ownPvc, taskTags, items, limit);
    assert kept == sorted[..|kept|];
    PrefixWithin(all, sorted, |kept|);
  }

  /** A match that discovery cut off overlaps no more than any match it kept. */
  lemma DiscoveryKeepsHighest(ownPvc: string, taskTags: set<string>, items: seq<Pvc>, limit: int)
    requires limit > 0
    ensures forall m, x :: (m in multiset(Matches(ownPvc, taskTags, items)) - multiset(Discovered(ownPvc, taskTags, items, limit)) &&
                            x in Discovered(ownPvc, taskTags, items, limit)) ==> x.tagOverlap >= m.tagOverlap
  {
    var all := Matches(ownPvc, taskTags, items);
    var sorted := SortByOverlap(all);
    var kept := Discovered(ownPvc, taskTags, items, limit);
    var k := |kept|;
    assert kept == sorted[..k];
    CutKeepsHighest(sorted, k);
    assert multiset(all) - multiset(kept) == multiset(sorted[k..]);
    forall m, x | m in multiset(all) - multiset(kept) && x in kept
      ensures x.tagOverlap >= m.tagOverlap
    {
      assert m in sorted[k..];
    }
  }
}
