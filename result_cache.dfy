/**
 * The in-memory result cache of the task reconciler (internal/controller/result_cache.go):
 * finished outputs keyed by a hash of role and prompt, expired after a TTL and evicted in
 * insertion order once the cache is full. The clock is the `now` parameter; SHA-256 is
 * an injective function passed in by the caller.
 */
module Cache {
  import opened Wrappers
  import opened Api
  import opened ControllerHelpers

  datatype Config = Config(enabled: bool, ttl: Duration, maxEntries: int)
  datatype Entry = Entry(output: string, tokensIn: int, tokensOut: int, model: string, cachedAt: Time)
  datatype CacheResult = CacheResult(output: string, tokensIn: int, tokensOut: int, model: string)

  /** `NewResultCache`'s defaults: 1000 entries and ten minutes when not positive. */
  function Normalized(cfg: Config): (c: Config)
    ensures c.enabled == cfg.enabled
    ensures c.maxEntries == (if cfg.maxEntries <= 0 then 1000 else cfg.maxEntries)
    ensures c.ttl == (if cfg.ttl <= 0 then 10 * Minute else cfg.ttl)
  {
    cfg.(maxEntries := if cfg.maxEntries <= 0 then 1000 else cfg.maxEntries,
         ttl := if cfg.ttl <= 0 then 10 * Minute else cfg.ttl)
  }

  /** The result a hit hands back. */
  function ResultOf(e: Entry): (r: CacheResult)
    ensures r.output == e.output && r.tokensIn == e.tokensIn && r.tokensOut == e.tokensOut && r.model == e.model
  { CacheResult(e.output, e.tokensIn, e.tokensOut, e.model) }

  /** The index of the first key in `order` that still has an entry. */
  function FirstPresent(order: seq<string>, entries: map<string, Entry>): (r: Option<nat>)
    ensures r.Some? ==> r.value < |order| && order[r.value] in entries &&
                        forall j :: 0 <= j < r.value ==> order[j] !in entries
    ensures r.None? ==> forall j :: 0 <= j < |order| ==> order[j] !in entries
  {
    if order == [] then None
    else if order[0] in entries then Some(0)
    else match FirstPresent(order[1..], entries)
         case None => None
         case Some(k) => Some(k + 1)
  }

  /** Every key with an entry still has a place in the eviction order. */
  predicate Tracked(order: seq<string>, entries: map<string, Entry>)
  {
    forall k :: k in entries ==> k in order
  }

  /** Present keys appear in `order` by non-decreasing insertion time. */
  predicate InsertionOrdered(order: seq<string>, entries: map<string, Entry>)
  {
    forall i, j :: 0 <= i < j < |order| && order[i] in entries && order[j] in entries ==>
      entries[order[i]].cachedAt <= entries[order[j]].cachedAt
  }

  /** One `evictOldest` call: drop the order up to and including its first present key and
      delete that key's entry; with no present key, the order is cleared. */
  function Evict(order: seq<string>, entries: map<string, Entry>): (r: (seq<string>, map<string, Entry>))
    ensures FirstPresent(order, entries).None? ==> r == ([], entries)
    ensures FirstPresent(order, entries).Some? ==>
              var i := FirstPresent(order, entries).value;
              r == (order[i + 1..], entries - {order[i]})
  {
    match FirstPresent(order, entries)
    case None => ([], entries)
    case Some(i) => (order[i + 1..], entries - {order[i]})
  }

  /** On a tracked, non-empty cache an eviction deletes exactly one entry and keeps the rest tracked. */
  lemma EvictTracked(order: seq<string>, entries: map<string, Entry>)
    requires Tracked(order, entries) && entries != map[]
    ensures FirstPresent(order, entries).Some?
    ensures |Evict(order, entries).1| == |entries| - 1
    ensures Tracked(Evict(order, entries).0, Evict(order, entries).1)
  {
    var k :| k in entries;
    var j :| 0 <= j < |order| && order[j] == k;
    var i := FirstPresent(order, entries).value;
    SuffixTracked(order, entries, i);
  }

  /** Cutting the order after its first present key, and deleting that key, keeps every
      remaining entry tracked. */
  lemma SuffixTracked(order: seq<string>, entries: map<string, Entry>, i: nat)
    requires Tracked(order, entries) && i < |order|
    requires forall j :: 0 <= j < i ==> order[j] !in entries
    ensures Tracked(order[i + 1..], entries - {order[i]})
  {
    var o, e := order[i + 1..], entries - {order[i]};
    forall x | x in e ensures x in o {
      var jx :| 0 <= jx < |order| && order[jx] == x;
      assert o[jx - i - 1] == x;
    }
  }

  /** The state the eviction loop of `Put` leaves: evict until there is room for one more. */
  function Room(order: seq<string>, entries: map<string, Entry>, maxEntries: int): (r: (seq<string>, map<string, Entry>))
    requires maxEntries >= 1 && Tracked(order, entries)
    ensures |r.1| < maxEntries && Tracked(r.0, r.1)
    ensures r.1.Keys <= entries.Keys && forall k :: k in r.1 ==> r.1[k] == entries[k]
    ensures forall i :: 0 <= i < |r.0| ==> r.0[i] in order
    decreases |entries|
  {
    if |entries| < maxEntries then (order, entries)
    else
      EvictTracked(order, entries);
      var next := Evict(order, entries);
      Room(next.0, next.1, maxEntries)
  }

  /** On an insertion-ordered cache the first present key is an oldest entry. */
  lemma FirstPresentIsOldest(order: seq<string>, entries: map<string, Entry>, k: string)
    requires InsertionOrdered(order, entries) && Tracked(order, entries)
    requires k in entries
    ensures FirstPresent(order, entries).Some?
    ensures entries[order[FirstPresent(order, entries).value]].cachedAt <= entries[k].cachedAt
  {
    var j :| 0 <= j < |order| && order[j] == k;
  }

  /** Dropping a prefix of the order and one entry keeps the order by insertion time. */
  lemma SuffixKeepsOrdered(order: seq<string>, entries: map<string, Entry>, n: nat, k: string)
    requires n <= |order| && InsertionOrdered(order, entries)
    ensures InsertionOrdered(order[n..], entries - {k})
  {
    var o := order[n..];
    var e := entries - {k};
    forall a, b | 0 <= a < b < |o| && o[a] in e && o[b] in e ensures e[o[a]].cachedAt <= e[o[b]].cachedAt {
      assert o[a] == order[n + a] && o[b] == order[n + b];
    }
  }

  /** An eviction keeps the order by insertion time. */
  lemma EvictKeepsOrdered(order: seq<string>, entries: map<string, Entry>)
    requires InsertionOrdered(order, entries) && Tracked(order, entries) && entries != map[]
    ensures InsertionOrdered(Evict(order, entries).0, Evict(order, entries).1)
  {
    EvictTracked(order, entries);
    var i := FirstPresent(order, entries).value;
    SuffixKeepsOrdered(order, entries, i + 1, order[i]);
  }

  /** On an insertion-ordered cache the eviction loop removes only entries at least as old as
      every entry it keeps. */
  lemma {:induction false} RoomEvictsOldest(order: seq<string>, entries: map<string, Entry>, maxEntries: int)
    requires maxEntries >= 1 && Tracked(order, entries) && InsertionOrdered(order, entries)
    ensures InsertionOrdered(Room(order, entries, maxEntries).0, Room(order, entries, maxEntries).1)
    ensures forall k, x :: k in entries && k !in Room(order, entries, maxEntries).1 && x in Room(order, entries, maxEntries).1 ==>
              entries[k].cachedAt <= entries[x].cachedAt
    decreases |entries|
  {
    if |entries| >= maxEntries {
      EvictTracked(order, entries);
      EvictKeepsOrdered(order, entries);
      var next := Evict(order, entries);
      var victim := order[FirstPresent(order, entries).value];
      RoomEvictsOldest(next.0, next.1, maxEntries);
      var r := Room(order, entries, maxEntries);
      assert r == Room(next.0, next.1, maxEntries);
      forall k, x | k in entries && k !in r.1 && x in r.1 ensures entries[k].cachedAt <= entries[x].cachedAt {
        FirstPresentIsOldest(order, entries, x);
        if k != victim {
          assert k in next.1;
        }
      }
    }
  }

  /** A present key with only absent keys before it is the first present one. */
  lemma {:induction false} FirstPresentAt(order: seq<string>, entries: map<string, Entry>, i: nat)
    requires i < |order| && order[i] in entries
    requires forall j :: 0 <= j < i ==> order[j] !in entries
    ensures FirstPresent(order, entries) == Some(i)
  {
    if i > 0 { FirstPresentAt(order[1..], entries, i - 1); }
  }

  /** `ResultCache`. */
  class ResultCache {
    var entries: map<string, Entry>
    var order: seq<string>
    const config: Config

    /** Capacity is positive and respected, and every entry's key is in the eviction order. */
    predicate Valid()
      reads this
    {
      config.maxEntries >= 1 && config.ttl > 0 && |entries| <= config.maxEntries && Tracked(order, entries)
    }

    /** `NewResultCache`. */
    constructor (cfg: Config)
      ensures config == Normalized(cfg) && entries == map[] && order == []
      ensures Valid()
    {
      config := Normalized(cfg);
      entries := map[];
      order := [];
    }

    /** `Len`. */
    function Len(): (n: nat)
      reads this
      ensures n == |entries|
    { |entries| }

    /** `Get`: a disabled cache and an unknown key miss; an entry older than the TTL is deleted
        from the entries (not from the order) and misses; otherwise the stored result. */
    method Get(key: string, now: Time) returns (r: Option<CacheResult>)
      requires Valid()
      modifies this
      ensures Valid() && order == old(order)
      ensures !config.enabled || key !in old(entries) ==> r == None && entries == old(entries)
      ensures config.enabled && key in old(entries) && now - old(entries)[key].cachedAt > config.ttl ==>
                r == None && entries == old(entries) - {key}
      ensures config.enabled && key in old(entries) && now - old(entries)[key].cachedAt <= config.ttl ==>
                r == Some(ResultOf(old(entries)[key])) && entries == old(entries)
    {
      if !config.enabled {
        return None;
      }
      if key !in entries {
        return None;
      }
      var entry := entries[key];
      if now - entry.cachedAt > config.ttl {
        entries := entries - {key};
        return None;
      }
      return Some(ResultOf(entry));
    }

    /** `evictOldest`. */
    method EvictOldest()
      modifies this
      ensures (order, entries) == Evict(old(order), old(entries))
    {
      ghost var skipped := 0;
      while |order| > 0
        invariant 0 <= skipped <= |old(order)| && order == old(order)[skipped..] && entries == old(entries)
        invariant forall j :: 0 <= j < skipped ==> old(order)[j] !in entries
        decreases |order|
      {
        var oldest := order[0];
        order := order[1..];
        if oldest in entries {
          FirstPresentAt(old(order), entries, skipped);
          entries := entries - {oldest};
          return;
        }
        skipped := skipped + 1;
      }
    }

    /** The eviction loop of `Put`. */
    method MakeRoom()
      requires Valid()
      modifies this
      ensures Valid() && (order, entries) == Room(old(order), old(entries), config.maxEntries)
    {
      while |entries| >= config.maxEntries
        invariant Valid()
        invariant Room(order, entries, config.maxEntries) == Room(old(order), old(entries), config.maxEntries)
        decreases |entries|
      {
        EvictTracked(order, entries);
        EvictOldest();
      }
    }

    /** `Put`: a disabled cache ignores it and an existing key keeps its first value; otherwise
        evict until there is room, then store the result stamped with `now` at the end of the order. */
    method Put(key: string, result: CacheResult, now: Time)
      requires Valid()
      modifies this
      ensures Valid()
      ensures !config.enabled || key in old(entries) ==> entries == old(entries) && order == old(order)
      ensures config.enabled && key !in old(entries) ==>
                order == Room(old(order), old(entries), config.maxEntries).0 + [key] &&
                entries == Room(old(order), old(entries), config.maxEntries).1[key := StoredEntry(result, now)]
    {
      if !config.enabled {
        return;
      }
      if key in entries {
        return;
      }
      MakeRoom();
      entries := entries[key := StoredEntry(result, now)];
      order := order + [key];
    }

    /** `Put` with a repaired eviction order: a key stored again moves to the end of the order
        instead of also keeping its stale earlier place. */
    method PutInOrder(key: string, result: CacheResult, now: Time)
      requires Valid()
      modifies this
      ensures Valid()
      ensures !config.enabled || key in old(entries) ==> entries == old(entries) && order == old(order)
      ensures config.enabled && key !in old(entries) ==>
                order == Without(Room(old(order), old(entries), config.maxEntries).0, key) + [key] &&
                entries == Room(old(order), old(entries), config.maxEntries).1[key := StoredEntry(result, now)]
      ensures PutInOrderState(old(order), old(entries), config, key, result, now, order, entries)
    {
      if !config.enabled {
        return;
      }
      if key in entries {
        return;
      }
      MakeRoom();
      var rest := Without(order, key);
      forall k | k in entries ensures k in rest {
        WithoutKeeps(order, key, k);
      }
      entries := entries[key := StoredEntry(result, now)];
      order := rest + [key];
    }
  }

  /** The order and entries `PutInOrder` leaves, from the ones before: nothing changes when the
      cache is disabled or the key is present; otherwise room is made, the key moves to the end
      of the order and its entry is stored. */
  predicate PutInOrderState(order0: seq<string>, entries0: map<string, Entry>, config: Config, key: string,
                            result: CacheResult, now: Time, order: seq<string>, entries: map<string, Entry>)
  {
    if !config.enabled || key in entries0 then entries == entries0 && order == order0
    else config.maxEntries >= 1 && Tracked(order0, entries0) &&
         order == Without(Room(order0, entries0, config.maxEntries).0, key) + [key] &&
         entries == Room(order0, entries0, config.maxEntries).1[key := StoredEntry(result, now)]
  }

  /** The entry `Put` stores. */
  function StoredEntry(result: CacheResult, now: Time): (e: Entry)
    ensures ResultOf(e) == result && e.cachedAt == now
  { Entry(result.output, result.tokensIn, result.tokensOut, result.model, now) }

  /** `Without` keeps the survivors in their relative order. */
  lemma {:induction false} WithoutSubsequence(xs: seq<string>, x: string, i: nat, j: nat)
    requires i < j < |Without(xs, x)|
    ensures exists i', j' :: 0 <= i' < j' < |xs| && xs[i'] == Without(xs, x)[i] && xs[j'] == Without(xs, x)[j]
    decreases |xs|
  {
    var init := xs[..|xs| - 1];
    var last := xs[|xs| - 1];
    var w := Without(xs, x);
    var wi := Without(init, x);
    assert w == wi + (if last == x then [] else [last]);
    if j < |wi| {
      WithoutSubsequence(init, x, i, j);
      var i', j' :| 0 <= i' < j' < |init| && init[i'] == wi[i] && init[j'] == wi[j];
      assert xs[i'] == w[i] && xs[j'] == w[j];
    } else {
      assert w[j] == last;
      WithoutMembers(init, x, wi[i]);
      var i' :| 0 <= i' < |init| && init[i'] == wi[i];
      assert xs[i'] == w[i] && xs[|xs| - 1] == w[j];
    }
  }

  /** Everything `Without` keeps comes from the list, and `x` itself is gone. */
  lemma WithoutMembers(xs: seq<string>, x: string, y: string)
    requires y in Without(xs, x)
    ensures y != x && exists i :: 0 <= i < |xs| && xs[i] == y
  {
    WithoutCounts(xs, x);
    assert multiset(Without(xs, x))[y] > 0;
    assert y in multiset(xs);
  }

  /** The repaired `Put` keeps the order by insertion time when the clock does not go back. */
  lemma RepairedPutKeepsOrdered(order: seq<string>, entries: map<string, Entry>, key: string, e: Entry)
    requires InsertionOrdered(order, entries)
    requires forall k :: k in entries ==> entries[k].cachedAt <= e.cachedAt
    ensures InsertionOrdered(Without(order, key) + [key], entries[key := e])
  {
    var rest := Without(order, key);
    var o := rest + [key];
    var m := entries[key := e];
    forall i, j | 0 <= i < j < |o| && o[i] in m && o[j] in m ensures m[o[i]].cachedAt <= m[o[j]].cachedAt {
      assert o[i] == rest[i];
      WithoutMembers(order, key, rest[i]);
      if j < |rest| {
        assert o[j] == rest[j];
        WithoutMembers(order, key, rest[j]);
        WithoutSubsequence(order, key, i, j);
      }
    }
  }

  /** A `Get` that expires an entry keeps the order by insertion time. */
  lemma ExpiryKeepsOrdered(order: seq<string>, entries: map<string, Entry>, key: string)
    requires InsertionOrdered(order, entries)
    ensures InsertionOrdered(order, entries - {key})
  {}

  /** As written, a key that expired and was stored again keeps its stale earlier place in the
      order, so the full cache evicts it while an older entry stays. */
  method StaleOrderEvictsNewer() returns (c: ResultCache)
    ensures c.Valid()
    ensures "b" in c.entries && c.entries["b"].cachedAt == 12 * Second
    ensures "a" !in c.entries
  {
    var r := CacheResult("out", 1, 1, "m");
    c := new ResultCache(Config(true, 10 * Second, 2));
    c.Put("a", r, 0);
    var miss := c.Get("a", 11 * Second);
    assert c.entries == map[] && c.order == ["a"];
    StaleSecondRound(c, r);
  }

  /** The second half of the scenario: "b" at 12s, "a" again at 13s, then "c" at 14s. */
  method StaleSecondRound(c: ResultCache, r: CacheResult)
    requires c.Valid() && c.config.enabled && c.config.maxEntries == 2
    requires c.entries == map[] && c.order == ["a"]
    modifies c
    ensures c.Valid()
    ensures "b" in c.entries && c.entries["b"].cachedAt == 12 * Second
    ensures "a" !in c.entries
  {
    c.Put("b", r, 12 * Second);
    c.Put("a", r, 13 * Second);
    StaleRoom(c.order, c.entries);
    c.Put("c", r, 14 * Second);
  }

  /** The repaired `Put`, on the same calls, evicts the older "b" and keeps "a". */
  method RepairedOrderEvictsOldest() returns (c: ResultCache)
    ensures c.Valid()
    ensures "a" in c.entries && c.entries["a"].cachedAt == 13 * Second
    ensures "b" !in c.entries
  {
    var r := CacheResult("out", 1, 1, "m");
    c := new ResultCache(Config(true, 10 * Second, 2));
    SmallWithouts();
    c.PutInOrder("a", r, 0);
    var miss := c.Get("a", 11 * Second);
    assert c.entries == map[] && c.order == ["a"];
    RepairedStoreB(c, r);
    RepairedStoreA(c, r);
    RepairedRoom(c.order, c.entries);
    c.PutInOrder("c", r, 14 * Second);
  }

  /** The repaired scenario's "b" at 12s. */
  method RepairedStoreB(c: ResultCache, r: CacheResult)
    requires c.Valid() && c.config.enabled && c.config.maxEntries == 2
    requires c.entries == map[] && c.order == ["a"]
    modifies c
    ensures c.Valid() && c.order == ["a", "b"] && c.entries == map["b" := StoredEntry(r, 12 * Second)]
  {
    SmallWithouts();
    c.PutInOrder("b", r, 12 * Second);
  }

  /** The repaired scenario's "a" again at 13s. */
  method RepairedStoreA(c: ResultCache, r: CacheResult)
    requires c.Valid() && c.config.enabled && c.config.maxEntries == 2
    requires c.order == ["a", "b"] && c.entries == map["b" := StoredEntry(r, 12 * Second)]
    modifies c
    ensures c.Valid() && c.order == ["b", "a"] && c.entries.Keys == {"a", "b"}
    ensures c.entries["a"].cachedAt == 13 * Second
  {
    SmallWithouts();
    assert |c.entries| == 1;
    c.PutInOrder("a", r, 13 * Second);
  }

  lemma SmallWithouts()
    ensures Without([], "a") == [] && Without(["a"], "b") == ["a"] && Without(["a", "b"], "a") == ["b"]
  {
    assert ["a", "b"][..1] == ["a"];
    assert ["a"][..0] == [];
  }

  lemma StaleRoom(order: seq<string>, entries: map<string, Entry>)
    requires order == ["a", "b", "a"]
    requires entries.Keys == {"a", "b"} && entries["a"].cachedAt == 13 * Second && entries["b"].cachedAt == 12 * Second
    ensures Tracked(order, entries)
    ensures Room(order, entries, 2).1.Keys == {"b"} && Room(order, entries, 2).1["b"] == entries["b"]
  {
    assert order[0] in entries;
    assert FirstPresent(order, entries) == Some(0);
    assert |entries| == 2;
    var next := Evict(order, entries);
    assert next.1 == entries - {"a"};
    assert next.1.Keys == {"b"};
  }

  lemma RepairedRoom(order: seq<string>, entries: map<string, Entry>)
    requires order == ["b", "a"]
    requires entries.Keys == {"a", "b"}
    ensures Tracked(order, entries)
    ensures Room(order, entries, 2).1.Keys == {"a"} && Room(order, entries, 2).1["a"] == entries["a"]
  {
    assert order[0] in entries;
    assert FirstPresent(order, entries) == Some(0);
    assert |entries| == 2;
    var next := Evict(order, entries);
    assert next.1 == entries - {"b"};
    assert next.1.Keys == {"a"};
  }

  /** `CacheKey`'s hash input: role, a 0 byte, then prompt. */
  function CacheKeyInput(prompt: string, role: string): (s: string)
    ensures |s| == |role| + 1 + |prompt|
  { role + [0 as char] + prompt }

  /** `CacheKey` with SHA-256 as `hash`. */
  function CacheKey(prompt: string, role: string, hash: string -> string): string
  { hash(CacheKeyInput(prompt, role)) }

  /** In the hash input the first 0 character is the separator right after the role. */
  lemma SeparatorAt(prompt: string, role: string)
    requires (0 as char) !in role
    ensures CacheKeyInput(prompt, role)[|role|] == 0 as char
    ensures forall i :: 0 <= i < |role| ==> CacheKeyInput(prompt, role)[i] != 0 as char
  {
    var s := CacheKeyInput(prompt, role);
    forall i | 0 <= i < |role| ensures s[i] != 0 as char {
      assert s[i] == role[i];
    }
  }

  /** The 0 separator makes the hash input determine role and prompt when roles hold no 0 byte,
      so an injective hash gives distinct keys to distinct (role, prompt) pairs. */
  lemma CacheKeyInputInjective(p1: string, r1: string, p2: string, r2: string)
    requires (0 as char) !in r1 && (0 as char) !in r2
    requires CacheKeyInput(p1, r1) == CacheKeyInput(p2, r2)
    ensures p1 == p2 && r1 == r2
  {
    var s := CacheKeyInput(p1, r1);
    SeparatorAt(p1, r1);
    SeparatorAt(p2, r2);
    assert |r1| == |r2|;
    assert r1 == s[..|r1|] == r2;
    assert p1 == s[|r1| + 1..] == p2;
  }

  /** Two different role and prompt pairs share a key only through a SHA-256 collision:
      their hash inputs differ but hash alike. */
  lemma CacheKeyCollision(p1: string, r1: string, p2: string, r2: string, hash: string -> string)
    requires (0 as char) !in r1 && (0 as char) !in r2
    requires (p1 != p2 || r1 != r2) && CacheKey(p1, r1, hash) == CacheKey(p2, r2, hash)
    ensures CacheKeyInput(p1, r1) != CacheKeyInput(p2, r2) && hash(CacheKeyInput(p1, r1)) == hash(CacheKeyInput(p2, r2))
  {
    if CacheKeyInput(p1, r1) == CacheKeyInput(p2, r2) {
      CacheKeyInputInjective(p1, r1, p2, r2);
      assert false;
    }
  }

  /** `shouldSkipCache`: the task opted out with `hortator.ai/no-cache: "true"`. */
  function ShouldSkipCache(annotations: map<string, string>): (r: bool)
    ensures r <==> "hortator.ai/no-cache" in annotations && annotations["hortator.ai/no-cache"] == "true"
  { "hortator.ai/no-cache" in annotations && annotations["hortator.ai/no-cache"] == "true" }
}
