// The Qdrant vector store's deterministic parts (internal/vectorstore/qdrant.go): the 64-bit
// FNV-1a point id, the reserved payload keys written on upsert and read back on search, the
// search filter, and the constructor's option handling.
module Qdrant {
  import opened Wrappers

  // ---------------------------------------------------------------- docID

  const OffsetBasis: bv64 := 14695981039346656037
  const FnvPrime: bv64 := 1099511628211

  /** One FNV-1a step: XOR in the byte, then multiply by the prime (wrapping at 64 bits). */
  function Step(h: bv64, b: bv8): bv64
  { (h ^ (b as bv64)) * FnvPrime }

  /** The hash state after feeding `bytes` to state `h`. */
  function FnvFrom(h: bv64, bytes: seq<bv8>): bv64
  { if bytes == [] then h else Step(FnvFrom(h, bytes[..|bytes| - 1]), bytes[|bytes| - 1]) }

  function Fnv1a(bytes: seq<bv8>): bv64
  { FnvFrom(OffsetBasis, bytes) }

  /** The UTF-8 encoding of a string, the bytes Go iterates over. */
  function Utf8(s: string): (r: seq<bv8>)
    ensures |r| >= |s|
  {
    if s == [] then []
    else
      var c := s[0] as int;
      var enc: seq<bv8> :=
        if c < 0x80 then [c as bv8]
        else if c < 0x800 then [(0xC0 + c / 64) as bv8, (0x80 + c % 64) as bv8]
        else if c < 0x10000 then [(0xE0 + c / 4096) as bv8, (0x80 + (c / 64) % 64) as bv8, (0x80 + c % 64) as bv8]
        else [(0xF0 + c / 262144) as bv8, (0x80 + (c / 4096) % 64) as bv8, (0x80 + (c / 64) % 64) as bv8, (0x80 + c % 64) as bv8];
      enc + Utf8(s[1..])
  }

  /** The point id of a document id. */
  function PointId(id: string): bv64
  { Fnv1a(Utf8(id)) }

  /** `docID`: the hash loop over the id's bytes. */
  method DocId(id: string) returns (h: bv64)
    ensures h == PointId(id)
  {
    var bytes := Utf8(id);
    h := OffsetBasis;
    var i := 0;
    while i < |bytes|
      invariant 0 <= i <= |bytes|
      invariant h == FnvFrom(OffsetBasis, bytes[..i])
    {
      FnvSnoc(OffsetBasis, bytes, i);
      h := Step(h, bytes[i]);
      i := i + 1;
    }
    assert bytes[..|bytes|] == bytes;
  }

  /** Feeding one more byte is one more step. */
  lemma FnvSnoc(h0: bv64, bytes: seq<bv8>, i: nat)
    requires i < |bytes|
    ensures FnvFrom(h0, bytes[..i + 1]) == Step(FnvFrom(h0, bytes[..i]), bytes[i])
  {
    assert bytes[..i + 1][..i] == bytes[..i];
  }

  /** The empty id hashes to the offset basis. */
  lemma EmptyIdIsOffset()
    ensures PointId("") == OffsetBasis
  {
  }

  /** Hashing is incremental: feeding `a` then `b` is feeding `a + b`. */
  lemma {:induction false} FnvFromAppend(h: bv64, a: seq<bv8>, b: seq<bv8>)
    ensures FnvFrom(h, a + b) == FnvFrom(FnvFrom(h, a), b)
    decreases |b|
  {
    if b == [] {
      assert a + b == a;
    } else {
      assert (a + b)[..|a + b| - 1] == a + b[..|b| - 1];
      assert (a + b)[|a + b| - 1] == b[|b| - 1];
      FnvFromAppend(h, a, b[..|b| - 1]);
    }
  }

  // ---------------------------------------------------------------- payloads

  /** A stored document; the embedding vector (floats) is not part of this model. */
  datatype Document = Document(id: string, taskId: string, namespace: string, content: string,
                               metadata: map<string, string>)

  const ReservedKeys := {"_id", "_task_id", "_namespace", "_content"}

  /** The payload `Upsert` sends: the metadata with the reserved keys written over it. */
  function Payload(metadata: map<string, string>, doc: Document): (p: map<string, string>)
    ensures p.Keys == metadata.Keys + ReservedKeys
    ensures p["_id"] == doc.id && p["_task_id"] == doc.taskId && p["_namespace"] == doc.namespace && p["_content"] == doc.content
    ensures forall k :: k in metadata && k !in ReservedKeys ==> p[k] == metadata[k]
  {
    metadata["_id" := doc.id]["_task_id" := doc.taskId]["_namespace" := doc.namespace]["_content" := doc.content]
  }

  /** The point `Upsert` writes. */
  datatype Point = Point(id: bv64, payload: map<string, string>)

  function UpsertPoint(doc: Document): Point
  { Point(PointId(doc.id), Payload(doc.metadata, doc)) }

  /** The point ids `Delete` removes. */
  function DeletePoints(id: string): seq<bv64>
  { [PointId(id)] }

  /** Upsert and Delete address the same point for the same document id. */
  lemma UpsertDeleteSamePoint(doc: Document)
    ensures DeletePoints(doc.id) == [UpsertPoint(doc).id]
  {
  }

  /** A Go map the caller owns; `Upsert` writes the reserved keys into it in place. */
  class StringMap {
    var entries: map<string, string>
    constructor(entries: map<string, string>)
      ensures this.entries == entries
    { this.entries := entries; }
  }

  /** The payload step of `Upsert`: a nil metadata map is replaced by a new one; otherwise the
      caller's own map receives the reserved keys and is sent as the payload. */
  method UpsertPayload(doc: Document, metadata: StringMap?) returns (payload: StringMap)
    modifies metadata
    ensures metadata != null ==> payload == metadata && payload.entries == Payload(old(metadata.entries), doc)
    ensures metadata == null ==> fresh(payload) && payload.entries == Payload(map[], doc)
  {
    if metadata == null {
      payload := new StringMap(map[]);
    } else {
      payload := metadata;
    }
    payload.entries := payload.entries["_id" := doc.id];
    payload.entries := payload.entries["_task_id" := doc.taskId];
    payload.entries := payload.entries["_namespace" := doc.namespace];
    payload.entries := payload.entries["_content" := doc.content];
  }

  /** A missing map key reads as "" in Go. */
  function Lookup(m: map<string, string>, k: string): string
  { if k in m then m[k] else "" }

  /** The document `SearchByVector` rebuilds from a hit's payload; the whole payload,
      reserved keys included, becomes the metadata. */
  function FromPayload(payload: map<string, string>): (doc: Document)
    ensures doc.metadata == payload
  {
    Document(Lookup(payload, "_id"), Lookup(payload, "_task_id"), Lookup(payload, "_namespace"),
             Lookup(payload, "_content"), payload)
  }

  /** The id, task, namespace and content of a document survive an upsert and a search. */
  lemma PayloadRoundTrip(doc: Document)
    ensures var back := FromPayload(UpsertPoint(doc).payload);
      back.id == doc.id && back.taskId == doc.taskId && back.namespace == doc.namespace && back.content == doc.content
    ensures forall k :: k in doc.metadata && k !in ReservedKeys ==> FromPayload(UpsertPoint(doc).payload).metadata[k] == doc.metadata[k]
  {
  }

  // ---------------------------------------------------------------- filter

  datatype Clause = Match(key: string, value: string)

  /** `order` lists the filter's keys once each, in the map's iteration order. */
  ghost predicate EnumeratesKeys(order: seq<string>, filter: map<string, string>)
  {
    (forall k :: k in order <==> k in filter) && forall i, j :: 0 <= i < j < |order| ==> order[i] != order[j]
  }

  /** The `must` clauses of a search filter, in map iteration order; no filter when empty. */
  function FilterClauses(filter: map<string, string>, order: seq<string>): (r: Option<seq<Clause>>)
    requires EnumeratesKeys(order, filter)
    ensures |filter| == 0 <==> r.None?
    ensures r.Some? ==> |r.value| == |filter|
    ensures r.Some? ==> forall i :: 0 <= i < |r.value| ==> r.value[i].key in filter && r.value[i].value == filter[r.value[i].key]
    ensures r.Some? ==> forall k :: k in filter ==> exists i :: 0 <= i < |r.value| && r.value[i].key == k
  {
    DistinctCount(order, filter);
    if |filter| == 0 then None
    else
      var cs := seq(|order|, i requires 0 <= i < |order| => Match(order[i], filter[order[i]]));
      assert forall k :: k in filter ==> exists i :: 0 <= i < |cs| && cs[i].key == k by {
        forall k | k in filter ensures exists i :: 0 <= i < |cs| && cs[i].key == k {
          var i :| 0 <= i < |order| && order[i] == k;
          assert cs[i].key == k;
        }
      }
      Some(cs)
  }

  lemma DistinctCount(order: seq<string>, filter: map<string, string>)
    requires EnumeratesKeys(order, filter)
    ensures |order| == |filter|
  {
    var s := set k | k in order;
    assert s == filter.Keys;
    DistinctCard(order);
  }

  lemma {:induction false} DistinctCard(order: seq<string>)
    requires forall i, j :: 0 <= i < j < |order| ==> order[i] != order[j]
    ensures |set k | k in order| == |order|
    decreases |order|
  {
    if order != [] {
      var rest := order[1..];
      DistinctCard(rest);
      assert (set k | k in order) == (set k | k in rest) + {order[0]};
      assert order[0] !in rest;
    }
  }

  // ---------------------------------------------------------------- NewQdrant

  datatype StoreOption = WithCollection(name: string) | WithEmbeddingDimension(dim: int)
  datatype Config = Config(endpoint: string, collection: string, dimension: int)

  const DefaultCollection := "hortator-knowledge"
  const DefaultDimension := 1536

  /** Option `i` sets the collection and no later option does. */
  predicate LastCollectionAt(opts: seq<StoreOption>, i: nat)
    requires i < |opts|
  { opts[i].WithCollection? && forall j :: i < j < |opts| ==> !opts[j].WithCollection? }

  /** Option `i` sets the embedding dimension and no later option does. */
  predicate LastDimensionAt(opts: seq<StoreOption>, i: nat)
    requires i < |opts|
  { opts[i].WithEmbeddingDimension? && forall j :: i < j < |opts| ==> !opts[j].WithEmbeddingDimension? }

  /** The options applied in order over the defaults; a later option of a kind wins. */
  function ApplyOptions(c: Config, opts: seq<StoreOption>): (r: Config)
    ensures r.endpoint == c.endpoint
    ensures (forall i :: 0 <= i < |opts| ==> !opts[i].WithCollection?) ==> r.collection == c.collection
    ensures (forall i :: 0 <= i < |opts| ==> !opts[i].WithEmbeddingDimension?) ==> r.dimension == c.dimension
    ensures opts != [] && opts[|opts| - 1].WithCollection? ==> r.collection == opts[|opts| - 1].name
    ensures opts != [] && opts[|opts| - 1].WithEmbeddingDimension? ==> r.dimension == opts[|opts| - 1].dim
    ensures forall i :: 0 <= i < |opts| && LastCollectionAt(opts, i) ==> r.collection == opts[i].name
    ensures forall i :: 0 <= i < |opts| && LastDimensionAt(opts, i) ==> r.dimension == opts[i].dim
  {
    if opts == [] then c
    else
      var prev := ApplyOptions(c, opts[..|opts| - 1]);
      forall i | 0 <= i < |opts| - 1 && LastCollectionAt(opts, i)
        ensures LastCollectionAt(opts[..|opts| - 1], i) && !opts[|opts| - 1].WithCollection?
      {
        assert forall j :: i < j < |opts| - 1 ==> opts[..|opts| - 1][j] == opts[j];
      }
      forall i | 0 <= i < |opts| - 1 && LastDimensionAt(opts, i)
        ensures LastDimensionAt(opts[..|opts| - 1], i) && !opts[|opts| - 1].WithEmbeddingDimension?
      {
        assert forall j :: i < j < |opts| - 1 ==> opts[..|opts| - 1][j] == opts[j];
      }
      match opts[|opts| - 1] {
        case WithCollection(n) => prev.(collection := n)
        case WithEmbeddingDimension(d) => prev.(dimension := d)
      }
  }

  /** `NewQdrant`: an endpoint is required. */
  function NewQdrant(endpoint: string, opts: seq<StoreOption>): (r: Result<Config>)
    ensures endpoint == "" <==> r == Err("qdrant endpoint is required")
    ensures r.Ok? ==> r.value == ApplyOptions(Config(endpoint, DefaultCollection, DefaultDimension), opts)
  {
    if endpoint == "" then Err("qdrant endpoint is required")
    else Ok(ApplyOptions(Config(endpoint, DefaultCollection, DefaultDimension), opts))
  }
}
