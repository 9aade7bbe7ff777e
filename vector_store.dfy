/** The data shaping of `src/vector_store.py`: how `search` turns the optional
    metadata fields into a Qdrant filter and the returned points into
    `{text, metadata, score}` records, and how `upsert_chunks` turns chunks and
    their vectors into points. The Qdrant client is an oracle parameter, and so
    is `uuid5`, which is a deterministic function of its arguments. */
module VectorStore {
  import opened Wrappers
  import opened Values

  type Vector = seq<real>

  function Min(a: nat, b: nat): nat {
    if a < b then a else b
  }

  /** `FieldCondition(key=..., match=MatchValue(value=...))`: the payload field
      `key` must equal `value`. */
  datatype FieldCondition = FieldCondition(key: string, value: Value)

  /** `Filter(must=[...])`: every condition must hold. */
  datatype Filter = Filter(must: seq<FieldCondition>)

  /** The arguments of `client.query_points` (the collection is fixed and the
      payload is always requested). */
  datatype Query = Query(vector: Vector, filter: Option<Filter>, limit: nat)

  /** A returned point: its payload and its similarity score. */
  datatype ScoredPoint = ScoredPoint(payload: Payload, score: real)

  /** A search result `{"text", "metadata", "score"}`: the chunk dict the RAG
      pipeline works on. */
  datatype Chunk = Chunk(text: string, metadata: Payload, score: real)

  /** A chunk produced by ingestion: `{"chunk_id", "text", "metadata"}`. */
  datatype ChunkRecord = ChunkRecord(chunkId: string, text: string, metadata: Payload)

  /** `PointStruct(id=..., vector=..., payload=...)`. */
  datatype PointStruct = PointStruct(id: string, vector: Vector, payload: Payload)

  /** `_NS`, the namespace for the point ids. */
  const Namespace: string := "a1b2c3d4-e5f6-7890-abcd-ef1234567890"

  // ---------------------------------------------------------------------------
  // Filters

  /** Python truthiness of an optional string and of an optional int: `None`,
      `""` and `0` are all false. */
  predicate TruthyStr(o: Option<string>) {
    o.Some? && o.value != ""
  }

  predicate TruthyInt(o: Option<int>) {
    o.Some? && o.value != 0
  }

  /** What Qdrant does with one condition and with a `must` filter. */
  predicate Holds(p: Payload, c: FieldCondition) {
    c.key in p && p[c.key] == c.value
  }

  predicate AllHold(p: Payload, conditions: seq<FieldCondition>) {
    forall k :: 0 <= k < |conditions| ==> Holds(p, conditions[k])
  }

  predicate Satisfies(p: Payload, filter: Option<Filter>) {
    filter.None? || AllHold(p, filter.value.must)
  }

  /** The restriction the caller asked for: each truthy field must be matched
      exactly by the payload, the others are unconstrained. */
  predicate Constrains(p: Payload, ticker: Option<string>, formType: Option<string>, filingYear: Option<int>) {
    && (TruthyStr(ticker) ==> "ticker" in p && p["ticker"] == Str(ticker.value))
    && (TruthyStr(formType) ==> "form_type" in p && p["form_type"] == Str(formType.value))
    && (TruthyInt(filingYear) ==> "filing_year" in p && p["filing_year"] == Int(filingYear.value))
  }

  function Keys(conditions: seq<FieldCondition>): (ks: seq<string>)
    ensures |ks| == |conditions|
  {
    seq(|conditions|, k requires 0 <= k < |conditions| => conditions[k].key)
  }

  /** The condition list `search` builds, as a value. */
  function ConditionsFor(ticker: Option<string>, formType: Option<string>, filingYear: Option<int>)
    : seq<FieldCondition>
  {
    (if TruthyStr(ticker) then [FieldCondition("ticker", Str(ticker.value))] else [])
    + (if TruthyStr(formType) then [FieldCondition("form_type", Str(formType.value))] else [])
    + (if TruthyInt(filingYear) then [FieldCondition("filing_year", Int(filingYear.value))] else [])
  }

  /** The condition list of `search`, built by conditional appends: one
      condition per truthy field, in the order ticker, form_type, filing_year,
      whose conjunction is exactly the restriction asked for. */
  method BuildConditions(ticker: Option<string>, formType: Option<string>, filingYear: Option<int>)
    returns (conditions: seq<FieldCondition>)
    ensures conditions == ConditionsFor(ticker, formType, filingYear)
    ensures Keys(conditions)
            == (if TruthyStr(ticker) then ["ticker"] else [])
               + (if TruthyStr(formType) then ["form_type"] else [])
               + (if TruthyInt(filingYear) then ["filing_year"] else [])
    ensures forall p :: AllHold(p, conditions) <==> Constrains(p, ticker, formType, filingYear)
  {
    conditions := [];
    if TruthyStr(ticker) {
      conditions := Append(conditions, FieldCondition("ticker", Str(ticker.value)));
    }
    assert forall p :: AllHold(p, conditions)
                       <==> (TruthyStr(ticker) ==> "ticker" in p && p["ticker"] == Str(ticker.value));
    ghost var afterTicker := conditions;
    if TruthyStr(formType) {
      conditions := Append(conditions, FieldCondition("form_type", Str(formType.value)));
    }
    assert forall p :: AllHold(p, conditions)
                       <==> AllHold(p, afterTicker)
                            && (TruthyStr(formType) ==> "form_type" in p && p["form_type"] == Str(formType.value));
    if TruthyInt(filingYear) {
      conditions := Append(conditions, FieldCondition("filing_year", Int(filingYear.value)));
    }
  }

  /** `conditions.append(c)`, with what it does to the conjunction. */
  function Append(conditions: seq<FieldCondition>, c: FieldCondition): (r: seq<FieldCondition>)
    ensures Keys(r) == Keys(conditions) + [c.key]
    ensures forall p :: AllHold(p, r) <==> AllHold(p, conditions) && Holds(p, c)
  {
    var r := conditions + [c];
    assert r[|conditions|] == c;
    assert forall k :: 0 <= k < |conditions| ==> r[k] == conditions[k];
    r
  }

  /** `Filter(must=conditions) if conditions else None`. */
  function QueryFilter(conditions: seq<FieldCondition>): (f: Option<Filter>)
    ensures f.None? <==> conditions == []
    ensures forall p :: Satisfies(p, f) <==> AllHold(p, conditions)
  {
    if conditions == [] then None else Some(Filter(conditions))
  }

  // ---------------------------------------------------------------------------
  // Hits

  /** The `text` entry of a payload, when there is one, is a string: true of
      every point `upsert_chunks` writes (see `UpsertPayloadTextIsString`). */
  predicate TextIsString(p: Payload) {
    "text" in p ==> p["text"].Str?
  }

  predicate TextsAreStrings(hits: seq<ScoredPoint>) {
    forall k :: 0 <= k < |hits| ==> TextIsString(hits[k].payload)
  }

  /** One hit as `{text, metadata, score}`. */
  function ProjectHit(h: ScoredPoint): (c: Chunk)
    requires TextIsString(h.payload)
    ensures c.text == if "text" in h.payload then h.payload["text"].s else ""
    ensures c.metadata.Keys == h.payload.Keys - {"text"}
    ensures forall key :: key in c.metadata ==> c.metadata[key] == h.payload[key]
    ensures c.score == h.score
  {
    Chunk(if "text" in h.payload then h.payload["text"].s else "", h.payload - {"text"}, h.score)
  }

  /** The result list of `search`: one record per hit, in hit order. */
  function ProjectHits(hits: seq<ScoredPoint>): (cs: seq<Chunk>)
    requires TextsAreStrings(hits)
    ensures |cs| == |hits|
    ensures forall k :: 0 <= k < |hits| ==> cs[k] == ProjectHit(hits[k])
  {
    seq(|hits|, k requires 0 <= k < |hits| => ProjectHit(hits[k]))
  }

  /** `search`: builds the filter, asks the index (an oracle; `None` is a
      client exception, which propagates) for `top_k` points and projects them. */
  method Search(queryVector: Vector, ticker: Option<string>, formType: Option<string>,
                filingYear: Option<int>, topK: nat, index: Query -> Option<seq<ScoredPoint>>)
    returns (result: Option<seq<Chunk>>, query: Query)
    requires forall q :: index(q).Some? ==> TextsAreStrings(index(q).value)
    ensures query == Query(queryVector, QueryFilter(ConditionsFor(ticker, formType, filingYear)), topK)
    ensures query.vector == queryVector && query.limit == topK
    ensures query.filter.None? <==> !TruthyStr(ticker) && !TruthyStr(formType) && !TruthyInt(filingYear)
    ensures forall p :: Satisfies(p, query.filter) <==> Constrains(p, ticker, formType, filingYear)
    ensures index(query).None? ==> result.None?
    ensures index(query).Some? ==> result == Some(ProjectHits(index(query).value))
  {
    var conditions := BuildConditions(ticker, formType, filingYear);
    query := Query(queryVector, QueryFilter(conditions), topK);
    var points := index(query);
    if points.None? {
      result := None;
    } else {
      result := Some(ProjectHits(points.value));
    }
  }

  // ---------------------------------------------------------------------------
  // Upsert

  /** The payload of a point: `chunk_id` and `text`, then the metadata spread
      over them, so a metadata key of the same name wins. */
  function PointPayload(chunk: ChunkRecord): (p: Payload)
    ensures p.Keys == {"chunk_id", "text"} + chunk.metadata.Keys
    ensures forall key :: key in chunk.metadata ==> p[key] == chunk.metadata[key]
    ensures "chunk_id" !in chunk.metadata ==> p["chunk_id"] == Str(chunk.chunkId)
    ensures "text" !in chunk.metadata ==> p["text"] == Str(chunk.text)
  {
    map["chunk_id" := Str(chunk.chunkId), "text" := Str(chunk.text)] + chunk.metadata
  }

  /** The `points` list of `upsert_chunks`: `zip` pairs chunks with vectors and
      stops at the shorter list. */
  function UpsertPoints(chunks: seq<ChunkRecord>, vectors: seq<Vector>, uuid5: (string, string) -> string)
    : (points: seq<PointStruct>)
    ensures |points| == Min(|chunks|, |vectors|)
    ensures forall k :: 0 <= k < |points| ==>
              points[k] == PointStruct(uuid5(Namespace, chunks[k].chunkId), vectors[k], PointPayload(chunks[k]))
    ensures forall j, k :: 0 <= j < |points| && 0 <= k < |points| && chunks[j].chunkId == chunks[k].chunkId
              ==> points[j].id == points[k].id
  {
    seq(Min(|chunks|, |vectors|), k requires 0 <= k < Min(|chunks|, |vectors|) =>
      PointStruct(uuid5(Namespace, chunks[k].chunkId), vectors[k], PointPayload(chunks[k])))
  }

  /** `upsert_chunks`: sends the points (the client is an oracle that either
      accepts them or raises, `None`) and returns how many there were. */
  function UpsertChunks(chunks: seq<ChunkRecord>, vectors: seq<Vector>, uuid5: (string, string) -> string,
                        upsert: seq<PointStruct> -> bool): (stored: Option<nat>)
    ensures upsert(UpsertPoints(chunks, vectors, uuid5)) ==> stored == Some(Min(|chunks|, |vectors|))
    ensures !upsert(UpsertPoints(chunks, vectors, uuid5)) ==> stored.None?
  {
    var points := UpsertPoints(chunks, vectors, uuid5);
    if upsert(points) then Some(|points|) else None
  }

  /** A point written by `upsert_chunks` keeps a string `text` unless the
      chunk's metadata overrides it with something else. */
  lemma UpsertPayloadTextIsString(chunk: ChunkRecord)
    requires "text" in chunk.metadata ==> chunk.metadata["text"].Str?
    ensures TextIsString(PointPayload(chunk))
  {
  }

  /** Searching returns what was upserted: a point whose payload came from a
      chunk is read back with that chunk's text, and with its metadata plus the
      `chunk_id` entry (the metadata's own `chunk_id`, if it has one). */
  lemma {:induction false} SearchReadsBackUpsert(chunk: ChunkRecord, score: real)
    requires "text" !in chunk.metadata
    ensures TextIsString(PointPayload(chunk))
    ensures ProjectHit(ScoredPoint(PointPayload(chunk), score))
            == Chunk(chunk.text, map["chunk_id" := Str(chunk.chunkId)] + chunk.metadata, score)
  {
    var p := PointPayload(chunk);
    var c := ProjectHit(ScoredPoint(p, score));
    var m := map["chunk_id" := Str(chunk.chunkId)] + chunk.metadata;
    assert c.metadata.Keys == m.Keys;
    forall key | key in m ensures c.metadata[key] == m[key] {
      if key in chunk.metadata {
        assert m[key] == chunk.metadata[key];
      }
    }
    assert c.metadata == m;
  }
}
