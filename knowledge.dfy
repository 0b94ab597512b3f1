/**
 * The knowledge ingest route: an append-only table of knowledge chunks and a
 * duplicate lookup that makes ingesting the same chunk twice store it once.
 *
 * The table is a sequence in insertion order; the database picks any matching
 * row for `LIMIT 1` without an ordering, and this model picks the first. Fresh
 * row ids come from a counter instead of `uuid4`. The embedding call (and any
 * other failure after the duplicate check) is an input outcome.
 */
module Knowledge {
  import opened Wrappers
  import opened HttpErrors

  /** One row of `knowledge_chunks`; the scope columns are nullable. */
  datatype KnowledgeChunk = KnowledgeChunk(
    id: nat,
    source: string,
    docType: Option<string>,
    supplierId: Option<string>,
    region: Option<string>,
    chunkText: string,
    embedding: seq<real>)

  /** `KnowledgeIngestRequest`. */
  datatype IngestRequest = IngestRequest(
    source: string,
    chunkText: string,
    docType: Option<string>,
    supplierId: Option<string>,
    region: Option<string>)

  /** `KnowledgeIngestResponse`. */
  datatype IngestResponse = IngestResponse(status: string, source: string, id: nat, deduped: bool)

  const STORED: string := "stored"
  const INGEST_FAILED_PREFIX: string := "Failed to ingest knowledge chunk: "

  predicate AtMost(o: Option<string>, n: nat) {
    o.None? || |o.value| <= n
  }

  /** The request schema: a source of at most 200 characters, a non-empty
      text, and optional scope fields of at most 50 characters. */
  predicate ValidRequest(req: IngestRequest)
    ensures ValidRequest(req) ==> req.chunkText != []
  {
    && |req.source| <= 200
    && |req.chunkText| >= 1
    && AtMost(req.docType, 50)
    && AtMost(req.supplierId, 50)
    && AtMost(req.region, 50)
  }

  /** A scope column matches a parameter when the parameter is null (a
      wildcard) or the column holds exactly that value. */
  predicate ScopeMatches(param: Option<string>, column: Option<string>) {
    param.None? || column == param
  }

  /** The WHERE clause of the duplicate query. */
  predicate IsDuplicate(c: KnowledgeChunk, req: IngestRequest) {
    && c.source == req.source
    && c.chunkText == req.chunkText
    && ScopeMatches(req.supplierId, c.supplierId)
    && ScopeMatches(req.region, c.region)
    && ScopeMatches(req.docType, c.docType)
  }

  /** The id of the first duplicate row of the table, if there is one. */
  function FirstDuplicate(chunks: seq<KnowledgeChunk>, req: IngestRequest): (r: Option<nat>)
    ensures r.None? <==> forall i :: 0 <= i < |chunks| ==> !IsDuplicate(chunks[i], req)
    ensures r.Some? ==> exists i :: 0 <= i < |chunks| && IsDuplicate(chunks[i], req) && chunks[i].id == r.value
  {
    if chunks == [] then None
    else if IsDuplicate(chunks[0], req) then Some(chunks[0].id)
    else
      var rest := FirstDuplicate(chunks[1..], req);
      assert rest.Some? ==> exists i :: 0 <= i < |chunks| && IsDuplicate(chunks[i], req) && chunks[i].id == rest.value by {
        if rest.Some? {
          var j :| 0 <= j < |chunks[1..]| && IsDuplicate(chunks[1..][j], req) && chunks[1..][j].id == rest.value;
          assert chunks[j + 1] == chunks[1..][j];
        }
      }
      assert rest.None? ==> forall i :: 0 <= i < |chunks| ==> !IsDuplicate(chunks[i], req) by {
        if rest.None? {
          forall i | 0 <= i < |chunks| ensures !IsDuplicate(chunks[i], req) {
            if i > 0 { assert chunks[i] == chunks[1..][i - 1]; }
          }
        }
      }
      rest
  }

  /** The row an ingest stores for a request. */
  function NewChunk(id: nat, req: IngestRequest, embedding: seq<real>): KnowledgeChunk {
    KnowledgeChunk(id, req.source, req.docType, req.supplierId, req.region, req.chunkText, embedding)
  }

  /** When the table holds no duplicate of a request, the row stored from it
      is the duplicate found from then on. */
  lemma {:induction false} StoredChunkIsFound(chunks: seq<KnowledgeChunk>, id: nat, req: IngestRequest, embedding: seq<real>)
    requires FirstDuplicate(chunks, req).None?
    ensures FirstDuplicate(chunks + [NewChunk(id, req, embedding)], req) == Some(id)
  {
    var t := chunks + [NewChunk(id, req, embedding)];
    if chunks == [] {
      assert IsDuplicate(t[0], req);
    } else {
      assert !IsDuplicate(chunks[0], req);
      assert t[1..] == chunks[1..] + [NewChunk(id, req, embedding)];
      StoredChunkIsFound(chunks[1..], id, req, embedding);
    }
  }

  /** No two rows share an id. */
  predicate DistinctIds(chunks: seq<KnowledgeChunk>) {
    forall i, j :: 0 <= i < j < |chunks| ==> chunks[i].id != chunks[j].id
  }

  /** `id` is the id of exactly one row. */
  predicate NamesOneRow(chunks: seq<KnowledgeChunk>, id: nat) {
    && (exists i :: 0 <= i < |chunks| && chunks[i].id == id)
    && (forall i, j :: 0 <= i < |chunks| && 0 <= j < |chunks| && chunks[i].id == id && chunks[j].id == id ==> i == j)
  }

  /** With distinct ids, the id the duplicate query returns identifies one
      row of the table. */
  lemma DuplicateNamesOneRow(chunks: seq<KnowledgeChunk>, req: IngestRequest)
    requires DistinctIds(chunks) && FirstDuplicate(chunks, req).Some?
    ensures NamesOneRow(chunks, FirstDuplicate(chunks, req).value)
  {
    var id := FirstDuplicate(chunks, req).value;
    assert forall i, j :: 0 <= i < |chunks| && 0 <= j < |chunks| && i != j ==> chunks[i].id != chunks[j].id;
  }

  /** The knowledge table. */
  class KnowledgeBase {
    var chunks: seq<KnowledgeChunk>
    var nextId: nat

    /** Every stored id is below the id counter, and ids are distinct. */
    ghost predicate Valid()
      reads this
    {
      && (forall i :: 0 <= i < |chunks| ==> chunks[i].id < nextId)
      && DistinctIds(chunks)
    }

    constructor ()
      ensures Valid() && chunks == [] && nextId == 0
    {
      chunks := [];
      nextId := 0;
    }

    /** `_find_duplicate`: scans the table in order. */
    method FindDuplicate(req: IngestRequest) returns (r: Option<nat>)
      ensures r == FirstDuplicate(chunks, req)
    {
      var i := |chunks|;
      r := None;
      while i > 0
        invariant 0 <= i <= |chunks|
        invariant r == FirstDuplicate(chunks[i..], req)
      {
        i := i - 1;
        assert chunks[i..][1..] == chunks[i + 1..];
        if IsDuplicate(chunks[i], req) {
          r := Some(chunks[i].id);
        }
      }
      assert chunks[0..] == chunks;
    }

    /** `ingest_chunk`. `stored` is the outcome of embedding and inserting
        the text: the embedding, or the message of the exception raised. */
    method Ingest(req: IngestRequest, stored: Result<seq<real>, string>) returns (r: Result<IngestResponse, ApiError>)
      requires Valid()
      modifies this
      ensures Valid()
      ensures !ValidRequest(req) ==> r == Err(ValidationError) && chunks == old(chunks) && nextId == old(nextId)
      ensures ValidRequest(req) && FirstDuplicate(old(chunks), req).Some? ==>
        && r == Ok(IngestResponse(STORED, req.source, FirstDuplicate(old(chunks), req).value, true))
        && chunks == old(chunks) && nextId == old(nextId)
      ensures ValidRequest(req) && FirstDuplicate(old(chunks), req).None? && stored.Err? ==>
        && r == Err(HttpError(500, INGEST_FAILED_PREFIX + stored.error))
        && chunks == old(chunks) && nextId == old(nextId)
      ensures ValidRequest(req) && FirstDuplicate(old(chunks), req).None? && stored.Ok? ==>
        && r == Ok(IngestResponse(STORED, req.source, old(nextId), false))
        && chunks == old(chunks) + [NewChunk(old(nextId), req, stored.value)]
        && nextId == old(nextId) + 1
      ensures r.Ok? ==> NamesOneRow(chunks, r.value.id)
    {
      if !ValidRequest(req) {
        return Err(ValidationError);
      }
      var dup := FindDuplicate(req);
      if dup.Some? {
        DuplicateNamesOneRow(chunks, req);
        return Ok(IngestResponse(STORED, req.source, dup.value, true));
      }
      match stored {
        case Err(msg) =>
          r := Err(HttpError(500, INGEST_FAILED_PREFIX + msg));
        case Ok(embedding) =>
          var id := nextId;
          chunks := chunks + [NewChunk(id, req, embedding)];
          nextId := nextId + 1;
          r := Ok(IngestResponse(STORED, req.source, id, false));
          assert chunks[|chunks| - 1].id == id;
          forall i, j | 0 <= i < |chunks| && 0 <= j < |chunks| && chunks[i].id == id && chunks[j].id == id
            ensures i == j
          {
            assert i == |chunks| - 1 && j == |chunks| - 1;
          }
      }
    }
  }

  /** Ingesting the same valid request twice, both embeddings succeeding,
      answers with the same id both times and adds at most one row. */
  method IngestTwice(kb: KnowledgeBase, req: IngestRequest, e1: seq<real>, e2: seq<real>)
    returns (r1: Result<IngestResponse, ApiError>, r2: Result<IngestResponse, ApiError>)
    requires kb.Valid() && ValidRequest(req)
    modifies kb
    ensures kb.Valid()
    ensures r1.Ok? && r2.Ok? && r1.value.id == r2.value.id && r2.value.deduped
    ensures |kb.chunks| <= |old(kb.chunks)| + 1
  {
    ghost var before := kb.chunks;
    r1 := kb.Ingest(req, Ok(e1));
    if !r1.value.deduped {
      StoredChunkIsFound(before, r1.value.id, req, e1);
    }
    r2 := kb.Ingest(req, Ok(e2));
  }
}
