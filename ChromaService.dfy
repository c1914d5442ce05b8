/** The vector-index adapter of backend/services/chromaService.js. The ChromaDB
    client is a foreign engine: the collection is modelled by the map of
    entries it stores, each call into the client may throw (a `Faults` record
    says which do), embeddings come from an order-preserving oracle, and the
    nearest-neighbour query is an oracle on the query parameters. */
module ChromaService {
  import opened Common
  import opened Chunker

  type Vector = seq<real>

  /** The metadata stored beside every chunk's vector. */
  datatype ChunkMetadata = ChunkMetadata(
    documentId: string, chunkIndex: nat, startIndex: int, endIndex: int, textLength: nat)

  /** One stored unit of the collection: vector, metadata and the chunk text. */
  datatype IndexEntry = IndexEntry(embedding: Vector, metadata: ChunkMetadata, document: string)

  /** Which foreign calls of one adapter operation throw, and with what message:
      obtaining the collection (`getOrCreateCollection`), generating the
      embeddings, and the collection call itself (`add`, `query`, `delete`,
      `count`). `None` means the call succeeds. */
  datatype Faults = Faults(connect: Option<string>, embed: Option<string>, collection: Option<string>)

  /** The arguments of `collection.query`. */
  datatype QueryParams = QueryParams(queryEmbedding: Vector, nResults: int, where: Option<string>)

  /** The raw answer of `collection.query` for one query vector: `ids` may be
      absent, and each list holds one inner list per query vector. */
  datatype QueryResponse = QueryResponse(
    ids: Option<seq<seq<string>>>,
    documents: seq<seq<string>>,
    metadatas: seq<seq<ChunkMetadata>>,
    distances: seq<seq<real>>)

  /** A formatted search hit; `None` stands for a JavaScript `undefined` read
      past the end of a shorter parallel list. */
  datatype Hit = Hit(id: string, text: Option<string>, metadata: Option<ChunkMetadata>, distance: Option<real>)

  /** The `TypeError` messages the formatting loop throws when `ids[0]` or
      one of the other lists' first inner list is missing. */
  const ReadingLengthOfUndefined := "Cannot read properties of undefined (reading 'length')"
  const ReadingIndexOfUndefined := "Cannot read properties of undefined (reading '0')"

  /** The id of chunk `idx` of a document: `${documentId}_chunk_${idx}`. */
  function ChunkId(documentId: string, idx: nat): (id: string)
    ensures StartsWith(id, documentId)
  {
    documentId + "_chunk_" + NatToString(idx)
  }

  /** Two chunks of one document never share an id. */
  lemma ChunkIdInjective(documentId: string, i: nat, j: nat)
    requires ChunkId(documentId, i) == ChunkId(documentId, j)
    ensures i == j
  {
    var p := documentId + "_chunk_";
    assert NatToString(i) == ChunkId(documentId, i)[|p|..] == ChunkId(documentId, j)[|p|..] == NatToString(j);
    NatToStringInjective(i, j);
  }

  /** The ids `addChunks` gives a batch of chunks, one per chunk, in order. */
  function Ids(chunks: seq<Chunk>, documentId: string): (ids: seq<string>)
    ensures |ids| == |chunks|
    ensures forall i :: 0 <= i < |ids| ==> ids[i] == ChunkId(documentId, i)
  {
    seq(|chunks|, i requires 0 <= i < |chunks| => ChunkId(documentId, i))
  }

  /** The ids of one batch are pairwise distinct and all begin with the document id. */
  lemma IdsDistinctAndPrefixed(chunks: seq<Chunk>, documentId: string)
    ensures forall i, j :: 0 <= i < j < |chunks| ==> Ids(chunks, documentId)[i] != Ids(chunks, documentId)[j]
    ensures forall i :: 0 <= i < |chunks| ==> StartsWith(Ids(chunks, documentId)[i], documentId)
  {
    forall i: nat, j: nat | ChunkId(documentId, i) == ChunkId(documentId, j) ensures i == j {
      ChunkIdInjective(documentId, i, j);
    }
  }

  /** The metadata of chunk `idx`: its document, its position in the batch,
      its offsets and the length of its text. */
  function MetadataOf(chunk: Chunk, documentId: string, idx: nat): (m: ChunkMetadata)
    ensures m.documentId == documentId && m.chunkIndex == idx
    ensures m.startIndex == chunk.startIndex && m.endIndex == chunk.endIndex
    ensures m.textLength == |chunk.text|
  {
    ChunkMetadata(documentId, idx, chunk.startIndex, chunk.endIndex, |chunk.text|)
  }

  /** The entries one `collection.add` call of `addChunks` stores, keyed by id. */
  function NewEntries(chunks: seq<Chunk>, documentId: string, embed: string -> Vector): (m: map<string, IndexEntry>)
    ensures forall i :: 0 <= i < |chunks| ==>
      ChunkId(documentId, i) in m
      && m[ChunkId(documentId, i)] == IndexEntry(embed(chunks[i].text), MetadataOf(chunks[i], documentId, i), chunks[i].text)
    ensures forall id :: id in m ==> exists i :: 0 <= i < |chunks| && id == ChunkId(documentId, i)
    ensures forall id :: id in m ==> m[id].metadata.documentId == documentId
  {
    forall i: nat, j: nat | ChunkId(documentId, i) == ChunkId(documentId, j) ensures i == j {
      ChunkIdInjective(documentId, i, j);
    }
    map i | 0 <= i < |chunks| :: ChunkId(documentId, i) :=
      IndexEntry(embed(chunks[i].text), MetadataOf(chunks[i], documentId, i), chunks[i].text)
  }

  /** The query `searchSimilar` sends: the query vector, `nResults` as given,
      and a `where` filter on the document id only when one is given and
      non-empty (JavaScript truthiness). */
  function BuildQuery(queryEmbedding: Vector, nResults: int, documentId: Option<string>): (q: QueryParams)
    ensures q.queryEmbedding == queryEmbedding && q.nResults == nResults
    ensures q.where.Some? <==> documentId.Some? && documentId.value != ""
    ensures q.where.Some? ==> q.where == documentId
  {
    QueryParams(queryEmbedding, nResults, if documentId.Some? && documentId.value != "" then documentId else None)
  }

  /** Element `i` of the first inner list of `lists`, if it is there. */
  function At<T>(lists: seq<seq<T>>, i: nat): Option<T>
    requires lists != []
  {
    if i < |lists[0]| then Some(lists[0][i]) else None
  }

  /** Hit `i` of a response: the four parallel lists read at the same index. */
  function HitAt(resp: QueryResponse, i: nat): Hit
    requires resp.ids.Some? && resp.ids.value != [] && i < |resp.ids.value[0]|
    requires resp.documents != [] && resp.metadatas != [] && resp.distances != []
  {
    Hit(resp.ids.value[0][i], At(resp.documents, i), At(resp.metadatas, i), At(resp.distances, i))
  }

  /** `formatResults` read as a whole: no ids, or an empty first id list, give
      no hits; a missing first id list, or (when there are ids) a missing
      first list of documents, metadatas or distances, is a `TypeError`;
      otherwise hit `i` zips entry `i` of the four lists. */
  function Formatted(resp: QueryResponse): Result<seq<Hit>, string> {
    if resp.ids.None? then Ok([])
    else if resp.ids.value == [] then Err(ReadingLengthOfUndefined)
    else if |resp.ids.value[0]| == 0 then Ok([])
    else if resp.documents == [] || resp.metadatas == [] || resp.distances == [] then Err(ReadingIndexOfUndefined)
    else Ok(seq(|resp.ids.value[0]|, i requires 0 <= i < |resp.ids.value[0]| => HitAt(resp, i)))
  }

  /** When the four lists are aligned, formatting loses nothing: one hit per
      id, in the engine's order, each carrying that id's document, metadata
      and distance. */
  lemma FormattedAligned(resp: QueryResponse, i: nat)
    requires resp.ids.Some? && resp.ids.value != []
    requires resp.documents != [] && resp.metadatas != [] && resp.distances != []
    requires |resp.documents[0]| == |resp.metadatas[0]| == |resp.distances[0]| == |resp.ids.value[0]|
    requires i < |resp.ids.value[0]|
    ensures Formatted(resp).Ok? && |Formatted(resp).value| == |resp.ids.value[0]|
    ensures Formatted(resp).value[i] ==
      Hit(resp.ids.value[0][i], Some(resp.documents[0][i]), Some(resp.metadatas[0][i]), Some(resp.distances[0][i]))
  {
  }

  /** The first message among the faults of the calls made, in call order. */
  function FirstFault(a: Option<string>, b: Option<string>, c: Option<string>): (r: Option<string>)
    ensures r.None? <==> a.None? && b.None? && c.None?
  {
    if a.Some? then a else if b.Some? then b else c
  }

  /** The failure, if any, of an operation that obtains the collection (only
      when not yet initialized), generates embeddings and calls the collection:
      `addChunks` and `searchSimilar`. */
  function EmbeddingCallFault(initialized: bool, faults: Faults): Option<string> {
    FirstFault(if initialized then None else faults.connect, faults.embed, faults.collection)
  }

  /** The failure, if any, of an operation that obtains the collection and
      calls it without embeddings: `deleteDocument` and `getStats`. */
  function PlainCallFault(initialized: bool, faults: Faults): Option<string> {
    FirstFault(if initialized then None else faults.connect, None, faults.collection)
  }

  /** What `searchSimilar` returns for an adapter in the given state. */
  function SimilarResult(initialized: bool, query: string, nResults: int, documentId: Option<string>,
                         embed: string -> Vector, engine: QueryParams -> QueryResponse, faults: Faults)
    : Result<seq<Hit>, string>
  {
    var fault := EmbeddingCallFault(initialized, faults);
    if fault.Some? then Err(fault.value)
    else Formatted(engine(BuildQuery(embed(query), nResults, documentId)))
  }

  /** `formatResults(results)` (the loop over the first id list). */
  method FormatResults(resp: QueryResponse) returns (r: Result<seq<Hit>, string>)
    ensures r == Formatted(resp)
    ensures r.Ok? && resp.ids.Some? ==> |r.value| == if resp.ids.value == [] then 0 else |resp.ids.value[0]|
  {
    if resp.ids.None? {
      return Ok([]);
    }
    if resp.ids.value == [] {
      return Err(ReadingLengthOfUndefined);
    }
    var ids := resp.ids.value[0];
    if |ids| == 0 {
      return Ok([]);
    }
    if resp.documents == [] || resp.metadatas == [] || resp.distances == [] {
      return Err(ReadingIndexOfUndefined);
    }
    var formatted: seq<Hit> := [];
    var count := |ids|;
    for i := 0 to count
      invariant |formatted| == i
      invariant forall j :: 0 <= j < i ==> formatted[j] == HitAt(resp, j)
    {
      formatted := formatted + [Hit(ids[i], At(resp.documents, i), At(resp.metadatas, i), At(resp.distances, i))];
    }
    assert Formatted(resp).Ok?;
    var expected := Formatted(resp).value;
    assert |expected| == count;
    assert forall j :: 0 <= j < count ==> expected[j] == HitAt(resp, j) == formatted[j];
    assert expected == formatted;
    return Ok(formatted);
  }

  /** The singleton `chromaService`: whether the collection has been obtained,
      and the entries the collection holds. */
  class ChromaService {
    var initialized: bool
    var entries: map<string, IndexEntry>

    /** A fresh adapter over a collection that already holds `stored`. */
    constructor (stored: map<string, IndexEntry>)
      ensures !initialized && entries == stored
    {
      initialized := false;
      entries := stored;
    }

    /** `initialize()`: a no-op once initialized; otherwise the flag is set
        only when obtaining the collection succeeds, so a failed attempt is
        retried on the next call. */
    method Initialize(connect: Option<string>) returns (r: Result<(), string>)
      modifies this`initialized
      ensures old(initialized) ==> initialized && r == Ok(())
      ensures !old(initialized) && connect.None? ==> initialized && r == Ok(())
      ensures !old(initialized) && connect.Some? ==> !initialized && r == Err(connect.value)
    {
      if initialized {
        return Ok(());
      }
      if connect.Some? {
        return Err(connect.value);
      }
      initialized := true;
      return Ok(());
    }

    /** `addChunks(chunks, documentId)`: one entry per chunk with id
        `${documentId}_chunk_${idx}`, the chunk's metadata and text; returns
        the number of chunks. Any failing call leaves the collection as it was. */
    method AddChunks(chunks: seq<Chunk>, documentId: string, embed: string -> Vector, faults: Faults)
      returns (r: Result<nat, string>)
      modifies this
      ensures var fault := EmbeddingCallFault(old(initialized), faults);
        && (fault.Some? ==> r == Err(fault.value) && entries == old(entries))
        && (fault.None? ==> r == Ok(|chunks|) && entries == old(entries) + NewEntries(chunks, documentId, embed))
      ensures initialized == (old(initialized) || faults.connect.None?)
    {
      var init := Initialize(faults.connect);
      if init.Err? {
        return Err(init.error);
      }
      var texts := seq(|chunks|, i requires 0 <= i < |chunks| => chunks[i].text);
      if faults.embed.Some? {
        return Err(faults.embed.value);
      }
      var ids := Ids(chunks, documentId);
      if faults.collection.Some? {
        return Err(faults.collection.value);
      }
      entries := entries + NewEntries(chunks, documentId, embed);
      return Ok(|chunks|);
    }

    /** `searchSimilar(query, nResults, documentId)`: the query text's vector
        is sent with `nResults` and, for a non-empty document id, a `where`
        filter; the engine's answer is formatted. */
    method SearchSimilar(query: string, nResults: int, documentId: Option<string>,
                         embed: string -> Vector, engine: QueryParams -> QueryResponse, faults: Faults)
      returns (r: Result<seq<Hit>, string>)
      modifies this`initialized
      ensures r == SimilarResult(old(initialized), query, nResults, documentId, embed, engine, faults)
      ensures initialized == (old(initialized) || faults.connect.None?)
    {
      var init := Initialize(faults.connect);
      if init.Err? {
        return Err(init.error);
      }
      if faults.embed.Some? {
        return Err(faults.embed.value);
      }
      var params := BuildQuery(embed(query), nResults, documentId);
      if faults.collection.Some? {
        return Err(faults.collection.value);
      }
      r := FormatResults(engine(params));
    }

    /** `deleteDocument(documentId)`: removes every entry whose metadata names
        the document, and nothing else. */
    method DeleteDocument(documentId: string, faults: Faults) returns (r: Result<(), string>)
      modifies this
      ensures var fault := PlainCallFault(old(initialized), faults);
        && (fault.Some? ==> r == Err(fault.value) && entries == old(entries))
        && (fault.None? ==> r == Ok(()) && entries == WithoutDocument(old(entries), documentId))
      ensures initialized == (old(initialized) || faults.connect.None?)
    {
      var init := Initialize(faults.connect);
      if init.Err? {
        return Err(init.error);
      }
      if faults.collection.Some? {
        return Err(faults.collection.value);
      }
      entries := WithoutDocument(entries, documentId);
      return Ok(());
    }

    /** `getStats()`: the number of entries in the collection. */
    method GetStats(faults: Faults) returns (r: Result<nat, string>)
      modifies this`initialized
      ensures var fault := PlainCallFault(old(initialized), faults);
        && (fault.Some? ==> r == Err(fault.value))
        && (fault.None? ==> r == Ok(|entries|))
      ensures initialized == (old(initialized) || faults.connect.None?)
    {
      var init := Initialize(faults.connect);
      if init.Err? {
        return Err(init.error);
      }
      if faults.collection.Some? {
        return Err(faults.collection.value);
      }
      return Ok(|entries|);
    }
  }

  /** The collection after `delete({where: {documentId}})`. */
  function WithoutDocument(entries: map<string, IndexEntry>, documentId: string): (m: map<string, IndexEntry>)
    ensures forall id :: id in m <==> id in entries && entries[id].metadata.documentId != documentId
    ensures forall id :: id in m ==> m[id] == entries[id]
  {
    map id | id in entries && entries[id].metadata.documentId != documentId :: entries[id]
  }

  /** The ids of the entries that belong to a document. */
  function EntriesOf(entries: map<string, IndexEntry>, documentId: string): set<string> {
    set id | id in entries && entries[id].metadata.documentId == documentId
  }

  /** A sequence without repeats has as many distinct elements as entries. */
  lemma {:induction false} DistinctCount(s: seq<string>)
    requires forall i, j :: 0 <= i < j < |s| ==> s[i] != s[j]
    ensures |set x | x in s| == |s|
  {
    if s != [] {
      var init := s[..|s| - 1];
      var last := s[|s| - 1];
      DistinctCount(init);
      assert (set x | x in s) == (set x | x in init) + {last} by {
        assert s == init + [last];
      }
      assert last !in init;
    }
  }

  /** `n` distinct positions give `n` distinct ids. */
  lemma ChunkIdCount(documentId: string, n: nat)
    ensures |set i | 0 <= i < n :: ChunkId(documentId, i)| == n
  {
    var ids := seq(n, i requires 0 <= i < n => ChunkId(documentId, i));
    forall i, j | 0 <= i < j < n
      ensures ids[i] != ids[j]
    {
      if ids[i] == ids[j] {
        ChunkIdInjective(documentId, i, j);
      }
    }
    DistinctCount(ids);
    assert (set x | x in ids) == (set i | 0 <= i < n :: ChunkId(documentId, i)) by {
      forall x | x in ids
        ensures x in set i | 0 <= i < n :: ChunkId(documentId, i)
      {
        var i :| 0 <= i < n && ids[i] == x;
      }
      forall i | 0 <= i < n
        ensures ChunkId(documentId, i) in ids
      {
        assert ids[i] == ChunkId(documentId, i);
      }
    }
  }

  /** Re-indexing replaces a document's entries: after deleting the document
      and adding its chunks, the collection holds exactly one entry per chunk
      for it, whatever it held before, so repeating a re-index never grows
      the document's share of the index. */
  lemma DeleteThenAddLeavesOneEntryPerChunk(
    entries: map<string, IndexEntry>, chunks: seq<Chunk>, documentId: string, embed: string -> Vector)
    ensures var after := WithoutDocument(entries, documentId) + NewEntries(chunks, documentId, embed);
      && EntriesOf(after, documentId) == (set i | 0 <= i < |chunks| :: ChunkId(documentId, i))
      && |EntriesOf(after, documentId)| == |chunks|
  {
    var after := WithoutDocument(entries, documentId) + NewEntries(chunks, documentId, embed);
    var ids := set i | 0 <= i < |chunks| :: ChunkId(documentId, i);
    forall id | id in EntriesOf(after, documentId) ensures id in ids {
      assert id in NewEntries(chunks, documentId, embed);
    }
    forall id | id in ids ensures id in EntriesOf(after, documentId) {
      var i :| 0 <= i < |chunks| && id == ChunkId(documentId, i);
    }
    ChunkIdCount(documentId, |chunks|);
  }
}
