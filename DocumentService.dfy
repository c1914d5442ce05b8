/** The stateful half of backend/services/documentService.js: saving a
    document with its chunks, reading one from a URL, listing the stored
    documents, the keyword scan over stored chunks, re-indexing a document
    and the semantic search with its keyword fallback. The two storage
    directories are sequences of files in directory-listing order; a file
    whose `readFile` or `JSON.parse` throws holds `Err` with the message. */
module DocumentService {
  import opened Common
  import opened Chunker
  import Chroma = ChromaService

  /** A record of a `<documentId>_chunks.json` file. */
  datatype ChunkRecord = ChunkRecord(documentId: string, chunkIndex: nat, text: string, startIndex: int, endIndex: int)

  /** The JSON record of a `<documentId>.json` file; fields written from the
      extraction metadata may be missing. */
  datatype DocumentRecord = DocumentRecord(
    id: string, url: string, timestamp: string,
    textLength: Option<nat>, chunkCount: Option<nat>, fileType: Option<string>, pages: Option<nat>)

  /** A file of a storage directory and what reading and parsing it yields. */
  datatype StoredFile<T> = StoredFile(name: string, content: Result<T, string>)

  /** Extraction metadata spread into the document record. */
  datatype Metadata = Metadata(fileType: Option<string>, pages: Option<nat>)

  /** Which of the two `fs.writeFile` calls of `saveDocument` throw. */
  datatype WriteFaults = WriteFaults(documentFile: Option<string>, chunksFile: Option<string>)

  datatype SaveResult = SaveResult(
    documentId: string, chunkCount: nat, textLength: nat, vectorStored: bool, vectorError: Option<string>)

  /** What `pdf-parse` extracts. */
  datatype PdfData = PdfData(text: string, pages: nat)

  /** `readDocument`'s `{success: true, ...}` and `{success: false, error}`. */
  datatype ReadResult = Read(saved: SaveResult, metadata: Metadata) | ReadFailed(error: string)

  /** `reindexDocument`'s `{success: true, ...}` and `{success: false, error}`. */
  datatype ReindexResult = Reindexed(documentId: string, chunksIndexed: nat) | ReindexFailed(error: string)

  /** `semanticSearch`'s answer; the constructor is the `method` field. */
  datatype SearchResponse =
    | Semantic(hits: seq<Chroma.Hit>)
    | KeywordFallback(matches: seq<ChunkRecord>, fallbackReason: string)
  {
    function Method(): string {
      if Semantic? then "semantic" else "keyword_fallback"
    }

    function Total(): nat {
      if Semantic? then |hits| else |matches|
    }
  }

  const ChunksFileSuffix := "_chunks.json"
  const MaxKeywordResults := 5

  function DocumentIdOf(timestamp: nat): (id: string)
    ensures StartsWith(id, "doc_")
  {
    "doc_" + NatToString(timestamp)
  }

  function ChunksFileName(documentId: string): string {
    documentId + ChunksFileSuffix
  }

  /** The chunks `saveDocument` cuts a text into (the default sizes). */
  function DefaultChunks(text: string): (cs: seq<Chunk>)
    ensures |cs| == ChunkCount(|text|, DefaultChunkSize - DefaultOverlap)
  {
    seq(ChunkCount(|text|, DefaultChunkSize - DefaultOverlap),
        k requires 0 <= k => ChunkAt(text, DefaultChunkSize, DefaultOverlap, k))
  }

  /** The chunk records saved for a document: each chunk tagged with the
      document id and its position. */
  function RecordsOf(chunks: seq<Chunk>, documentId: string): (rs: seq<ChunkRecord>)
    ensures |rs| == |chunks|
    ensures forall i :: 0 <= i < |rs| ==>
      rs[i] == ChunkRecord(documentId, i, chunks[i].text, chunks[i].startIndex, chunks[i].endIndex)
  {
    seq(|chunks|, i requires 0 <= i < |chunks| =>
      ChunkRecord(documentId, i, chunks[i].text, chunks[i].startIndex, chunks[i].endIndex))
  }

  /** The chunk a stored record stands for, as `addChunks` reads it. */
  function ChunkOf(rec: ChunkRecord): Chunk {
    Chunk(rec.text, rec.startIndex, rec.endIndex)
  }

  /** The document record `saveDocument` writes. */
  function DocumentRecordOf(documentId: string, url: string, isoTime: string, text: string, chunkCount: nat, metadata: Metadata)
    : DocumentRecord
  {
    DocumentRecord(documentId, url, isoTime, Some(|text|), Some(chunkCount), metadata.fileType, metadata.pages)
  }

  /** The content of the first file with this name, if any. */
  function Lookup<T>(files: seq<StoredFile<T>>, name: string): Option<Result<T, string>> {
    if files == [] then None
    else if files[0].name == name then Some(files[0].content)
    else Lookup(files[1..], name)
  }

  /** `fs.writeFile`: the file gets the content, in place if it exists and
      appended to the listing otherwise; no other file changes. */
  function WriteFile<T>(files: seq<StoredFile<T>>, name: string, content: Result<T, string>)
    : (r: seq<StoredFile<T>>)
    ensures Lookup(r, name) == Some(content)
    ensures forall other :: other != name ==> Lookup(r, other) == Lookup(files, other)
  {
    if files == [] then [StoredFile(name, content)]
    else if files[0].name == name then [StoredFile(name, content)] + files[1..]
    else [files[0]] + WriteFile(files[1..], name, content)
  }

  /** Whether `searchChunks` reads a file of the chunk directory: it must end
      in `_chunks.json` and, when a non-empty document id is given, start
      with that id (a prefix test, not an exact one). */
  predicate Selected(name: string, documentId: Option<string>) {
    EndsWith(name, ChunksFileSuffix)
    && (documentId.None? || documentId.value == "" || StartsWith(name, documentId.value))
  }

  /** The records of the selected files, concatenated in listing order; the
      first selected file that cannot be read or parsed stops the scan. */
  function Gathered(files: seq<StoredFile<seq<ChunkRecord>>>, documentId: Option<string>)
    : Result<seq<ChunkRecord>, string>
  {
    if files == [] then Ok([])
    else
      var last := files[|files| - 1];
      match Gathered(files[..|files| - 1], documentId)
      case Err(e) => Err(e)
      case Ok(acc) =>
        if !Selected(last.name, documentId) then Ok(acc)
        else if last.content.Err? then Err(last.content.error)
        else Ok(acc + last.content.value)
  }

  /** Case-insensitive containment of the query in a chunk's text. */
  predicate MatchesQuery(rec: ChunkRecord, query: string) {
    Includes(Lower(rec.text), Lower(query))
  }

  /** `chunks.filter(...)`: the records containing the query, in order. */
  function Matching(recs: seq<ChunkRecord>, query: string): (r: seq<ChunkRecord>)
    ensures |r| <= |recs|
  {
    if recs == [] then []
    else (if MatchesQuery(recs[0], query) then [recs[0]] else []) + Matching(recs[1..], query)
  }

  /** What `searchChunks(query, documentId)` answers for a chunk directory:
      the first five matching records, or the wrapped read failure. */
  function KeywordSearch(files: seq<StoredFile<seq<ChunkRecord>>>, query: string, documentId: Option<string>)
    : Result<seq<ChunkRecord>, string>
  {
    match Gathered(files, documentId)
    case Err(e) => Err("Search failed: " + e)
    case Ok(recs) => Ok(Slice(Matching(recs, query), 0, MaxKeywordResults))
  }

  /** Filtering distributes over concatenation: the matches of a joined
      list are the matches of its first part followed by those of the rest. */
  lemma {:induction false} MatchingAppend(a: seq<ChunkRecord>, b: seq<ChunkRecord>, query: string)
    ensures Matching(a + b, query) == Matching(a, query) + Matching(b, query)
  {
    if a != [] {
      assert (a + b)[0] == a[0];
      assert (a + b)[1..] == a[1..] + b;
      MatchingAppend(a[1..], b, query);
    } else {
      assert a + b == b;
    }
  }

  /** A single record is kept exactly when it contains the query. */
  lemma MatchingSingle(c: ChunkRecord, query: string)
    ensures MatchesQuery(c, query) ==> Matching([c], query) == [c]
    ensures !MatchesQuery(c, query) ==> Matching([c], query) == []
  {
    assert [c][1..] == [];
  }

  /** A record is kept by the filter exactly when it is among the input and
      contains the query. */
  lemma {:induction false} MatchingMembers(recs: seq<ChunkRecord>, query: string, c: ChunkRecord)
    ensures c in Matching(recs, query) <==> c in recs && MatchesQuery(c, query)
  {
    if recs != [] {
      MatchingMembers(recs[1..], query, c);
      assert recs == [recs[0]] + recs[1..];
    }
  }

  /** Record `c` is among the parsed records of file `i`, which the scan selects. */
  predicate InSelectedFile(files: seq<StoredFile<seq<ChunkRecord>>>, documentId: Option<string>, i: int, c: ChunkRecord) {
    0 <= i < |files| && Selected(files[i].name, documentId)
    && files[i].content.Ok? && c in files[i].content.value
  }

  /** The gathered records are exactly those of the selected, readable files. */
  lemma {:induction false} GatheredMembers(files: seq<StoredFile<seq<ChunkRecord>>>, documentId: Option<string>, c: ChunkRecord)
    requires Gathered(files, documentId).Ok?
    ensures c in Gathered(files, documentId).value <==> exists i :: InSelectedFile(files, documentId, i, c)
  {
    if files != [] {
      var n := |files| - 1;
      var init := files[..n];
      GatheredMembers(init, documentId, c);
      var acc := Gathered(init, documentId).value;
      var own := if Selected(files[n].name, documentId) then files[n].content.value else [];
      assert Gathered(files, documentId).value == acc + own;
      if c in own {
        assert InSelectedFile(files, documentId, n, c);
      }
      if exists i :: InSelectedFile(files, documentId, i, c) {
        var i :| InSelectedFile(files, documentId, i, c);
        if i < n {
          assert InSelectedFile(init, documentId, i, c);
        }
      }
      if exists i :: InSelectedFile(init, documentId, i, c) {
        var i :| InSelectedFile(init, documentId, i, c);
        assert InSelectedFile(files, documentId, i, c);
      }
    }
  }

  /** The keyword scan returns at most five records, each containing the
      query (ignoring ASCII case) and each coming from a selected file; when
      there are at most five matches it returns all of them. */
  lemma KeywordSearchSound(files: seq<StoredFile<seq<ChunkRecord>>>, query: string, documentId: Option<string>)
    requires KeywordSearch(files, query, documentId).Ok?
    ensures var r := KeywordSearch(files, query, documentId).value;
      var m := Matching(Gathered(files, documentId).value, query);
      && r == m[..Min(|m|, MaxKeywordResults)]
      && |r| <= MaxKeywordResults
      && (forall c :: c in r ==> MatchesQuery(c, query))
      && (forall c :: c in r ==> exists i :: InSelectedFile(files, documentId, i, c))
      && (|Matching(Gathered(files, documentId).value, query)| <= MaxKeywordResults ==>
            forall i, c :: InSelectedFile(files, documentId, i, c) && MatchesQuery(c, query) ==> c in r)
  {
    var recs := Gathered(files, documentId).value;
    var m := Matching(recs, query);
    var r := KeywordSearch(files, query, documentId).value;
    assert r == m[..Min(|m|, MaxKeywordResults)];
    forall c | c in r
      ensures MatchesQuery(c, query)
      ensures exists i :: InSelectedFile(files, documentId, i, c)
    {
      MatchingMembers(recs, query, c);
      GatheredMembers(files, documentId, c);
    }
    if |m| <= MaxKeywordResults {
      forall i, c | InSelectedFile(files, documentId, i, c) && MatchesQuery(c, query)
        ensures c in r
      {
        GatheredMembers(files, documentId, c);
        MatchingMembers(recs, query, c);
      }
    }
  }

  /** The document filter is a prefix test: restricting the scan to
      `doc_1` also reads the chunks of `doc_12`. */
  lemma DocumentFilterIsPrefix()
    ensures Selected("doc_12_chunks.json", Some("doc_1"))
    ensures !Selected("doc_12.json", None)
    ensures !Selected("doc_2_chunks.json", Some("doc_1"))
  {
    assert "doc_12_chunks.json"[6..] == ChunksFileSuffix;
    assert "doc_12_chunks.json"[..5] == "doc_1";
    assert "doc_2_chunks.json"[..5] != "doc_1" by {
      assert "doc_2_chunks.json"[4] != "doc_1"[4];
    }
  }

  /** The stored documents `listDocuments` returns: the parsed records of the
      `.json` files in listing order; the first unreadable one stops it. */
  function Listed(files: seq<StoredFile<DocumentRecord>>): Result<seq<DocumentRecord>, string> {
    if files == [] then Ok([])
    else
      var last := files[|files| - 1];
      match Listed(files[..|files| - 1])
      case Err(e) => Err(e)
      case Ok(acc) =>
        if !EndsWith(last.name, ".json") then Ok(acc)
        else if last.content.Err? then Err(last.content.error)
        else Ok(acc + [last.content.value])
  }

  /** The number of `.json` files in a listing. */
  function JsonCount(files: seq<StoredFile<DocumentRecord>>): nat {
    if files == [] then 0
    else JsonCount(files[..|files| - 1]) + (if EndsWith(files[|files| - 1].name, ".json") then 1 else 0)
  }

  /** Listing returns one record per `.json` file when all of them read. */
  lemma {:induction false} ListedCountsJsonFiles(files: seq<StoredFile<DocumentRecord>>)
    requires forall i :: 0 <= i < |files| && EndsWith(files[i].name, ".json") ==> files[i].content.Ok?
    ensures Listed(files).Ok?
    ensures |Listed(files).value| == JsonCount(files)
  {
    if files != [] {
      ListedCountsJsonFiles(files[..|files| - 1]);
    }
  }

  /** What `semanticSearch` answers given the vector path's outcome and the
      keyword scan's: the vector hits when there are any to report, else the
      keyword matches with the vector failure as the reason; a failing
      keyword scan propagates. */
  function SemanticOutcome(vector: Result<seq<Chroma.Hit>, string>, keyword: Result<seq<ChunkRecord>, string>)
    : (r: Result<SearchResponse, string>)
    ensures vector.Ok? ==>
      r == Ok(Semantic(vector.value)) && r.value.Method() == "semantic" && r.value.Total() == |vector.value|
    ensures vector.Err? && keyword.Ok? ==>
      && r.Ok? && r.value.Method() == "keyword_fallback"
      && r.value.fallbackReason == vector.error && r.value.Total() == |keyword.value|
    ensures vector.Err? && keyword.Err? ==> r == Err(keyword.error)
  {
    match vector
    case Ok(hits) => Ok(Semantic(hits))
    case Err(reason) =>
      match keyword
      case Ok(matches) => Ok(KeywordFallback(matches, reason))
      case Err(e) => Err(e)
  }

  /** The fallback ignores `nResults`: it never reports more than five. */
  lemma FallbackReturnsAtMostFive(
    vectorError: string, files: seq<StoredFile<seq<ChunkRecord>>>, query: string, documentId: Option<string>)
    requires KeywordSearch(files, query, documentId).Ok?
    ensures var r := SemanticOutcome(Err(vectorError), KeywordSearch(files, query, documentId));
      r.Ok? && r.value.KeywordFallback? && r.value.Total() <= MaxKeywordResults
  {
    KeywordSearchSound(files, query, documentId);
  }

  /** The text and metadata extracted from a downloaded buffer: PDF text
      through `pdf-parse` when the buffer is a PDF, else the buffer decoded. */
  function Extracted(url: string, buffer: seq<byte>, decode: seq<byte> -> string,
                     parsePdf: seq<byte> -> Result<PdfData, string>): Result<(string, Metadata), string>
  {
    if GetFileType(url, buffer) == "pdf" then
      match parsePdf(buffer)
      case Err(e) => Err("Failed to extract text from PDF: " + e)
      case Ok(d) => Ok((d.text, Metadata(Some("pdf"), Some(d.pages))))
    else Ok((decode(buffer), Metadata(Some("txt"), None)))
  }

  /** The `documentService` singleton: the document directory, the chunk
      directory and the vector-index adapter it writes through. */
  class DocumentService {
    var documentFiles: seq<StoredFile<DocumentRecord>>
    var chunkFiles: seq<StoredFile<seq<ChunkRecord>>>
    const index: Chroma.ChromaService

    constructor (index: Chroma.ChromaService)
      ensures documentFiles == [] && chunkFiles == [] && this.index == index
    {
      documentFiles := [];
      chunkFiles := [];
      this.index := index;
    }

    /** `saveDocument(url, text, metadata)` with `Date.now()` as `timestamp`:
        writes the document record, then the chunk records, then indexes the
        chunks. A failing write throws; a failing index leaves
        `vectorStored` false with the reason, and the call still succeeds. */
    method SaveDocument(url: string, text: string, metadata: Metadata, timestamp: nat, isoTime: string,
                        writes: WriteFaults, embed: string -> Chroma.Vector, faults: Chroma.Faults)
      returns (r: Result<SaveResult, string>)
      modifies this, index
      ensures var id := DocumentIdOf(timestamp);
        var chunks := DefaultChunks(text);
        var fault := Chroma.EmbeddingCallFault(old(index.initialized), faults);
        && (writes.documentFile.Some? ==>
              r == Err(writes.documentFile.value) && documentFiles == old(documentFiles)
              && chunkFiles == old(chunkFiles) && index.entries == old(index.entries))
        && (writes.documentFile.None? ==>
              documentFiles == WriteFile(old(documentFiles), id + ".json",
                Ok(DocumentRecordOf(id, url, isoTime, text, |chunks|, metadata))))
        && (writes.documentFile.None? && writes.chunksFile.Some? ==>
              r == Err(writes.chunksFile.value) && chunkFiles == old(chunkFiles)
              && index.entries == old(index.entries))
        && (writes.documentFile.None? && writes.chunksFile.None? ==>
              && chunkFiles == WriteFile(old(chunkFiles), ChunksFileName(id), Ok(RecordsOf(chunks, id)))
              && r == Ok(SaveResult(id, |chunks|, |text|, fault.None?, fault))
              && index.entries == if fault.None? then old(index.entries) + Chroma.NewEntries(chunks, id, embed)
                                  else old(index.entries))
      ensures index.initialized == if writes.documentFile.None? && writes.chunksFile.None?
                                   then old(index.initialized) || faults.connect.None?
                                   else old(index.initialized)
    {
      var documentId := DocumentIdOf(timestamp);
      var chunks := ChunkText(text, DefaultChunkSize, DefaultOverlap);
      assert chunks == DefaultChunks(text);
      var documentData := DocumentRecordOf(documentId, url, isoTime, text, |chunks|, metadata);
      if writes.documentFile.Some? {
        return Err(writes.documentFile.value);
      }
      documentFiles := WriteFile(documentFiles, documentId + ".json", Ok(documentData));
      var chunksData := RecordsOf(chunks, documentId);
      if writes.chunksFile.Some? {
        return Err(writes.chunksFile.value);
      }
      chunkFiles := WriteFile(chunkFiles, ChunksFileName(documentId), Ok(chunksData));
      var vectorStored := false;
      var vectorError: Option<string> := None;
      var added := index.AddChunks(chunks, documentId, embed, faults);
      if added.Ok? {
        vectorStored := true;
      } else {
        vectorError := Some(added.error);
      }
      return Ok(SaveResult(documentId, |chunks|, |text|, vectorStored, vectorError));
    }

    /** `readDocument(url)` given the download's outcome: detects the type,
        extracts the text and saves the document; every failure becomes
        `{success: false, error}`. */
    method ReadDocument(url: string, download: Result<seq<byte>, string>, decode: seq<byte> -> string,
                        parsePdf: seq<byte> -> Result<PdfData, string>, timestamp: nat, isoTime: string,
                        writes: WriteFaults, embed: string -> Chroma.Vector, faults: Chroma.Faults)
      returns (r: ReadResult)
      modifies this, index
      ensures download.Err? ==> r == ReadFailed("Failed to download document: " + download.error)
      ensures download.Ok? && Extracted(url, download.value, decode, parsePdf).Err? ==>
        r == ReadFailed(Extracted(url, download.value, decode, parsePdf).error)
      ensures (download.Err? || Extracted(url, download.value, decode, parsePdf).Err?) ==>
        documentFiles == old(documentFiles) && chunkFiles == old(chunkFiles) && index.entries == old(index.entries)
      ensures r.Read? ==> download.Ok? && Extracted(url, download.value, decode, parsePdf).Ok?
      ensures r.Read? ==>
        var (text, md) := Extracted(url, download.value, decode, parsePdf).value;
        && r.metadata == md
        && md.fileType == Some(GetFileType(url, download.value))
        && r.saved.documentId == DocumentIdOf(timestamp)
        && r.saved.textLength == |text|
        && r.saved.chunkCount == ChunkCount(|text|, DefaultChunkSize - DefaultOverlap)
        && Lookup(documentFiles, DocumentIdOf(timestamp) + ".json")
             == Some(Ok(DocumentRecordOf(DocumentIdOf(timestamp), url, isoTime, text, r.saved.chunkCount, md)))
      ensures (download.Err? || Extracted(url, download.value, decode, parsePdf).Err?) ==>
        index.initialized == old(index.initialized)
      ensures download.Ok? && Extracted(url, download.value, decode, parsePdf).Ok? ==>
        var (text, md) := Extracted(url, download.value, decode, parsePdf).value;
        var id := DocumentIdOf(timestamp);
        var chunks := DefaultChunks(text);
        var fault := Chroma.EmbeddingCallFault(old(index.initialized), faults);
        && (writes.documentFile.Some? ==>
              r == ReadFailed(writes.documentFile.value) && documentFiles == old(documentFiles)
              && chunkFiles == old(chunkFiles) && index.entries == old(index.entries)
              && index.initialized == old(index.initialized))
        && (writes.documentFile.None? ==>
              documentFiles == WriteFile(old(documentFiles), id + ".json",
                Ok(DocumentRecordOf(id, url, isoTime, text, |chunks|, md))))
        && (writes.documentFile.None? && writes.chunksFile.Some? ==>
              r == ReadFailed(writes.chunksFile.value) && chunkFiles == old(chunkFiles)
              && index.entries == old(index.entries) && index.initialized == old(index.initialized))
        && (writes.documentFile.None? && writes.chunksFile.None? ==>
              && r == Read(SaveResult(id, |chunks|, |text|, fault.None?, fault), md)
              && chunkFiles == WriteFile(old(chunkFiles), ChunksFileName(id), Ok(RecordsOf(chunks, id)))
              && index.entries == (if fault.None? then old(index.entries) + Chroma.NewEntries(chunks, id, embed)
                                   else old(index.entries))
              && index.initialized == (old(index.initialized) || faults.connect.None?))
    {
      if download.Err? {
        return ReadFailed("Failed to download document: " + download.error);
      }
      var buffer := download.value;
      var fileType := GetFileType(url, buffer);
      var text: string;
      var metadata := Metadata(Some(fileType), None);
      if fileType == "pdf" {
        var pdfData := parsePdf(buffer);
        if pdfData.Err? {
          return ReadFailed("Failed to extract text from PDF: " + pdfData.error);
        }
        text := pdfData.value.text;
        metadata := metadata.(pages := Some(pdfData.value.pages));
      } else {
        text := decode(buffer);
      }
      assert Extracted(url, buffer, decode, parsePdf) == Ok((text, metadata));
      var result := SaveDocument(url, text, metadata, timestamp, isoTime, writes, embed, faults);
      if result.Err? {
        return ReadFailed(result.error);
      }
      return Read(result.value, metadata);
    }

    /** `searchChunks(query, documentId)`: the loop over the chunk directory,
        then the case-insensitive filter and the first five matches.
        `listFault` is the failure, if any, of listing the directory. */
    method SearchChunks(query: string, documentId: Option<string>, listFault: Option<string>)
      returns (r: Result<seq<ChunkRecord>, string>)
      ensures listFault.Some? ==> r == Err("Search failed: " + listFault.value)
      ensures listFault.None? ==> r == KeywordSearch(chunkFiles, query, documentId)
    {
      if listFault.Some? {
        return Err("Search failed: " + listFault.value);
      }
      var chunks: seq<ChunkRecord> := [];
      var files := chunkFiles;
      for i := 0 to |files|
        invariant Gathered(files[..i], documentId) == Ok(chunks)
      {
        assert files[..i + 1][..i] == files[..i];
        var file := files[i];
        if !EndsWith(file.name, ChunksFileSuffix) {
          continue;
        }
        if documentId.Some? && documentId.value != "" && !StartsWith(file.name, documentId.value) {
          continue;
        }
        if file.content.Err? {
          assert Gathered(files[..i + 1], documentId) == Err(file.content.error);
          assert files[..|files|] == files;
          GatheredStopsAtError(files, i + 1, documentId);
          return Err("Search failed: " + file.content.error);
        }
        chunks := chunks + file.content.value;
      }
      assert files[..|files|] == files;
      var results := Matching(chunks, query);
      return Ok(Slice(results, 0, MaxKeywordResults));
    }

    /** `listDocuments()`: the loop over the document directory. `listFault`
        is the failure, if any, of listing the directory. */
    method ListDocuments(listFault: Option<string>) returns (r: Result<seq<DocumentRecord>, string>)
      ensures listFault.Some? ==> r == Err("Failed to list documents: " + listFault.value)
      ensures listFault.None? ==>
        r == (match Listed(documentFiles)
              case Ok(docs) => Ok(docs)
              case Err(e) => Err("Failed to list documents: " + e))
    {
      if listFault.Some? {
        return Err("Failed to list documents: " + listFault.value);
      }
      var documents: seq<DocumentRecord> := [];
      var files := documentFiles;
      for i := 0 to |files|
        invariant Listed(files[..i]) == Ok(documents)
      {
        assert files[..i + 1][..i] == files[..i];
        var file := files[i];
        if !EndsWith(file.name, ".json") {
          continue;
        }
        if file.content.Err? {
          assert Listed(files[..i + 1]) == Err(file.content.error);
          ListedStopsAtError(files, i + 1);
          assert files[..|files|] == files;
          return Err("Failed to list documents: " + file.content.error);
        }
        documents := documents + [file.content.value];
      }
      assert files[..|files|] == files;
      return Ok(documents);
    }

    /** `reindexDocument(documentId)`: reloads the stored chunk records,
        deletes the document's old entries ignoring any failure, and adds the
        chunks again; it reports how many chunks were indexed. `notFound`
        is the message the file system throws for a chunk file that does not
        exist, given the file's name (it names the absolute path). */
    method ReindexDocument(documentId: string, notFound: string -> string, embed: string -> Chroma.Vector,
                           deleteFaults: Chroma.Faults, addFaults: Chroma.Faults)
      returns (r: ReindexResult)
      modifies index
      ensures var stored := Lookup(chunkFiles, ChunksFileName(documentId));
        && (stored.None? ==>
              r == ReindexFailed(notFound(ChunksFileName(documentId)))
              && index.entries == old(index.entries) && index.initialized == old(index.initialized))
        && (stored.Some? && stored.value.Err? ==>
              r == ReindexFailed(stored.value.error)
              && index.entries == old(index.entries) && index.initialized == old(index.initialized))
        && (stored.Some? && stored.value.Ok? ==>
              var recs := stored.value.value;
              var chunks := seq(|recs|, i requires 0 <= i < |recs| => ChunkOf(recs[i]));
              var deleted := Chroma.PlainCallFault(old(index.initialized), deleteFaults).None?;
              var cleared := if deleted then Chroma.WithoutDocument(old(index.entries), documentId)
                             else old(index.entries);
              var initialized := old(index.initialized) || deleteFaults.connect.None?;
              var fault := Chroma.EmbeddingCallFault(initialized, addFaults);
              && (fault.Some? ==> r == ReindexFailed(fault.value) && index.entries == cleared)
              && (fault.None? ==>
                    r == Reindexed(documentId, |recs|)
                    && index.entries == cleared + Chroma.NewEntries(chunks, documentId, embed))
              && index.initialized == (initialized || addFaults.connect.None?))
    {
      var stored := Lookup(chunkFiles, ChunksFileName(documentId));
      if stored.None? {
        return ReindexFailed(notFound(ChunksFileName(documentId)));
      }
      if stored.value.Err? {
        return ReindexFailed(stored.value.error);
      }
      var recs := stored.value.value;
      var chunks := seq(|recs|, i requires 0 <= i < |recs| => ChunkOf(recs[i]));
      var deleted := index.DeleteDocument(documentId, deleteFaults);
      var added := index.AddChunks(chunks, documentId, embed, addFaults);
      if added.Err? {
        return ReindexFailed(added.error);
      }
      return Reindexed(documentId, |recs|);
    }

    /** `semanticSearch(query, nResults, documentId)`: vector search first;
        on any failure of it, the keyword scan, reporting why. `listFault`
        is the failure, if any, of listing the chunk directory. */
    method SemanticSearch(query: string, nResults: int, documentId: Option<string>, embed: string -> Chroma.Vector,
                          engine: Chroma.QueryParams -> Chroma.QueryResponse, faults: Chroma.Faults,
                          listFault: Option<string>)
      returns (r: Result<SearchResponse, string>)
      modifies index`initialized
      ensures r == SemanticOutcome(
        Chroma.SimilarResult(old(index.initialized), query, nResults, documentId, embed, engine, faults),
        if listFault.Some? then Err("Search failed: " + listFault.value)
        else KeywordSearch(chunkFiles, query, documentId))
      ensures index.initialized == (old(index.initialized) || faults.connect.None?)
    {
      var results := index.SearchSimilar(query, nResults, documentId, embed, engine, faults);
      if results.Ok? {
        return Ok(Semantic(results.value));
      }
      var keywordResults := SearchChunks(query, documentId, listFault);
      if keywordResults.Err? {
        return Err(keywordResults.error);
      }
      return Ok(KeywordFallback(keywordResults.value, results.error));
    }
  }

  /** Once a prefix of the chunk directory fails to read, the whole scan fails the same way. */
  lemma {:induction false} GatheredStopsAtError(files: seq<StoredFile<seq<ChunkRecord>>>, n: nat, documentId: Option<string>)
    requires n <= |files| && Gathered(files[..n], documentId).Err?
    ensures Gathered(files, documentId) == Gathered(files[..n], documentId)
    decreases |files| - n
  {
    if n < |files| {
      assert files[..n + 1][..n] == files[..n];
      GatheredStopsAtError(files, n + 1, documentId);
    } else {
      assert files[..n] == files;
    }
  }

  /** Once a prefix of the document directory fails to read, the whole listing fails the same way. */
  lemma {:induction false} ListedStopsAtError(files: seq<StoredFile<DocumentRecord>>, n: nat)
    requires n <= |files| && Listed(files[..n]).Err?
    ensures Listed(files) == Listed(files[..n])
    decreases |files| - n
  {
    if n < |files| {
      assert files[..n + 1][..n] == files[..n];
      ListedStopsAtError(files, n + 1);
    } else {
      assert files[..n] == files;
    }
  }
}
