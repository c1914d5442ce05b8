# News research assistant — a Dafny model of its back end

The news research assistant is an Express server. It answers chat requests
through a language model that may call six tools: news search, calculator,
weather, Wikipedia, web search and web-page scraping. It also ingests
documents: it downloads them, cuts them into overlapping chunks, stores
them as JSON files and indexes them in a ChromaDB vector collection. This
project models the core of that back end and proves what it promises. One
Dafny module stands for each core source file:

- `Chunker` and `DocumentService` model `backend/services/documentService.js`.
  `Chunker` holds the pure parts: the chunk windows and the file-type test.
  `DocumentService` holds the stateful parts. A `DocumentService` class
  owns the two storage directories, as sequences of files in listing
  order. It saves, reads, lists, searches and re-indexes documents.
- `ChromaService` models `backend/services/chromaService.js`. The class
  keeps the `initialized` flag and the collection, a map from chunk id to
  entry. It adds, queries, deletes and counts entries.
- `Agent` models `backend/services/claudeService.js`. It holds the tool
  catalogue, the dispatch of one tool-use block, and the bounded
  `askClaude` loop. The loop is a `method` proved equal to the recursive
  function `Converse`.
- `Scraper`, `Search` and `Calculator` model `scraper.js`, `search.js` and
  `calculatorService.js`.
- `Sessions` models the `conversations` map of `backend/server.js` and its
  three routes, as the class `SessionStore`.
- `SystemStats` models the uptime and the statistics folds of
  `backend/routes/systemRoutes.js`.
- `Upload` models the filter and the stored file name of
  `backend/middleware/uploadMiddleware.js`.
- `Common` holds shared pieces:
  - JavaScript values and their truthiness;
  - the `\s` whitespace class;
  - `trim`, ASCII `toLowerCase` and `slice`;
  - decimal numerals and `join`.

Everything outside the process becomes a parameter. These are:

- the language model;
- the tool implementations, HTTP fetches and the URL parser;
- the HTML selection, `pdf-parse` and the `mathjs` evaluator;
- the embedding model and the vector engine's nearest-neighbour query;
- the clock and the process uptime.

A foreign call that may throw is an `Option<string>` fault, or a `Result`
returned by an oracle. File-system writes, reads and directory listings are
faults of the same kind.

Some behaviour of the code is easy to misread, and the model keeps it as
written:

- **Chunk count.** `chunkText` makes `ceil(len / (chunkSize - overlap))`
  chunks. So a text longer than one stride but no longer than one window
  gets a second chunk that lies inside the first
  (`Chunker.WindowSizedTextHasTwoChunks`). A text of 2500 characters gets
  four chunks (`Chunker.DefaultChunksOf2500`).
- **Overlap.** `chunkText` never checks that the overlap is positive. The
  model only requires `overlap < chunkSize`, which the loop needs to
  terminate.
- **Session field.** The chat and reset routes read the body field
  `sessionID`. `frontend/js/app.js` sends `sessionId`, so every browser
  request lands in the `"default"` session (`Sessions.SessionKey`).
- **Scrape failures.** A failed scrape does not fail the agent's tool round
  (`Agent.ScrapeFailureIsAResult`). A failure of any other tool does: it
  ends the request with an error.

## Model

| member | source | states |
|---|---|---|
| Chunker.ChunkText | backend/services/documentService.js:74-92 | returns `ceil(len / stride)` chunks; chunk `k` starts `k` strides into the text, holds `text.slice(start, start + chunkSize)` and ends at `min(start + chunkSize, len)` |
| Chunker.ChunkInBounds | backend/services/documentService.js:78-88 | every chunk starts inside the text and ends after its start and no later than the text's end; its text is exactly the characters between its offsets |
| Chunker.ChunksAbut | backend/services/documentService.js:78-88 | each chunk starts one stride after the previous one, and no later than the previous one ends |
| Chunker.ChunksCover | backend/services/documentService.js:78-88 | every character of the text lies inside chunk `i / stride` |
| Chunker.EmptyTextHasNoChunks | backend/services/documentService.js:78 | the empty text has no chunks |
| Chunker.ShortTextIsOneChunk | backend/services/documentService.js:74-92 | a non-empty text no longer than one stride is a single chunk spanning the whole text |
| Chunker.WindowSizedTextHasTwoChunks | backend/services/documentService.js:74-92 | with the default sizes, 901 characters give two chunks, [0, 901) and [800, 901) |
| Chunker.DefaultChunksOf2500 | backend/services/documentService.js:74-92 | with the default sizes, 2500 characters give four chunks starting at 0, 800, 1600 and 2400; the last is clamped to 2500 |
| Chunker.GetFileType | backend/services/documentService.js:56-72 | the type is `pdf` or `txt`; a `%PDF-` signature gives `pdf`; without one, `pdf` exactly when the lower-cased URL ends in `.pdf` |
| Chunker.FileTypeExamples | backend/services/documentService.js:56-72 | an upper-case `.PDF` URL counts as a PDF; a signature wins over a `.txt` URL; a buffer too short for a signature falls back to the URL |
| DocumentService.DocumentIdOf | backend/services/documentService.js:95-96 | document ids start with `doc_` |
| DocumentService.DefaultChunks | backend/services/documentService.js:98 | a saved text gets the ceiling count of default-size chunks |
| DocumentService.RecordsOf | backend/services/documentService.js:113-117 | one chunk record per chunk, in order, each carrying the document id, its index and the chunk's text and offsets |
| DocumentService.WriteFile | backend/services/documentService.js:108-122 | after a write, reading that file name gives the written content and every other name reads as before |
| DocumentService.DocumentService.constructor | backend/services/documentService.js:8-12 | the service starts with empty directories over the given index |
| DocumentService.DocumentService.SaveDocument | backend/services/documentService.js:94-149 | a failing document write or chunk write throws and leaves later state and the index untouched; otherwise both files hold the record and chunk records, the index gains one entry per chunk unless indexing fails, the index is initialized exactly when it was or its connection succeeds, and the result reports id, counts, `vectorStored` and the indexing error |
| DocumentService.DocumentService.ReadDocument | backend/services/documentService.js:151-186 | a failed download or extraction becomes `{success: false}` with the message and changes nothing; otherwise the outcome is that of saving the extracted text: a write failure becomes `{success: false}` with its message, and a success reports the detected file type, the pages of a PDF and the save result, with the same files and index state as a direct save |
| DocumentService.Extracted | backend/services/documentService.js:157-170 | a PDF goes through the PDF parser, whose failure is wrapped as `Failed to extract text from PDF: `; any other buffer is decoded as text; `ReadDocument` states what follows from it |
| DocumentService.DocumentService.SearchChunks | backend/services/documentService.js:189-220 | a failing directory listing fails with `Search failed: ` and its message; otherwise the directory loop computes the keyword search: the first five case-insensitive matches among the selected chunk files, or `Search failed: ` with the first read error |
| DocumentService.Gathered | backend/services/documentService.js:194-208 | the records of the selected chunk files in listing order, stopping at the first unreadable one; `GatheredMembers` and `GatheredStopsAtError` state its properties |
| DocumentService.KeywordSearch | backend/services/documentService.js:189-220 | the first five matches of the gathered records, or `Search failed: ` with the read error; `KeywordSearchSound` states its properties |
| DocumentService.Matching | backend/services/documentService.js:211-214 | the filter keeps at most as many records as it is given |
| DocumentService.MatchingAppend | backend/services/documentService.js:211-214 | filtering a concatenation gives the matches of the first part followed by those of the second |
| DocumentService.MatchingSingle | backend/services/documentService.js:211-214 | one record is kept exactly when it contains the query |
| DocumentService.MatchingMembers | backend/services/documentService.js:211-214 | a record is kept exactly when it was given and contains the query, ignoring ASCII case |
| DocumentService.GatheredMembers | backend/services/documentService.js:194-208 | a chunk record is gathered exactly when it comes from a `_chunks.json` file selected by the document-id prefix filter |
| DocumentService.KeywordSearchSound | backend/services/documentService.js:189-220 | the results are the first five matches in scan order (all of them when there are fewer); each contains the query and comes from a selected file; when there are at most five matches, every one of them is returned |
| DocumentService.DocumentFilterIsPrefix | backend/services/documentService.js:197-200 | the document filter is a prefix test: `doc_1` selects `doc_12_chunks.json`; document records and other documents' chunks are skipped |
| DocumentService.GatheredStopsAtError | backend/services/documentService.js:196-219 | once a selected chunk file fails to read, the whole scan fails with that error |
| DocumentService.DocumentService.ListDocuments | backend/services/documentService.js:223-242 | a failing directory listing fails with `Failed to list documents: ` and its message; otherwise the directory loop lists the records of the `.json` files in listing order, or fails with `Failed to list documents: ` and the first read error |
| DocumentService.Listed | backend/services/documentService.js:223-242 | the records of the `.json` files in listing order, stopping at the first unreadable one; `ListedCountsJsonFiles` and `ListedStopsAtError` state its properties |
| DocumentService.ListedCountsJsonFiles | backend/services/documentService.js:228-238 | when every `.json` file reads, the listing succeeds and holds one record per `.json` file |
| DocumentService.ListedStopsAtError | backend/services/documentService.js:228-241 | once a `.json` file fails to read, the whole listing fails with that error |
| DocumentService.DocumentService.ReindexDocument | backend/services/documentService.js:247-278 | a missing chunk file fails with the file system's message and an unreadable one with its error, both leaving the index alone; otherwise the old entries are deleted (a failed delete is ignored) and the stored chunks added again, reporting how many were indexed or the add failure; the index ends initialized when it was or when either call connected |
| DocumentService.DocumentService.SemanticSearch | backend/services/documentService.js:283-312 | the answer is the vector search's hits, or, when that throws, the keyword search with the vector failure as the reason, and a failing listing of the chunk directory fails the search with `Search failed: `; the index ends initialized when it was or when the connection succeeded |
| DocumentService.SemanticOutcome | backend/services/documentService.js:283-312 | `method` is `semantic` with the hit count as total, or `keyword_fallback` with the fallback reason and the match count; a failing keyword scan propagates its error |
| DocumentService.FallbackReturnsAtMostFive | backend/services/documentService.js:302-310 | the keyword fallback ignores `nResults` and never reports more than five results |
| ChromaService.ChunkId | backend/services/chromaService.js:63 | a chunk id starts with its document id |
| ChromaService.ChunkIdInjective | backend/services/chromaService.js:63 | distinct chunk indexes of a document give distinct ids |
| ChromaService.Ids | backend/services/chromaService.js:63 | one id per chunk, `${documentId}_chunk_${idx}` by position |
| ChromaService.IdsDistinctAndPrefixed | backend/services/chromaService.js:63 | the ids of one `add` call are pairwise distinct and all start with the document id |
| ChromaService.ChunkIdCount | backend/services/chromaService.js:63 | `n` chunks of a document have exactly `n` distinct ids |
| ChromaService.MetadataOf | backend/services/chromaService.js:66-72 | the stored metadata names the document and the chunk index, copies the chunk's offsets and records its text length |
| ChromaService.NewEntries | backend/services/chromaService.js:57-80 | every chunk is stored under its id with its embedding, metadata and text; nothing else is stored, and everything stored names the document |
| ChromaService.BuildQuery | backend/services/chromaService.js:98-106 | the query carries the embedding and `nResults`; it has a `where` filter exactly when the document id is non-empty, and the filter is that id |
| ChromaService.FormatResults | backend/services/chromaService.js:117-135 | the loop computes `Formatted`; a successful answer has one hit per id of the first id list, and none when there are no ids |
| ChromaService.Formatted | backend/services/chromaService.js:117-135 | the whole of `formatResults`: no ids or an empty first id list give no hits, missing lists are the `TypeError` messages, otherwise entry `i` of the four lists; `FormatResults` and `FormattedAligned` state its properties |
| ChromaService.FormattedAligned | backend/services/chromaService.js:117-135 | when the four lists are aligned, hit `i` is id `i` with document, metadata and distance `i`, in the engine's order |
| ChromaService.WithoutDocument | backend/services/chromaService.js:140-148 | deletion removes exactly the entries whose metadata names the document and keeps every other entry unchanged |
| ChromaService.DeleteThenAddLeavesOneEntryPerChunk | backend/services/documentService.js:254-264 | after a delete and an add, the document has exactly one entry per chunk, whatever it had before |
| ChromaService.ChromaService.constructor | backend/services/chromaService.js:5-13 | the adapter starts uninitialized over the stored collection |
| ChromaService.ChromaService.Initialize | backend/services/chromaService.js:19-46 | a second call does nothing; a first call initializes, or rethrows the connection failure and stays uninitialized |
| ChromaService.ChromaService.AddChunks | backend/services/chromaService.js:53-83 | the first failing call (connect, embed, `add`) is thrown and leaves the collection unchanged; otherwise the collection gains the chunk entries and the count of chunks is returned |
| ChromaService.ChromaService.SearchSimilar | backend/services/chromaService.js:91-112 | the first failing call is thrown; otherwise the formatted answer of the engine to the built query |
| ChromaService.SimilarResult | backend/services/chromaService.js:91-112 | the first failing call of a search, or the formatted answer to the built query; `SearchSimilar` states it is what the method returns |
| ChromaService.ChromaService.DeleteDocument | backend/services/chromaService.js:140-148 | the first failing call is thrown and changes nothing; otherwise the document's entries are removed |
| ChromaService.ChromaService.GetStats | backend/services/chromaService.js:153-158 | the number of entries in the collection, or the first failing call's message |
| Agent.CatalogueWellFormed | backend/services/claudeService.js:14-116 | six tools with distinct names; each requires exactly one input, and that input is one of its properties |
| Agent.Field | backend/services/claudeService.js:152-181 | a missing input field reads as `undefined` |
| Agent.JsonOf | backend/services/claudeService.js:152-177 | a tool's answer becomes its JSON text, and a throw stays a failure with the same message |
| Agent.Dispatch | backend/services/claudeService.js:150-194 | the tool call a block selects by name; `DispatchByName`, `DispatchFailures` and `DispatchExamples` state its properties |
| Agent.DispatchByName | backend/services/claudeService.js:150-194 | a tool-use block gets no content exactly when its name is not in the catalogue |
| Agent.DispatchFailures | backend/services/claudeService.js:150-194 | a scrape never fails the dispatch; only the other five tools can throw |
| Agent.DispatchExamples | backend/services/claudeService.js:172-177 | web search asks for `count` when it is truthy and for 5 when it is missing or zero; a throwing calculation fails the dispatch |
| Agent.ToolUses | backend/services/claudeService.js:140-142 | the tool-use blocks of a response, and only those |
| Agent.ToolUsesAppend | backend/services/claudeService.js:140-142 | picking the tool calls of a concatenation gives those of the first part followed by those of the second |
| Agent.ToolUsesSingle | backend/services/claudeService.js:140-142 | one block is kept exactly when it is a tool call |
| Agent.FirstText | backend/services/claudeService.js:216-219 | the text of the first text block, or the stock reply when there is none |
| Agent.RoundResults | backend/services/claudeService.js:144-201 | a round succeeds exactly when every dispatch succeeds; it then has one result per block, in order, keyed by the block's id |
| Agent.RoundFrom | backend/services/claudeService.js:144-201 | the blocks from a position on succeed exactly when every dispatch does, and then give one result per block, in order, keyed by its id |
| Agent.RoundFailsAtFirstFailure | backend/services/claudeService.js:146-201 | a failed round fails with the error of its first failing block |
| Agent.RunTools | backend/services/claudeService.js:144-201 | the loop over the tool-use blocks computes `RoundResults` |
| Agent.Converse | backend/services/claudeService.js:117-233 | at most five model calls; each tool round appends two messages after the given ones; a loop that only ends by the count answers with the fallback reply |
| Agent.AskClaude | backend/services/claudeService.js:117-233 | the loop answers what `Converse` specifies from an empty loop count |
| Agent.ConverseStep | backend/services/claudeService.js:125-227 | one iteration: a model failure is the reply; a non-tool stop answers with the first text; a tool stop with a failing round fails; otherwise the loop continues on the extended messages |
| Agent.EndlessToolUseFallsBack | backend/services/claudeService.js:125-232 | a model that always asks for tools gets exactly five calls, then the fallback reply |
| Agent.AnswerEndsTheLoop | backend/services/claudeService.js:214-227 | a response that does not ask for tools ends the loop at once with its first text, after one call, appending nothing |
| Agent.RoundAppendsResponseThenResults | backend/services/claudeService.js:203-211 | a tool round appends the raw assistant response, then one tool result per tool-use block, keyed by the block ids in order |
| Agent.ScrapeFailureIsAResult | backend/services/claudeService.js:178-193 | a failing scrape becomes its block's result, carrying the message and the requested URL |
| Scraper.CollapseSpace | backend/services/scraper.js:57 | the `\s+` to one-space rewrite; `CollapseSpaceShape` and `RunBecomesOneSpace` state its properties |
| Scraper.CollapseSpaceShape | backend/services/scraper.js:57 | whitespace runs become one space: no two whitespace characters in a row, only plain spaces, the same non-whitespace characters, and the text starts with whitespace exactly when the original does |
| Scraper.SpaceRunCollapses | backend/services/scraper.js:57 | a whitespace run before non-whitespace text becomes one space |
| Scraper.CollapseSpaceSplits | backend/services/scraper.js:57 | text ending in non-whitespace is rewritten independently of what follows it |
| Scraper.RunBecomesOneSpace | backend/services/scraper.js:57 | a maximal whitespace run between two pieces of text becomes exactly one space, and both pieces are rewritten on their own, so no two words are ever glued together |
| Scraper.CollapseNewlines | backend/services/scraper.js:57 | collapsing newline runs never lengthens the text |
| Scraper.CleanShape | backend/services/scraper.js:57 | cleaned text has no whitespace at its ends, no adjacent whitespace and only plain spaces, and keeps every non-whitespace character in order |
| Scraper.Clean | backend/services/scraper.js:57 | whitespace collapsed, newline runs collapsed, both ends trimmed; `CleanShape` states its properties |
| Scraper.Truncate | backend/services/scraper.js:59-63 | text up to 8000 characters is kept; longer text keeps its first 8000 characters followed by the marker |
| Scraper.TruncatedLength | backend/services/scraper.js:59-63 | returned content is at most 8021 characters |
| Scraper.FirstNonEmpty | backend/services/scraper.js:43-55 | the first non-empty candidate, or the fallback when all are empty |
| Scraper.Title | backend/services/scraper.js:43-46 | the trimmed `<title>`, else the trimmed first `<h1>`, else `No title found`; `TitleAndDescriptionPriority` states its properties |
| Scraper.MainText | backend/services/scraper.js:48-55 | the first non-empty main-content candidate, else the body text; `FirstNonEmpty` states its properties |
| Scraper.Description | backend/services/scraper.js:65-68 | the `description` meta tag, else the Open Graph one, else empty; `TitleAndDescriptionPriority` states its properties |
| Scraper.TitleAndDescriptionPriority | backend/services/scraper.js:43-68 | the title is the trimmed `<title>`, else the trimmed first `<h1>`, else `No title found`, so it is never empty; the description prefers the `description` meta tag and is empty when both tags are missing |
| Scraper.FirstOfTwo | backend/services/scraper.js:43-46 | two candidates with a fallback behave as the `||` chain |
| Scraper.Classify | backend/services/scraper.js:80-104 | the message the `catch` block throws for a failure; `ClassifyCases` states each case |
| Scraper.ClassifyCases | backend/services/scraper.js:80-104 | 404 gives `Page not found (404): url`; 403 gives `Access forbidden (403): url. Website may be blocking scrapers`; a status of 500 or more gives `Server error (status): url is having issues`; any other status gives `HTTP error (status) while scraping url`; without a status, `ENOTFOUND` gives `Domain not found: url. Check the URL is correct`, `ETIMEDOUT` gives `Timeout scraping url. Website is too slow or unreachable`, and anything else passes its message through |
| Scraper.ScrapeWebpage | backend/services/scraper.js:10-105 | a missing or non-string URL and an unparsable URL are rejected first; a failed fetch fails with its classified message; a result carries its URL, and its content length is that of its at most 8021-character content |
| Scraper.ScrapedContent | backend/services/scraper.js:43-79 | a fetched page gives its cleaned, possibly truncated main text, that text's length and its title |
| Scraper.PartitionCounts | backend/services/scraper.js:128-140 | every attempted URL is either a success or a failure |
| Scraper.FailuresRecordTheirUrl | backend/services/scraper.js:131-140 | each failure names an attempted URL and the message its scrape failed with |
| Scraper.AttemptedUrls | backend/services/scraper.js:120 | at most `maxUrls` URLs are attempted: the first ones |
| Scraper.Partition | backend/services/scraper.js:124-140 | the outcome loop splits the attempts into successes and failures, in input order |
| Scraper.ScrapeMultiple | backend/services/scraper.js:114-152 | a missing or empty list is rejected with the wrapped message; otherwise the first `maxUrls` are attempted, and the success and failure counts add up to the number attempted |
| Search.ResultCount | backend/services/search.js:23 | the requested count is clamped into 1..20 and kept when already inside |
| Search.FormatResult | backend/services/search.js:43-49 | result `i` becomes position `i + 1` with its title and URL; a truthy description and age are kept, a missing description becomes the stock text and a missing age `null` |
| Search.Formatted | backend/services/search.js:43-49 | one formatted entry per API result, in order |
| Search.SearchWeb | backend/services/search.js:11-85 | a missing key fails first, then a non-string or blank query; a success echoes the query and its total is its number of results |
| Search.SearchReturnsAllResults | backend/services/search.js:23-59 | a successful request returns every result the API sent, numbered from 1 in order; a response without results is an empty search |
| Search.SearchFailure | backend/services/search.js:60-84 | a failed request fails the search with the mapped message |
| Search.ErrorMessage | backend/services/search.js:60-84 | the message the `catch` block throws for a failed request; `ErrorMessages`, `StatusErrorMessage` and `EmptyMessageFallsBackToStatusText` state every case |
| Search.ErrorMessages | backend/services/search.js:60-84 | 401 and 429 have fixed messages whatever the body says; no answer is a connection error; other errors pass through |
| Search.StatusErrorMessage | backend/services/search.js:64-73 | any status other than 401 and 429 with a non-empty body message reports `Brave API error (status): message` |
| Search.ServerErrorExample | backend/services/search.js:64-73 | the status is written in decimal: a 500 with message `boom` reports `Brave API error (500): boom` |
| Search.EmptyMessageFallsBackToStatusText | backend/services/search.js:64-73 | for any status other than 401 and 429, an empty body message counts as none, and the report is `Brave API error (status): ` followed by the status text |
| Search.WhitespaceQueryRejected | backend/services/search.js:19-21 | blank, empty and non-string queries are rejected |
| Calculator.DigitRunEnd | backend/services/calculatorService.js:7 | the greedy `\d+` run: all digits up to the end, and no digit after it |
| Calculator.SpaceRunEnd | backend/services/calculatorService.js:7-9 | the greedy `\s+` run: all whitespace up to the end, and no whitespace after it |
| Calculator.Rewrite | backend/services/calculatorService.js:7-9 | a global `replace`: each leftmost match is replaced, scanning on after it; `NoMatchNoChange` states its properties |
| Calculator.MatchAt | backend/services/calculatorService.js:7-9 | a match starting at a position ends after it and within the text |
| Calculator.NoMatchNoChange | backend/services/calculatorService.js:7-9 | a replacement whose pattern matches nowhere leaves the text unchanged |
| Calculator.Preprocess | backend/services/calculatorService.js:6-10 | the three rewrites in source order, then `trim`; `PlainExpressionOnlyTrimmed` and `PreprocessPercentOf` state its properties |
| Calculator.PlainExpressionOnlyTrimmed | backend/services/calculatorService.js:6-10 | an expression none of the three patterns match is only trimmed |
| Calculator.PercentOfExample | backend/services/calculatorService.js:7 | `15% of 200` becomes `(15/100) * 200` |
| Calculator.PreprocessPercentOf | backend/services/calculatorService.js:6-10 | the whole preprocessing of `15% of 200` is `(15/100) * 200` |
| Calculator.SpaceRunEndIs | backend/services/calculatorService.js:7-9 | the greedy `\s+` run starting at a position ends exactly where the whitespace stops |
| Calculator.DigitRunEndIs | backend/services/calculatorService.js:7 | the greedy `\d+` run starting at a position ends exactly where the digits stop |
| Calculator.PercentOfRule | backend/services/calculatorService.js:7 | wherever digits, `%`, whitespace, `of` in any case and whitespace follow each other, that text is replaced by `(digits/100) * ` and the scan resumes after the whitespace |
| Calculator.PercentWordRule | backend/services/calculatorService.js:8 | wherever `percent` in any case, whitespace and `of` in any case follow each other, that text is replaced by `/ 100 *` and the scan resumes after `of` |
| Calculator.ToRule | backend/services/calculatorService.js:9 | wherever whitespace, `to` in any case and whitespace follow each other, that text is replaced by ` to ` and the scan resumes after the whitespace |
| Calculator.PercentWordExample | backend/services/calculatorService.js:8 | in `15 PERCENT  of 60`, the text `PERCENT  of` at position 3 matches and becomes `/ 100 *` |
| Calculator.ToExample | backend/services/calculatorService.js:9 | in `32 fahrenheit   TO celsius`, the text `   TO ` at position 13 matches and becomes ` to ` |
| Calculator.Calculate | backend/services/calculatorService.js:3-22 | the evaluator gets the rewritten expression; a success echoes the original expression with the result; a failure is `Unable to calculate: ` followed by the evaluator's message |
| Sessions.SessionKey | backend/server.js:27 | an absent `sessionID` reads as `"default"`; any present value, even `null` or `""`, is its own key |
| Sessions.HistoryOf | backend/server.js:70-74 | the history route names the session (default when the parameter is empty), reports the stored history or an empty one, and its count is the history's length |
| Sessions.SessionStore.constructor | backend/server.js:23 | the server starts with no conversations |
| Sessions.SessionStore.Chat | backend/server.js:25-53 | a falsy message is a 400 and changes nothing; a reply stores the user turn and the reply under the session, so that history grows by two; a failure is a 500 with the message and keeps the user turn only in an existing session; every other session is unchanged |
| Sessions.SessionStore.Reset | backend/server.js:63-68 | the session's history is removed, so it reads as empty, and every other session is unchanged |
| SystemStats.FloorOfQuotient | backend/routes/systemRoutes.js:11 | the whole part of `x / d` is the integer quotient of `x`'s whole part |
| SystemStats.FmodFloor | backend/routes/systemRoutes.js:12-13 | JavaScript's `%` on a non-negative uptime is non-negative and its whole part is the remainder of the whole seconds |
| SystemStats.UptimeOf | backend/routes/systemRoutes.js:8-13 | hours, minutes and seconds of the uptime and the formatted text; `UptimeDecomposes` states its properties |
| SystemStats.UptimeDecomposes | backend/routes/systemRoutes.js:8-22 | hours, minutes and seconds add back up to the whole seconds reported, with minutes and seconds below 60 |
| SystemStats.ByTypeCounts | backend/routes/systemRoutes.js:61-65 | the `byType` fold counts each type exactly, and lists a type only when some document has it |
| SystemStats.ByTypeSumsToTotal | backend/routes/systemRoutes.js:61-65 | the per-type counts add up to the number of documents |
| SystemStats.ByType | backend/routes/systemRoutes.js:61-65 | the `reduce` that counts documents per type; `ByTypeCounts` and `ByTypeSumsToTotal` state its properties |
| SystemStats.TotalChunks | backend/routes/systemRoutes.js:51-54 | the sum of the chunk counts; `TotalsIgnoreMissing` states its properties |
| SystemStats.RoundedAverage | backend/routes/systemRoutes.js:76-84 | `Math.round` of the average; `RoundedAverageNearest` states its properties |
| SystemStats.RoundedAverageNearest | backend/routes/systemRoutes.js:76-84 | the rounded average lies within half of the exact quotient |
| SystemStats.StatsOf | backend/routes/systemRoutes.js:47-85 | the total is the number of listed documents; with none, both averages are 0 and `byType` is empty |
| SystemStats.StatsRoute | backend/routes/systemRoutes.js:42-102 | a failing listing answers `STATS_FAILED` with its message; otherwise the statistics of the listing |
| SystemStats.TotalsIgnoreMissing | backend/routes/systemRoutes.js:51-58 | a document without a chunk count or length adds nothing to the totals |
| Upload.StripTrailingSlashes | backend/middleware/uploadMiddleware.js:25 | the name without its trailing slashes: a prefix not ending in `/`, with only slashes removed |
| Upload.LastIndex | backend/middleware/uploadMiddleware.js:25 | the position of the last occurrence of a character, or -1 when there is none |
| Upload.Extname | backend/middleware/uploadMiddleware.js:25 | `path.extname`: from the last dot of the base name, empty when that dot is first or missing; `ExtnameShape` and `ExtnameOfPlainName` state its properties |
| Upload.ExtnameShape | backend/middleware/uploadMiddleware.js:25 | an extension is empty or a dot followed by no dot and no slash, and it ends the name once trailing slashes are dropped |
| Upload.ExtnameOfPlainName | backend/middleware/uploadMiddleware.js:25 | a plain file name's extension starts at its last dot, when that dot is not the first character |
| Upload.FileFilter | backend/middleware/uploadMiddleware.js:23-37 | an upload is accepted exactly when its lower-cased extension is `.pdf` or `.txt`; a rejection carries the fixed message |
| Upload.RejectMessageText | backend/middleware/uploadMiddleware.js:32 | the message is `Invalid file type. Only .pdf, .txt are allowed` |
| Upload.AcceptedNamesEndInAllowedType | backend/middleware/uploadMiddleware.js:23-37 | an accepted name ends in `.pdf` or `.txt`, ignoring case and trailing slashes |
| Upload.PlainNamesWithAllowedTypeAccepted | backend/middleware/uploadMiddleware.js:23-37 | a plain name with something before an allowed extension, in any case, is accepted |
| Upload.UpperCaseAccepted | backend/middleware/uploadMiddleware.js:25-28 | `REPORT.PDF` is accepted |
| Upload.TrailingSlashIgnored | backend/middleware/uploadMiddleware.js:25-28 | trailing slashes are dropped before the extension is taken: `notes.Txt/` has extension `.Txt` and is accepted |
| Upload.LastExtensionDecides | backend/middleware/uploadMiddleware.js:25-35 | `a.pdf.exe` has extension `.exe` and is rejected |
| Upload.NoInnerDotRejected | backend/middleware/uploadMiddleware.js:25-35 | a plain name with no dot after its first character has no extension and is rejected |
| Upload.DotFileHasNoExtension | backend/middleware/uploadMiddleware.js:25-35 | the dot file `.pdf` is rejected |
| Upload.NoDotNoExtension | backend/middleware/uploadMiddleware.js:25-35 | `report` is rejected |
| Upload.StoredFilename | backend/middleware/uploadMiddleware.js:16-20 | the stored name ends with the original name |
| Upload.StoredFilenameInjective | backend/middleware/uploadMiddleware.js:18 | the stored name determines both the millisecond and the original name |
| Common.IsSpace | backend/services/scraper.js:57 | the JavaScript `\s` class, which is also what `trim` removes |
| Common.Trim | backend/services/scraper.js:44 | the result has no whitespace at either end and is the text between its leading and trailing whitespace |
| Common.Lower | backend/services/documentService.js:211-213 | same length, each character lower-cased |
| Common.Slice | backend/services/documentService.js:216 | `slice(from, to)`: the infix between the clamped indexes |

## Left out

- Embeddings and cosine similarity are left out. The embedding model and the vector engine's nearest-neighbour query are oracles.
- The engine's `nResults` limit and ordering by distance are left out, as are embedding-dimension checks; all of them belong to ChromaDB.
- The foreign libraries are oracles or parameters: `pdf-parse`, cheerio's HTML selection, `new URL`, axios and `mathjs`.
- ChromaService.ChromaService.AddChunks: `collection.add` is modelled as storing every entry under its id and replacing an existing one; what ChromaDB does with a duplicate id is not part of this model.
- Concurrency is left out. `Promise.allSettled` in `scrapeMultiple` is modelled as scraping the URLs in order. Overlapping requests to the `conversations` map are not modelled.
- Directory listing order is taken as the sequence order of the stored files.
- Text lengths count characters, not UTF-16 code units. `toLowerCase` is modelled for ASCII letters only.
- `JSON.stringify` of a tool's answer is abstracted as the tool's own JSON text. The tools return that text.
- Dates and clocks are inputs:
  - `Date.now()` is a natural number;
  - ISO timestamps are strings;
  - `process.uptime()` is a non-negative real.
- `Math.round` appears only on non-negative averages. It is modelled as rounding half up.
- The health route's other fields are constants and are left out. Its `503` branch cannot be reached, since nothing in its `try` throws.
- Console logging and the `initStorage` directory creation are left out.
- The `pdfInfo` object that `readDocument` copies from `pdf-parse` is left out. The page count is kept.
- The thin service wrappers are not part of this model: `newsService.js`, `weatherService.js`, `wikipediaService.js` and the embedding service. They are tool parameters.
- Multer's storage destination, its `mkdir` and the 20 MB size limit belong to the upload library's configuration and are left out.
- The frontend and the legacy command-line client are not part of this model.
- Agent.AskClaude: the `continueLoop` flag is not modelled as a variable, because every branch that clears it also returns. The final `if (loopCount >= maxLoops)` is the loop's exit.
- SessionStore.History is a plain reader of `HistoryOf`, and its contract lives there.
- Search.ResultCount: JavaScript numbers are modelled as integers. A fractional count, `NaN` and a numeric string are not modelled in the clamp.
- Calculator.Calculate: the expression is a string. A non-string expression makes `expression.replace` throw, and the answer is then `Unable to calculate: expression.replace is not a function`; that path is not modelled.
- DocumentService.DocumentService.ReindexDocument: the message for a missing chunk file is a parameter, since it names the absolute path of the storage directory.
- The `/api/health` route of `server.js` returns constant fields and a timestamp; it is left out.
