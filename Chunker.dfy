/** The pure half of backend/services/documentService.js: the fixed-size,
    overlapping text windows that documents are cut into, and the detection of
    a download's file type. */
module Chunker {
  import opened Common

  newtype byte = x: int | 0 <= x < 256

  /** One window of a document's text, with its offsets into the text. */
  datatype Chunk = Chunk(text: string, startIndex: int, endIndex: int)

  const DefaultChunkSize: int := 1000
  const DefaultOverlap: int := 200

  /** Chunk `k` as the loop of `chunkText` builds it: it starts `k` strides of
      `chunkSize - overlap` into the text, its text is `text.slice(start,
      start + chunkSize)` and its end offset is clamped to the text length. */
  function ChunkAt(text: string, chunkSize: int, overlap: int, k: nat): Chunk {
    var start := k * (chunkSize - overlap);
    var end := start + chunkSize;
    Chunk(Slice(text, start, end), start, Min(end, |text|))
  }

  /** How many windows a text of length `len` gets: the number of strides
      that start before the end of the text, that is `ceil(len / stride)`. */
  function ChunkCount(len: nat, stride: int): nat
    requires stride > 0
  {
    (len + stride - 1) / stride
  }

  /** Multiplying by a non-negative factor keeps the order. */
  lemma MulMono(a: int, b: int, d: int)
    requires 0 <= d && a <= b
    ensures a * d <= b * d
  {
    assert b * d - a * d == (b - a) * d;
  }

  /** The ceiling count: `n` strides reach the end of the text and the last
      of them starts before it. */
  lemma CeilingFacts(len: nat, stride: int)
    requires stride > 0
    ensures ChunkCount(len, stride) * stride >= len
    ensures ChunkCount(len, stride) == 0 || (ChunkCount(len, stride) - 1) * stride < len
    ensures ChunkCount(len, stride) == 0 <==> len == 0
  {
    var x := len + stride - 1;
    var n := x / stride;
    assert x == n * stride + x % stride && 0 <= x % stride < stride;
    assert (n - 1) * stride == n * stride - stride;
  }

  /** `n` is the number of strides that start before `len`. */
  lemma CountIsCeiling(n: nat, len: nat, stride: int)
    requires stride > 0
    requires n * stride >= len
    requires n == 0 || (n - 1) * stride < len
    ensures n == ChunkCount(len, stride)
  {
    var q := ChunkCount(len, stride);
    CeilingFacts(len, stride);
    if q < n {
      MulMono(q, n - 1, stride);
      assert false;
    } else if n < q {
      MulMono(n, q - 1, stride);
      assert false;
    }
  }

  /** `chunkText(text, chunkSize, overlap)`. The source never checks that the
      stride is positive; the loop only terminates when it is. */
  method ChunkText(text: string, chunkSize: int, overlap: int) returns (chunks: seq<Chunk>)
    requires overlap < chunkSize
    ensures |chunks| == ChunkCount(|text|, chunkSize - overlap)
    ensures forall k :: 0 <= k < |chunks| ==> chunks[k] == ChunkAt(text, chunkSize, overlap, k)
  {
    var stride := chunkSize - overlap;
    chunks := [];
    var start := 0;
    while start < |text|
      invariant start == |chunks| * stride
      invariant |chunks| == 0 || (|chunks| - 1) * stride < |text|
      invariant forall k :: 0 <= k < |chunks| ==> chunks[k] == ChunkAt(text, chunkSize, overlap, k)
      decreases |text| - start
    {
      var end := start + chunkSize;
      var chunk := Slice(text, start, end);
      chunks := chunks + [Chunk(chunk, start, Min(end, |text|))];
      start := start + stride;
    }
    CountIsCeiling(|chunks|, |text|, stride);
  }

  /** Every chunk starts inside the text and ends at or before its end; with a
      positive window its text is exactly the characters between its offsets. */
  lemma ChunkInBounds(text: string, chunkSize: int, overlap: int, k: nat)
    requires 0 <= overlap < chunkSize
    requires k < ChunkCount(|text|, chunkSize - overlap)
    ensures var c := ChunkAt(text, chunkSize, overlap, k);
      && c.startIndex == k * (chunkSize - overlap)
      && 0 <= c.startIndex < c.endIndex <= |text|
      && c.text == text[c.startIndex..c.endIndex]
  {
    var stride := chunkSize - overlap;
    CeilingFacts(|text|, stride);
    MulMono(k, ChunkCount(|text|, stride) - 1, stride);
    MulMono(0, k, stride);
  }

  /** Consecutive chunks are one stride apart and, with a non-negative
      overlap, the next one starts no later than the previous one ends. */
  lemma ChunksAbut(text: string, chunkSize: int, overlap: int, k: nat)
    requires 0 <= overlap < chunkSize
    requires k + 1 < ChunkCount(|text|, chunkSize - overlap)
    ensures var c, d := ChunkAt(text, chunkSize, overlap, k), ChunkAt(text, chunkSize, overlap, k + 1);
      d.startIndex == c.startIndex + (chunkSize - overlap) && d.startIndex <= c.endIndex
  {
    ChunkInBounds(text, chunkSize, overlap, k + 1);
  }

  /** With a non-negative overlap every character of the text lies in some
      chunk: position `i` lies in chunk `i / stride`. */
  lemma ChunksCover(text: string, chunkSize: int, overlap: int, i: nat)
    requires 0 <= overlap < chunkSize
    requires i < |text|
    ensures var k := i / (chunkSize - overlap);
      && k < ChunkCount(|text|, chunkSize - overlap)
      && ChunkAt(text, chunkSize, overlap, k).startIndex <= i < ChunkAt(text, chunkSize, overlap, k).endIndex
  {
    var stride := chunkSize - overlap;
    var k := i / stride;
    assert i == k * stride + i % stride;
    var n := ChunkCount(|text|, stride);
    CeilingFacts(|text|, stride);
    if n <= k {
      MulMono(n, k, stride);
      assert false;
    }
  }

  /** The empty text has no chunks. */
  lemma EmptyTextHasNoChunks(chunkSize: int, overlap: int)
    requires overlap < chunkSize
    ensures ChunkCount(0, chunkSize - overlap) == 0
  {
  }

  /** A non-empty text no longer than one stride is a single chunk spanning
      the whole text. */
  lemma ShortTextIsOneChunk(text: string, chunkSize: int, overlap: int)
    requires 0 <= overlap < chunkSize
    requires 0 < |text| <= chunkSize - overlap
    ensures ChunkCount(|text|, chunkSize - overlap) == 1
    ensures ChunkAt(text, chunkSize, overlap, 0) == Chunk(text, 0, |text|)
  {
    CountIsCeiling(1, |text|, chunkSize - overlap);
  }

  /** A text longer than one stride but no longer than one window gets a
      second chunk that lies entirely inside the first (901 characters with
      the default sizes: chunks [0, 901) and [800, 901)). */
  lemma WindowSizedTextHasTwoChunks(text: string)
    requires |text| == 901
    ensures ChunkCount(|text|, DefaultChunkSize - DefaultOverlap) == 2
    ensures ChunkAt(text, DefaultChunkSize, DefaultOverlap, 0) == Chunk(text, 0, 901)
    ensures ChunkAt(text, DefaultChunkSize, DefaultOverlap, 1) == Chunk(text[800..], 800, 901)
  {
    CountIsCeiling(2, 901, 800);
  }

  /** With the default sizes a text of 2500 characters gets four chunks,
      starting at 0, 800, 1600 and 2400, the last one clamped to 2500. */
  lemma DefaultChunksOf2500(text: string)
    requires |text| == 2500
    ensures ChunkCount(|text|, DefaultChunkSize - DefaultOverlap) == 4
    ensures ChunkAt(text, DefaultChunkSize, DefaultOverlap, 0).startIndex == 0
    ensures ChunkAt(text, DefaultChunkSize, DefaultOverlap, 1).startIndex == 800
    ensures ChunkAt(text, DefaultChunkSize, DefaultOverlap, 2).startIndex == 1600
    ensures ChunkAt(text, DefaultChunkSize, DefaultOverlap, 3) == Chunk(text[2400..], 2400, 2500)
  {
    CountIsCeiling(4, 2500, 800);
  }

  /** The bytes `%PDF-` that every PDF file starts with. */
  const PdfSignature: seq<byte> := [0x25, 0x50, 0x44, 0x46, 0x2D]

  /** `getFileType(url, buffer)`: the byte signature decides first; only a
      buffer without it falls back to the URL's extension. Decoding five
      bytes as UTF-8 yields `%PDF-` exactly when they are these five ASCII
      bytes, so the signature test is stated on bytes. */
  function GetFileType(url: string, buffer: seq<byte>): (r: string)
    ensures r == "pdf" || r == "txt"
    ensures |buffer| >= 5 && buffer[..5] == PdfSignature ==> r == "pdf"
    ensures (|buffer| < 5 || buffer[..5] != PdfSignature) ==> (r == "pdf" <==> EndsWith(Lower(url), ".pdf"))
  {
    if |buffer| >= 5 && buffer[..5] == PdfSignature then "pdf"
    else if EndsWith(Lower(url), ".pdf") then "pdf"
    else "txt"
  }

  /** The extension test ignores case, and a text file named like a PDF is
      still taken for a PDF when it is too short to carry a signature. */
  lemma FileTypeExamples()
    ensures GetFileType("https://example.com/REPORT.PDF", []) == "pdf"
    ensures GetFileType("https://example.com/notes.txt", [0x25, 0x50, 0x44, 0x46, 0x2D, 0x31]) == "pdf"
    ensures GetFileType("https://example.com/notes.txt", [0x25, 0x50, 0x44]) == "txt"
  {
    assert Lower("https://example.com/REPORT.PDF")[26..] == ".pdf";
    assert [0x25, 0x50, 0x44, 0x46, 0x2D, 0x31][..5] == PdfSignature;
    assert Lower("https://example.com/notes.txt")[26] == 't';
  }
}
