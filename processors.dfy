// The ETL transforms of etl/src/processors.py: the overlapping token-window
// chunker, the priority-section filter of a 10-K, and the SimFin record
// stamping. The tokenizer is a pair of oracles (`encode`, `decode`); tokens
// are an abstract sequence.

module Processors {
  import opened Wrappers
  import opened PyDict
  import Text

  type Token = int

  /** `CHUNK_SIZE` and `CHUNK_OVERLAP`, in tokens. */
  const ChunkSize: nat := 600
  const ChunkOverlap: nat := 100

  /** `PRIORITY_SECTIONS`: the 10-K items that are kept. */
  const PrioritySections: set<string> :=
    {"Item 1", "Item 1A", "Item 1B", "Item 1C", "Item 2", "Item 3", "Item 5", "Item 7", "Item 7A"}

  /** What a chunk of a 10-K section carries into the embedding step. */
  datatype TenKChunk = TenKChunk(sectionId: string, chunkIndex: nat, chunkText: string,
                                 ticker: string, fiscalYear: Option<int>, itemLabel: string)

  /** The fields every chunk of one section shares. */
  datatype SectionTag = SectionTag(sectionId: string, ticker: string, fiscalYear: Option<int>, itemLabel: string)

  function Min(a: nat, b: nat): nat { if a <= b then a else b }

  // ------------------------------------------------------------ token windows

  /** The token positions `lo..hi` a chunk is decoded from. */
  datatype Window = Window(lo: nat, hi: nat)

  /**
   * The windows the chunker visits from `start` on: `size` tokens each, cut
   * short at the end, each starting `size - overlap` after the previous one.
   */
  function Windows(n: nat, size: nat, overlap: nat, start: nat): seq<Window>
    requires size > overlap || start >= n
    decreases n - start
  {
    if start >= n then []
    else [Window(start, Min(start + size, n))] + Windows(n, size, overlap, start + size - overlap)
  }

  /** The chunks of `tokens` from position `start` on, numbered from `index`. */
  function ChunksFrom(tokens: seq<Token>, size: nat, overlap: nat, start: nat, index: nat,
                      tag: SectionTag, decode: seq<Token> -> string): seq<TenKChunk>
    requires size > overlap || start >= |tokens|
    decreases |tokens| - start
  {
    if start >= |tokens| then []
    else [ChunkAt(tokens, size, start, index, tag, decode)]
         + ChunksFrom(tokens, size, overlap, start + size - overlap, index + 1, tag, decode)
  }

  /** The chunk numbered `index`, decoded from the window starting at `start`. */
  function ChunkAt(tokens: seq<Token>, size: nat, start: nat, index: nat,
                   tag: SectionTag, decode: seq<Token> -> string): TenKChunk
    requires start < |tokens|
  {
    TenKChunk(tag.sectionId, index, decode(tokens[start..Min(start + size, |tokens|)]), tag.ticker, tag.fiscalYear, tag.itemLabel)
  }

  /** What `_chunk_text` returns for the tokens of a section. */
  function TextChunks(tokens: seq<Token>, size: nat, overlap: nat, tag: SectionTag,
                      decode: seq<Token> -> string): seq<TenKChunk>
    requires size > overlap || tokens == []
  {
    ChunksFrom(tokens, size, overlap, 0, 0, tag, decode)
  }

  /**
   * `_chunk_text`, for the token list `encode(text)`. With tokens to chunk,
   * the loop only ends when a window advances, that is when the size exceeds
   * the overlap.
   */
  method ChunkText(tokens: seq<Token>, size: nat, overlap: nat, tag: SectionTag,
                   decode: seq<Token> -> string) returns (chunks: seq<TenKChunk>)
    requires size > overlap || tokens == []
    ensures chunks == TextChunks(tokens, size, overlap, tag, decode)
  {
    chunks := [];
    var start: nat := 0;
    var chunkIndex: nat := 0;
    while start < |tokens|
      invariant chunkIndex == |chunks|
      invariant TextChunks(tokens, size, overlap, tag, decode)
             == chunks + ChunksFrom(tokens, size, overlap, start, chunkIndex, tag, decode)
      decreases |tokens| - start
    {
      assert size > overlap;
      var end := start + size;
      var chunkText := decode(tokens[start..Min(end, |tokens|)]);
      var chunk := TenKChunk(tag.sectionId, chunkIndex, chunkText, tag.ticker, tag.fiscalYear, tag.itemLabel);
      assert chunk == ChunkAt(tokens, size, start, chunkIndex, tag, decode);
      ChunkTextStep(tokens, size, overlap, start, chunkIndex, tag, decode, chunks);
      chunks := chunks + [chunk];
      chunkIndex := chunkIndex + 1;
      start := end - overlap;
    }
    assert ChunksFrom(tokens, size, overlap, start, chunkIndex, tag, decode) == [];
    assert chunks + [] == chunks;
  }

  /** Emitting the chunk of the window at `start` moves on to the next window. */
  lemma ChunkTextStep(tokens: seq<Token>, size: nat, overlap: nat, start: nat, index: nat,
                      tag: SectionTag, decode: seq<Token> -> string, chunks: seq<TenKChunk>)
    requires size > overlap && start < |tokens|
    ensures chunks + ChunksFrom(tokens, size, overlap, start, index, tag, decode)
      == (chunks + [ChunkAt(tokens, size, start, index, tag, decode)])
         + ChunksFrom(tokens, size, overlap, start + size - overlap, index + 1, tag, decode)
  {
    var chunk := ChunkAt(tokens, size, start, index, tag, decode);
    var rest := ChunksFrom(tokens, size, overlap, start + size - overlap, index + 1, tag, decode);
    assert chunks + ([chunk] + rest) == (chunks + [chunk]) + rest;
  }

  /**
   * Chunk `k` is numbered `index + k` and decoded from the `k`-th window;
   * it carries the section's tag. There is one chunk per window.
   */
  lemma {:induction false} ChunksFromAt(tokens: seq<Token>, size: nat, overlap: nat, start: nat, index: nat,
                                        tag: SectionTag, decode: seq<Token> -> string)
    requires size > overlap || start >= |tokens|
    ensures var cs := ChunksFrom(tokens, size, overlap, start, index, tag, decode);
      var ws := Windows(|tokens|, size, overlap, start);
      && |cs| == |ws|
      && forall k :: 0 <= k < |cs| ==>
           && ws[k].lo <= ws[k].hi <= |tokens|
           && cs[k] == TenKChunk(tag.sectionId, index + k, decode(tokens[ws[k].lo..ws[k].hi]),
                                 tag.ticker, tag.fiscalYear, tag.itemLabel)
    decreases |tokens| - start
  {
    if start < |tokens| {
      var next := start + size - overlap;
      ChunksFromAt(tokens, size, overlap, next, index + 1, tag, decode);
      var cs := ChunksFrom(tokens, size, overlap, start, index, tag, decode);
      var ws := Windows(|tokens|, size, overlap, start);
      var cs' := ChunksFrom(tokens, size, overlap, next, index + 1, tag, decode);
      var ws' := Windows(|tokens|, size, overlap, next);
      forall k | 1 <= k < |cs|
        ensures cs[k] == cs'[k - 1] && ws[k] == ws'[k - 1]
      {
      }
    }
  }

  /**
   * The windows from `start` on: the first starts at `start`, each later one
   * `size - overlap` after the one before, every one holds `size` tokens
   * unless the tokens end first, and the last one reaches the end, after
   * which the next start would be past it.
   */
  lemma {:induction false} WindowsShape(n: nat, size: nat, overlap: nat, start: nat)
    requires size > overlap || start >= n
    ensures var ws := Windows(n, size, overlap, start);
      && (ws == [] <==> start >= n)
      && (ws != [] ==> ws[0].lo == start && ws[|ws| - 1].hi == n
                       && ws[|ws| - 1].lo + size - overlap >= n)
      && (forall k :: 0 <= k < |ws| ==> ws[k].lo < ws[k].hi == Min(ws[k].lo + size, n))
      && (forall k :: 0 <= k < |ws| - 1 ==> ws[k + 1].lo == ws[k].lo + size - overlap)
    decreases n - start
  {
    if start < n {
      var next := start + size - overlap;
      WindowsShape(n, size, overlap, next);
      var ws := Windows(n, size, overlap, start);
      var ws' := Windows(n, size, overlap, next);
      assert ws == [Window(start, Min(start + size, n))] + ws';
      forall k | 1 <= k < |ws|
        ensures ws[k] == ws'[k - 1]
      {
      }
    }
  }

  /** Every token from `start` on lies in some window. */
  lemma {:induction false} WindowsCover(n: nat, size: nat, overlap: nat, start: nat, j: nat)
    requires size > overlap || start >= n
    requires start <= j < n
    ensures exists k :: (0 <= k < |Windows(n, size, overlap, start)|
      && Windows(n, size, overlap, start)[k].lo <= j < Windows(n, size, overlap, start)[k].hi)
    decreases n - start
  {
    var ws := Windows(n, size, overlap, start);
    if j < Min(start + size, n) {
      assert ws[0].lo <= j < ws[0].hi;
    } else {
      var next := start + size - overlap;
      WindowsCover(n, size, overlap, next, j);
      var ws' := Windows(n, size, overlap, next);
      var k :| 0 <= k < |ws'| && ws'[k].lo <= j < ws'[k].hi;
      assert ws[k + 1] == ws'[k];
    }
  }

  /** A full window shares its last `overlap` tokens with the next window. */
  lemma WindowsOverlap(n: nat, size: nat, overlap: nat, start: nat, k: nat)
    requires size > overlap || start >= n
    requires k + 1 < |Windows(n, size, overlap, start)|
    requires Windows(n, size, overlap, start)[k].hi == Windows(n, size, overlap, start)[k].lo + size
    ensures var ws := Windows(n, size, overlap, start);
      ws[k].hi - ws[k + 1].lo == overlap
  {
    WindowsShape(n, size, overlap, start);
  }

  /**
   * A window that reaches the end is not always the last: the window after
   * it lies entirely inside it, so its chunk repeats tokens already chunked.
   */
  lemma WindowsRedundantTail(n: nat, size: nat, overlap: nat, start: nat, k: nat)
    requires size > overlap || start >= n
    requires k + 1 < |Windows(n, size, overlap, start)|
    requires Windows(n, size, overlap, start)[k].hi == n
    ensures var ws := Windows(n, size, overlap, start);
      ws[k].lo < ws[k + 1].lo && ws[k + 1].hi == ws[k].hi
  {
    WindowsShape(n, size, overlap, start);
  }

  /** Window `k` starts at `start + k * (size - overlap)`. */
  lemma {:induction false} WindowStart(n: nat, size: nat, overlap: nat, start: nat, k: nat)
    requires size > overlap || start >= n
    requires k < |Windows(n, size, overlap, start)|
    ensures Windows(n, size, overlap, start)[k].lo == start + k * (size - overlap)
    decreases k
  {
    if k > 0 {
      WindowsShape(n, size, overlap, start);
      WindowStart(n, size, overlap, start, k - 1);
      assert k * (size - overlap) == (k - 1) * (size - overlap) + (size - overlap);
    }
  }

  /**
   * With the default sizes, 600 tokens make two chunks, and the second
   * (tokens 500 to 599) lies inside the first.
   */
  lemma SixHundredTokens()
    ensures Windows(600, ChunkSize, ChunkOverlap, 0) == [Window(0, 600), Window(500, 600)]
  {
    assert Windows(600, 600, 100, 1000) == [];
  }

  /** No tokens, no chunks. */
  lemma NoTokensNoChunks(size: nat, overlap: nat, tag: SectionTag, decode: seq<Token> -> string)
    ensures TextChunks([], size, overlap, tag, decode) == []
  {
  }

  // ------------------------------------------------------------ 10-K sections

  /** A section of a 10-K as the SEC API returns it. */
  datatype Section = Section(id: string, documentId: string, itemLabel: string,
                             itemDescription: string, content: string)

  /** What `process_10k_sections` keeps of a priority section. */
  datatype SectionRecord = SectionRecord(sectionId: string, documentId: string, itemLabel: string,
                                         itemDescription: string, content: string, contentLength: nat)

  function RecordOf(s: Section): SectionRecord
  {
    SectionRecord(s.id, s.documentId, s.itemLabel, s.itemDescription, s.content, |s.content|)
  }

  /**
   * The sections whose label is one of `labels`, in input order, as records:
   * at most one per section, and none exactly when no label is one of `labels`.
   */
  function KeptSections(sections: seq<Section>, labels: set<string>): (r: seq<SectionRecord>)
    ensures |r| <= |sections|
    ensures r == [] <==> forall s :: s in sections ==> s.itemLabel !in labels
  {
    if sections == [] then []
    else
      assert sections == [sections[0]] + sections[1..];
      var rest := KeptSections(sections[1..], labels);
      if sections[0].itemLabel in labels then [RecordOf(sections[0])] + rest else rest
  }

  /** The chunks of one section, with the given tokenizer. */
  function SectionChunks(s: Section, ticker: string, fiscalYear: Option<int>,
                         encode: string -> seq<Token>, decode: seq<Token> -> string): seq<TenKChunk>
  {
    TextChunks(encode(s.content), ChunkSize, ChunkOverlap, SectionTag(s.id, ticker, fiscalYear, s.itemLabel), decode)
  }

  /** The chunks of the priority sections, section after section; no priority section, no chunk. */
  function KeptChunks(sections: seq<Section>, labels: set<string>, ticker: string, fiscalYear: Option<int>,
                      encode: string -> seq<Token>, decode: seq<Token> -> string): (r: seq<TenKChunk>)
    ensures (forall s :: s in sections ==> s.itemLabel !in labels) ==> r == []
  {
    if sections == [] then []
    else
      assert sections[0] in sections && forall s :: s in sections[1..] ==> s in sections;
      var rest := KeptChunks(sections[1..], labels, ticker, fiscalYear, encode, decode);
      if sections[0].itemLabel in labels
      then SectionChunks(sections[0], ticker, fiscalYear, encode, decode) + rest
      else rest
  }

  /** A 10-K as handed to `process_10k_sections`; a missing section list is empty. */
  datatype TenKDocument = TenKDocument(ticker: string, fiscalYear: Option<int>, sections: seq<Section>)

  /**
   * `process_10k_sections`: the loop over the sections skips those outside
   * the priority list and, for each other one, appends its record and its chunks.
   */
  method Process10kSections(doc: TenKDocument, encode: string -> seq<Token>, decode: seq<Token> -> string)
    returns (prioritySections: seq<SectionRecord>, chunksForEmbedding: seq<TenKChunk>)
    ensures prioritySections == KeptSections(doc.sections, PrioritySections)
    ensures chunksForEmbedding == KeptChunks(doc.sections, PrioritySections, doc.ticker, doc.fiscalYear, encode, decode)
  {
    prioritySections, chunksForEmbedding := [], [];
    var sections := doc.sections;
    for i := 0 to |sections|
      invariant prioritySections == KeptSections(sections[..i], PrioritySections)
      invariant chunksForEmbedding == KeptChunks(sections[..i], PrioritySections, doc.ticker, doc.fiscalYear, encode, decode)
    {
      var section := sections[i];
      KeptStep(sections, i, PrioritySections, doc.ticker, doc.fiscalYear, encode, decode);
      if section.itemLabel !in PrioritySections {
        continue;
      }
      prioritySections := prioritySections + [RecordOf(section)];
      var tag := SectionTag(section.id, doc.ticker, doc.fiscalYear, section.itemLabel);
      var chunks := ChunkText(encode(section.content), ChunkSize, ChunkOverlap, tag, decode);
      chunksForEmbedding := chunksForEmbedding + chunks;
    }
    assert sections[..|sections|] == sections;
  }

  /** One more section extends the records and the chunks by that section's own. */
  lemma KeptStep(sections: seq<Section>, i: nat, labels: set<string>, ticker: string, fiscalYear: Option<int>,
                 encode: string -> seq<Token>, decode: seq<Token> -> string)
    requires i < |sections|
    ensures KeptSections(sections[..i + 1], labels)
         == KeptSections(sections[..i], labels) + (if sections[i].itemLabel in labels then [RecordOf(sections[i])] else [])
    ensures KeptChunks(sections[..i + 1], labels, ticker, fiscalYear, encode, decode)
         == KeptChunks(sections[..i], labels, ticker, fiscalYear, encode, decode)
            + (if sections[i].itemLabel in labels then SectionChunks(sections[i], ticker, fiscalYear, encode, decode) else [])
  {
    var x := sections[i];
    assert sections[..i + 1] == sections[..i] + [x];
    assert [x][1..] == [];
    KeptSectionsAppend(sections[..i], [x], labels);
    KeptChunksAppend(sections[..i], [x], labels, ticker, fiscalYear, encode, decode);
  }

  /** Filtering two lists of sections one after the other. */
  lemma {:induction false} KeptSectionsAppend(a: seq<Section>, b: seq<Section>, labels: set<string>)
    ensures KeptSections(a + b, labels) == KeptSections(a, labels) + KeptSections(b, labels)
  {
    if a != [] {
      var x, tail := a[0], a[1..];
      assert (a + b)[0] == x && (a + b)[1..] == tail + b;
      KeptSectionsAppend(tail, b, labels);
      var head := if x.itemLabel in labels then [RecordOf(x)] else [];
      Text.Assoc(head, KeptSections(tail, labels), KeptSections(b, labels));
    } else {
      assert a + b == b;
    }
  }

  /** The positions from `from` on whose sections are kept, in increasing order. */
  function KeptPositions(sections: seq<Section>, labels: set<string>, from: nat): seq<nat>
    decreases |sections| - from
  {
    if from >= |sections| then []
    else (if sections[from].itemLabel in labels then [from] else []) + KeptPositions(sections, labels, from + 1)
  }

  /** The kept positions lie in `from..|sections|` and increase: the kept records keep the input order. */
  lemma {:induction false} KeptPositionsIncrease(sections: seq<Section>, labels: set<string>, from: nat)
    ensures forall k :: 0 <= k < |KeptPositions(sections, labels, from)| ==>
      from <= KeptPositions(sections, labels, from)[k] < |sections|
    ensures forall k :: 0 <= k < |KeptPositions(sections, labels, from)| - 1 ==>
      KeptPositions(sections, labels, from)[k] < KeptPositions(sections, labels, from)[k + 1]
    decreases |sections| - from
  {
    if from < |sections| {
      KeptPositionsIncrease(sections, labels, from + 1);
      var head: seq<nat> := if sections[from].itemLabel in labels then [from] else [];
      var rest := KeptPositions(sections, labels, from + 1);
      var idx := KeptPositions(sections, labels, from);
      assert idx == head + rest;
      forall k | 0 <= k < |idx|
        ensures from <= idx[k] < |sections|
        ensures k < |idx| - 1 ==> idx[k] < idx[k + 1]
      {
        if k >= |head| {
          assert idx[k] == rest[k - |head|];
        }
        if k + 1 < |idx| {
          assert idx[k + 1] == rest[k + 1 - |head|];
        }
      }
    }
  }

  /** A position is kept exactly when its section's label is one of `labels`. */
  lemma {:induction false} KeptPositionsExact(sections: seq<Section>, labels: set<string>, from: nat, i: nat)
    requires from <= i < |sections|
    ensures sections[i].itemLabel in labels <==> i in KeptPositions(sections, labels, from)
    decreases |sections| - from
  {
    KeptPositionsIncrease(sections, labels, from + 1);
    var head: seq<nat> := if sections[from].itemLabel in labels then [from] else [];
    var rest := KeptPositions(sections, labels, from + 1);
    assert KeptPositions(sections, labels, from) == head + rest;
    assert from !in rest;
    if from < i {
      KeptPositionsExact(sections, labels, from + 1, i);
    }
  }

  /** Kept record `k` is the record of the section at the `k`-th kept position. */
  lemma {:induction false} KeptAtPositions(sections: seq<Section>, labels: set<string>, from: nat)
    requires from <= |sections|
    ensures |KeptPositions(sections, labels, from)| == |KeptSections(sections[from..], labels)|
    ensures forall k :: 0 <= k < |KeptPositions(sections, labels, from)| ==>
      KeptPositions(sections, labels, from)[k] < |sections| &&
      KeptSections(sections[from..], labels)[k] == RecordOf(sections[KeptPositions(sections, labels, from)[k]])
    decreases |sections| - from
  {
    KeptPositionsIncrease(sections, labels, from);
    if from < |sections| {
      KeptAtPositions(sections, labels, from + 1);
      var idx := KeptPositions(sections, labels, from);
      var idx' := KeptPositions(sections, labels, from + 1);
      var r := KeptSections(sections[from..], labels);
      var r' := KeptSections(sections[from + 1..], labels);
      assert sections[from..][1..] == sections[from + 1..];
      var d := if sections[from].itemLabel in labels then 1 else 0;
      assert |idx| == d + |idx'| && |r| == d + |r'|;
      forall k | d <= k < |idx|
        ensures r[k] == RecordOf(sections[idx[k]])
      {
        assert idx[k] == idx'[k - d] && r[k] == r'[k - d];
      }
    }
  }

  /** Each kept record has one of `labels`, and its length is that of its content. */
  lemma {:induction false} KeptAreRecords(sections: seq<Section>, labels: set<string>)
    ensures forall r :: r in KeptSections(sections, labels) ==>
      r.itemLabel in labels && r.contentLength == |r.content|
  {
    if sections != [] {
      KeptAreRecords(sections[1..], labels);
    }
  }

  /** Chunking the sections of two lists one after the other. */
  lemma {:induction false} KeptChunksAppend(a: seq<Section>, b: seq<Section>, labels: set<string>, ticker: string, fiscalYear: Option<int>,
                                            encode: string -> seq<Token>, decode: seq<Token> -> string)
    ensures KeptChunks(a + b, labels, ticker, fiscalYear, encode, decode)
         == KeptChunks(a, labels, ticker, fiscalYear, encode, decode) + KeptChunks(b, labels, ticker, fiscalYear, encode, decode)
  {
    if a != [] {
      var x, tail := a[0], a[1..];
      assert (a + b)[0] == x && (a + b)[1..] == tail + b;
      KeptChunksAppend(tail, b, labels, ticker, fiscalYear, encode, decode);
      var head := if x.itemLabel in labels then SectionChunks(x, ticker, fiscalYear, encode, decode) else [];
      Text.Assoc(head, KeptChunks(tail, labels, ticker, fiscalYear, encode, decode), KeptChunks(b, labels, ticker, fiscalYear, encode, decode));
    } else {
      assert a + b == b;
    }
  }

  /**
   * Every chunk to embed comes from a priority section of the document and
   * carries that section's id and label and the document's ticker and year.
   */
  lemma {:induction false} KeptChunksTagged(sections: seq<Section>, labels: set<string>, ticker: string, fiscalYear: Option<int>,
                                            encode: string -> seq<Token>, decode: seq<Token> -> string)
    ensures forall c :: c in KeptChunks(sections, labels, ticker, fiscalYear, encode, decode) ==>
      && c.ticker == ticker && c.fiscalYear == fiscalYear && c.itemLabel in labels
      && exists s :: s in sections && s.id == c.sectionId && s.itemLabel == c.itemLabel
  {
    if sections != [] {
      var s := sections[0];
      KeptChunksTagged(sections[1..], labels, ticker, fiscalYear, encode, decode);
      if s.itemLabel in labels {
        var tokens := encode(s.content);
        var tag := SectionTag(s.id, ticker, fiscalYear, s.itemLabel);
        ChunksFromAt(tokens, ChunkSize, ChunkOverlap, 0, 0, tag, decode);
        forall c | c in SectionChunks(s, ticker, fiscalYear, encode, decode)
          ensures c.ticker == ticker && c.fiscalYear == fiscalYear && c.itemLabel == s.itemLabel
          ensures c.sectionId == s.id
        {
        }
      }
      forall c | c in KeptChunks(sections[1..], labels, ticker, fiscalYear, encode, decode)
        ensures exists s :: s in sections && s.id == c.sectionId && s.itemLabel == c.itemLabel
      {
        var s' :| s' in sections[1..] && s'.id == c.sectionId && s'.itemLabel == c.itemLabel;
        assert s' in sections;
      }
    }
  }

  // ------------------------------------------------------------ SimFin data

  /** A JSON value of a SimFin data row. */
  datatype Value = Text(s: string) | Number(x: real) | Null

  type Row = map<string, Value>

  /** One statement of the SimFin response: its type (`PL`, `BS`, `CF`, `DERIVED`) and rows. */
  datatype RawStatement = RawStatement(statement: string, data: seq<Row>)

  /** The SimFin verbose response; an absent optional field is `None`. */
  datatype RawCompany = RawCompany(id: int, ticker: string, name: string, currency: Option<string>,
                                   isin: Option<string>, statements: Option<seq<RawStatement>>)

  datatype CompanyData = CompanyData(simfinId: int, ticker: string, name: string, currency: string, isin: Option<string>)

  /** The company record: the currency defaults to US dollars. */
  function CompanyOf(raw: RawCompany): (c: CompanyData)
    ensures c.ticker == raw.ticker && c.simfinId == raw.id && c.name == raw.name && c.isin == raw.isin
    ensures raw.currency.None? ==> c.currency == "USD"
    ensures raw.currency.Some? ==> c.currency == raw.currency.value
  {
    CompanyData(raw.id, raw.ticker, raw.name, match raw.currency case Some(cur) => cur case None => "USD", raw.isin)
  }

  /** The rows with the `ticker` field set, in order. */
  function Stamped(rows: seq<Row>, ticker: string): seq<Row>
  {
    if rows == [] then [] else Stamped(rows[..|rows| - 1], ticker) + [rows[|rows| - 1]["ticker" := Text(ticker)]]
  }

  /** Stamping keeps every row and every field but `ticker`, which it sets. */
  lemma {:induction false} StampedRows(rows: seq<Row>, ticker: string)
    ensures |Stamped(rows, ticker)| == |rows|
    ensures forall k :: 0 <= k < |rows| ==> Stamped(rows, ticker)[k] == rows[k]["ticker" := Text(ticker)]
  {
    if rows != [] {
      StampedRows(rows[..|rows| - 1], ticker);
    }
  }

  /** The statement list to walk: a missing one is empty. */
  function StatementList(raw: RawCompany): seq<RawStatement>
  {
    match raw.statements case Some(ss) => ss case None => []
  }

  /** One `(type, stamped rows)` pair per statement, in order. */
  function StatementPairs(ss: seq<RawStatement>, ticker: string): (ps: seq<(string, seq<Row>)>)
    ensures |ps| == |ss|
  {
    if ss == [] then []
    else StatementPairs(ss[..|ss| - 1], ticker) + [(ss[|ss| - 1].statement, Stamped(ss[|ss| - 1].data, ticker))]
  }

  /** The statements dictionary: each pair assigned in turn. */
  function Statements(raw: RawCompany): Dict<string, seq<Row>>
  {
    FromPairs(StatementPairs(StatementList(raw), raw.ticker))
  }

  /** `process_simfin_data`: the company record and the stamped statements by type. */
  method ProcessSimfinData(raw: RawCompany) returns (company: CompanyData, statements: Dict<string, seq<Row>>)
    ensures company == CompanyOf(raw)
    ensures statements == Statements(raw)
  {
    company := CompanyOf(raw);
    statements := Empty();
    var ss := StatementList(raw);
    for i := 0 to |ss|
      invariant statements == FromPairs(StatementPairs(ss[..i], company.ticker))
    {
      var records := StampRows(ss[i].data, company.ticker);
      StatementsStep(ss, company.ticker, i);
      statements := Put(statements, ss[i].statement, records);
    }
    assert ss[..|ss|] == ss;
  }

  /** The inner loop of `process_simfin_data`: every row of one statement gets the ticker. */
  method StampRows(rows: seq<Row>, ticker: string) returns (records: seq<Row>)
    ensures records == Stamped(rows, ticker)
  {
    records := [];
    for j := 0 to |rows|
      invariant records == Stamped(rows[..j], ticker)
    {
      assert rows[..j + 1][..j] == rows[..j];
      assert Stamped(rows[..j + 1], ticker) == Stamped(rows[..j], ticker) + [rows[j]["ticker" := Text(ticker)]];
      records := records + [rows[j]["ticker" := Text(ticker)]];
    }
    assert rows[..|rows|] == rows;
  }

  /** Assigning statement `i` extends the dictionary built from the statements before it. */
  lemma StatementsStep(ss: seq<RawStatement>, ticker: string, i: nat)
    requires i < |ss|
    ensures FromPairs(StatementPairs(ss[..i + 1], ticker))
         == Put(FromPairs(StatementPairs(ss[..i], ticker)), ss[i].statement, Stamped(ss[i].data, ticker))
  {
    assert ss[..i + 1][..i] == ss[..i];
    var ps := StatementPairs(ss[..i + 1], ticker);
    assert ps[..|ps| - 1] == StatementPairs(ss[..i], ticker);
  }

  /** Pair `k` is statement `k`'s type with its rows stamped. */
  lemma {:induction false} StatementPairsAt(ss: seq<RawStatement>, ticker: string, k: nat)
    requires k < |ss|
    ensures StatementPairs(ss, ticker)[k] == (ss[k].statement, Stamped(ss[k].data, ticker))
  {
    if k < |ss| - 1 {
      StatementPairsAt(ss[..|ss| - 1], ticker, k);
    }
  }

  /**
   * The statements dictionary holds exactly the statement types of the
   * response, and for each type the stamped rows of its last statement: a
   * later statement of the same type replaces an earlier one.
   */
  lemma StatementsLastWins(raw: RawCompany, i: nat)
    requires var ss := StatementList(raw);
      i < |ss| && forall j :: i < j < |ss| ==> ss[j].statement != ss[i].statement
    ensures var ss := StatementList(raw);
      && ss[i].statement in Statements(raw).values
      && Statements(raw).values[ss[i].statement] == Stamped(ss[i].data, raw.ticker)
  {
    var ss := StatementList(raw);
    var ps := StatementPairs(ss, raw.ticker);
    StatementPairsAt(ss, raw.ticker, i);
    forall j | i < j < |ps|
      ensures ps[j].0 != ps[i].0
    {
      StatementPairsAt(ss, raw.ticker, j);
    }
    FromPairsLast(ps, i);
  }

  /** A type is a key of the dictionary exactly when some statement has it. */
  lemma StatementsKeys(raw: RawCompany, t: string)
    ensures t in Statements(raw).values <==> exists i :: 0 <= i < |StatementList(raw)| && StatementList(raw)[i].statement == t
  {
    var ss := StatementList(raw);
    var ps := StatementPairs(ss, raw.ticker);
    var ks := Fsts(ps);
    assert t in Statements(raw).values <==> t in ks;
    if t in ks {
      var i :| 0 <= i < |ks| && ks[i] == t;
      StatementPairsAt(ss, raw.ticker, i);
      assert ss[i].statement == t;
    } else {
      forall i | 0 <= i < |ss|
        ensures ss[i].statement != t
      {
        StatementPairsAt(ss, raw.ticker, i);
        assert ks[i] == ss[i].statement;
      }
    }
  }
}
