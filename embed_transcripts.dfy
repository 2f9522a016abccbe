// Chunking, batch embedding and storage of earnings-call transcripts
// (etl/embed_transcripts.py). The embedding service is an oracle that either
// answers a batch or fails; the database write either commits or not.

module EmbedTranscripts {
  import opened Wrappers
  import opened Text

  datatype Paragraph = Paragraph(speaker: string, content: string)

  /** One stored unit: the joined paragraph lines, the chunk's main speaker and how many paragraphs it holds. */
  datatype TranscriptChunk = TranscriptChunk(text: string, speaker: string, paragraphCount: nat)

  const DefaultTargetChunks: int := 30
  const DefaultBatchSize: int := 100

  // ---------------------------------------------------------------- chunking

  /** `"[speaker]: content"` */
  function ParagraphLine(p: Paragraph): string
  {
    "[" + p.speaker + "]: " + p.content
  }

  function Lines(ps: seq<Paragraph>): (r: seq<string>)
    ensures |r| == |ps|
  {
    if ps == [] then [] else Lines(ps[..|ps| - 1]) + [ParagraphLine(ps[|ps| - 1])]
  }

  /** Line `k` of a chunk is paragraph `k`, in the original order. */
  lemma {:induction false} LinesInOrder(ps: seq<Paragraph>)
    ensures forall k :: 0 <= k < |ps| ==> Lines(ps)[k] == ParagraphLine(ps[k])
  {
    if ps != [] {
      LinesInOrder(ps[..|ps| - 1]);
    }
  }

  function Speakers(ps: seq<Paragraph>): (r: seq<string>)
    ensures |r| == |ps|
  {
    if ps == [] then [] else Speakers(ps[..|ps| - 1]) + [ps[|ps| - 1].speaker]
  }

  /** `xs.count(x)` */
  function Count(xs: seq<string>, x: string): nat
  {
    if xs == [] then 0 else (if xs[0] == x then 1 else 0) + Count(xs[1..], x)
  }

  /**
   * The candidate of `cs` that occurs most often in `xs`; among equals the
   * earliest in `cs`.
   */
  function Pick(xs: seq<string>, cs: seq<string>): string
    requires cs != []
  {
    if |cs| == 1 then cs[0]
    else
      var rest := Pick(xs, cs[1..]);
      if Count(xs, cs[0]) >= Count(xs, rest) then cs[0] else rest
  }

  /** The pick is a candidate, and no candidate occurs more often in `xs`. */
  lemma {:induction false} PickIsMax(xs: seq<string>, cs: seq<string>)
    requires cs != []
    ensures Pick(xs, cs) in cs
    ensures forall c :: c in cs ==> Count(xs, c) <= Count(xs, Pick(xs, cs))
  {
    if |cs| > 1 {
      PickIsMax(xs, cs[1..]);
      assert forall c :: c in cs ==> c == cs[0] || c in cs[1..];
    }
  }

  /** `max(set(xs), key=xs.count)`; a chunk is never empty, so the empty case is not reached. */
  function MostFrequent(xs: seq<string>): string
  {
    if xs == [] then "" else Pick(xs, xs)
  }

  /** The primary speaker is a value of `xs` that no other value outnumbers. */
  lemma MostFrequentIsMode(xs: seq<string>)
    requires xs != []
    ensures MostFrequent(xs) in xs
    ensures forall x :: x in xs ==> Count(xs, x) <= Count(xs, MostFrequent(xs))
  {
    PickIsMax(xs, xs);
  }

  /** The chunk for one group of consecutive paragraphs. */
  function ChunkOf(group: seq<Paragraph>): TranscriptChunk
  {
    MakeChunk(Lines(group), Speakers(group))
  }

  /** A chunk from its lines and their speakers. */
  function MakeChunk(lines: seq<string>, speakers: seq<string>): TranscriptChunk
  {
    TranscriptChunk(Join("\n\n", lines), MostFrequent(speakers), |lines|)
  }

  /** `max(1, n // target_chunks)`; a negative target floors to a non-positive quotient. */
  function PerChunk(n: nat, targetChunks: int): (size: nat)
    requires targetChunks != 0
    ensures size >= 1
    ensures targetChunks > 0 && n >= targetChunks ==> size == n / targetChunks
  {
    if targetChunks > 0 && n / targetChunks > 1 then n / targetChunks else 1
  }

  /**
   * The chunks of `ps[from..]`: every `size` paragraphs close a chunk, and
   * the paragraphs left at the end close the last one.
   */
  function Chunked(ps: seq<Paragraph>, size: nat, from: nat, f: seq<Paragraph> -> TranscriptChunk): seq<TranscriptChunk>
    requires size >= 1 && from <= |ps|
    decreases |ps| - from
  {
    if from == |ps| then []
    else [f(ps[from..Min(from + size, |ps|)])] + Chunked(ps, size, Min(from + size, |ps|), f)
  }

  /** What `smart_chunk_transcript` returns. */
  function SmartChunks(ps: seq<Paragraph>, targetChunks: int): seq<TranscriptChunk>
    requires targetChunks != 0
  {
    if ps == [] then [] else Chunked(ps, PerChunk(|ps|, targetChunks), 0, ChunkOf)
  }

  /** `smart_chunk_transcript`: one pass, closing a chunk when it is full or the paragraphs end. */
  method SmartChunkTranscript(ps: seq<Paragraph>, targetChunks: int) returns (chunks: seq<TranscriptChunk>)
    requires targetChunks != 0
    ensures chunks == SmartChunks(ps, targetChunks)
  {
    if ps == [] {
      return [];
    }
    chunks := ChunkEvery(ps, PerChunk(|ps|, targetChunks));
  }

  /** The loop of `smart_chunk_transcript`, for a fixed number of paragraphs per chunk. */
  method ChunkEvery(ps: seq<Paragraph>, size: nat) returns (chunks: seq<TranscriptChunk>)
    requires size >= 1
    ensures chunks == Chunked(ps, size, 0, ChunkOf)
  {
    chunks := [];
    var currentChunk: seq<string> := [];
    var currentSpeakers: seq<string> := [];
    ghost var start := 0;
    assert ps[0..0] == [];
    for i := 0 to |ps|
      invariant ChunkLoop(ps, size, i, start, chunks, currentChunk, currentSpeakers)
    {
      ghost var closes := |currentChunk| + 1 >= size || i == |ps| - 1;
      LoopStep(ps, size, i, start, chunks, currentChunk, currentSpeakers);
      currentChunk := currentChunk + [ParagraphLine(ps[i])];
      currentSpeakers := currentSpeakers + [ps[i].speaker];
      if |currentChunk| >= size || i == |ps| - 1 {
        var chunk := MakeChunk(currentChunk, currentSpeakers);
        chunks := chunks + [chunk];
        currentChunk := [];
        currentSpeakers := [];
        start := i + 1;
      }
    }
    LoopDone(ps, size, start, chunks, currentChunk, currentSpeakers);
  }

  /**
   * The state of the loop after `i` paragraphs: the open chunk holds the
   * lines and speakers of `ps[start..i]`, and the closed chunks followed by
   * those still to come are all the chunks.
   */
  ghost predicate ChunkLoop(ps: seq<Paragraph>, size: nat, i: int, start: int, chunks: seq<TranscriptChunk>,
                            lines: seq<string>, speakers: seq<string>)
  {
    && size >= 1 && 0 <= start <= i <= |ps| && i - start < size
    && lines == Lines(ps[start..i]) && speakers == Speakers(ps[start..i])
    && Chunked(ps, size, 0, ChunkOf) == chunks + Chunked(ps, size, start, ChunkOf)
    && (i == |ps| ==> start == |ps|)
  }

  /** One turn of the loop keeps its state. */
  lemma LoopStep(ps: seq<Paragraph>, size: nat, i: int, start: int, chunks: seq<TranscriptChunk>,
                 lines: seq<string>, speakers: seq<string>)
    requires ChunkLoop(ps, size, i, start, chunks, lines, speakers) && i < |ps|
    ensures var lines' := lines + [ParagraphLine(ps[i])];
      var speakers' := speakers + [ps[i].speaker];
      if |lines'| >= size || i == |ps| - 1
      then ChunkLoop(ps, size, i + 1, i + 1, chunks + [MakeChunk(lines', speakers')], [], [])
      else ChunkLoop(ps, size, i + 1, start, chunks, lines', speakers')
  {
    var lines' := lines + [ParagraphLine(ps[i])];
    var speakers' := speakers + [ps[i].speaker];
    LinesSnoc(ps, start, i);
    if |lines'| >= size || i == |ps| - 1 {
      ChunkOfLines(ps[start..i + 1], lines', speakers');
      CloseChunk(ps, size, start, i + 1, chunks, MakeChunk(lines', speakers'));
      assert ps[i + 1..i + 1] == [];
    }
  }

  /** When the paragraphs run out, every chunk is closed. */
  lemma LoopDone(ps: seq<Paragraph>, size: nat, start: int, chunks: seq<TranscriptChunk>,
                 lines: seq<string>, speakers: seq<string>)
    requires ChunkLoop(ps, size, |ps|, start, chunks, lines, speakers)
    ensures chunks == Chunked(ps, size, 0, ChunkOf)
  {
  }

  /** The chunk made from a group's lines and speakers is the group's chunk. */
  lemma ChunkOfLines(g: seq<Paragraph>, lines: seq<string>, speakers: seq<string>)
    requires lines == Lines(g) && speakers == Speakers(g)
    ensures ChunkOf(g) == MakeChunk(lines, speakers)
  {
  }

  lemma LinesSnoc(ps: seq<Paragraph>, start: nat, i: nat)
    requires start <= i < |ps|
    ensures Lines(ps[start..i + 1]) == Lines(ps[start..i]) + [ParagraphLine(ps[i])]
    ensures Speakers(ps[start..i + 1]) == Speakers(ps[start..i]) + [ps[i].speaker]
  {
    assert ps[start..i + 1][..i - start] == ps[start..i];
  }

  /** Appending the chunk of `ps[start..end]` to those before `start` gives those before `end`. */
  lemma CloseChunk(ps: seq<Paragraph>, size: nat, start: nat, end: nat, chunks: seq<TranscriptChunk>, chunk: TranscriptChunk)
    requires size >= 1 && start < end <= |ps| && end - start <= size
    requires end - start == size || end == |ps|
    requires Chunked(ps, size, 0, ChunkOf) == chunks + Chunked(ps, size, start, ChunkOf)
    requires chunk == ChunkOf(ps[start..end])
    ensures Chunked(ps, size, 0, ChunkOf) == (chunks + [chunk]) + Chunked(ps, size, end, ChunkOf)
  {
    ChunkedStep(ps, size, start, end);
    Assoc(chunks, [chunk], Chunked(ps, size, end, ChunkOf));
  }

  /** Closing the chunk `ps[start..end]` takes it off the front of what remains. */
  lemma ChunkedStep(ps: seq<Paragraph>, size: nat, start: nat, end: nat)
    requires size >= 1 && start < end <= |ps| && end - start <= size
    requires end - start == size || end == |ps|
    ensures Chunked(ps, size, start, ChunkOf) == [ChunkOf(ps[start..end])] + Chunked(ps, size, end, ChunkOf)
  {
    assert Min(start + size, |ps|) == end;
  }

  /** Sum of the `paragraph_count` fields. */
  function ParagraphTotal(cs: seq<TranscriptChunk>): nat
  {
    if cs == [] then 0 else cs[0].paragraphCount + ParagraphTotal(cs[1..])
  }

  /** A chunk counts the paragraphs it was made from. */
  lemma ChunkCounts()
    ensures forall g :: ChunkOf(g).paragraphCount == |g|
  {
  }

  /** How many windows of `size` cover `n` items. */
  function Windows(n: nat, size: nat): nat
    requires size >= 1
  {
    if n == 0 then 0 else if n <= size then 1 else 1 + Windows(n - size, size)
  }

  /** `ceil(n / size)` windows: the last one starts before `n` and reaches it. */
  lemma {:induction false} WindowsCeil(n: nat, size: nat)
    requires size >= 1
    ensures (Windows(n, size) - 1) * size < n <= Windows(n, size) * size || n == 0
    ensures n == 0 <==> Windows(n, size) == 0
  {
    if n > size {
      var w := Windows(n - size, size);
      WindowsCeil(n - size, size);
      assert (w + 1) * size == w * size + size;
    }
  }

  /** There is one chunk per window of `ps[from..]`. */
  lemma {:induction false} ChunkedCount(ps: seq<Paragraph>, size: nat, from: nat, f: seq<Paragraph> -> TranscriptChunk)
    requires size >= 1 && from <= |ps|
    ensures |Chunked(ps, size, from, f)| == Windows(|ps| - from, size)
    decreases |ps| - from
  {
    if from < |ps| && |ps| - from > size {
      ChunkedCount(ps, size, from + size, f);
    }
  }

  /**
   * Chunk `k` of `ps[from..]` is made from the `k`-th window of `size`
   * consecutive paragraphs, cut short by the end of the transcript.
   */
  lemma {:induction false} ChunkedAt(ps: seq<Paragraph>, size: nat, from: nat, f: seq<Paragraph> -> TranscriptChunk, k: nat)
    requires size >= 1 && from <= |ps|
    requires k < |Chunked(ps, size, from, f)|
    ensures from + k * size < |ps|
    ensures Chunked(ps, size, from, f)[k] == f(ps[from + k * size .. Min(from + k * size + size, |ps|)])
    decreases |ps| - from
  {
    if k > 0 {
      ShiftWindow(from, size, k);
      ChunkedAt(ps, size, from + size, f, k - 1);
    }
  }

  /** Window `k` from `from` is window `k - 1` from `from + size`. */
  lemma ShiftWindow(from: nat, size: nat, k: nat)
    requires k > 0
    ensures from + k * size == (from + size) + (k - 1) * size
  {
  }

  /** When each chunk counts its paragraphs: all chunks but the last are full, and the last is not empty. */
  lemma {:induction false} ChunkedSizes(ps: seq<Paragraph>, size: nat, from: nat, f: seq<Paragraph> -> TranscriptChunk)
    requires size >= 1 && from <= |ps|
    requires forall g :: f(g).paragraphCount == |g|
    ensures FullChunks(Chunked(ps, size, from, f), size)
    decreases |ps| - from
  {
    if from < |ps| && |ps| - from > size {
      var tail := Chunked(ps, size, from + size, f);
      ChunkedSizes(ps, size, from + size, f);
      assert Chunked(ps, size, from, f) == [f(ps[from..from + size])] + tail;
      FullChunksCons(f(ps[from..from + size]), tail, size);
    } else if from < |ps| {
      assert Min(from + size, |ps|) == |ps|;
      assert Chunked(ps, size, from, f) == [f(ps[from..|ps|])];
    }
  }

  /** All chunks but the last hold `size` paragraphs, and the last holds between one and `size`. */
  predicate FullChunks(cs: seq<TranscriptChunk>, size: nat)
  {
    && (forall k :: 0 <= k < |cs| - 1 ==> cs[k].paragraphCount == size)
    && (cs != [] ==> 1 <= cs[|cs| - 1].paragraphCount <= size)
  }

  lemma FullChunksCons(c: TranscriptChunk, tail: seq<TranscriptChunk>, size: nat)
    requires c.paragraphCount == size && tail != [] && FullChunks(tail, size)
    ensures FullChunks([c] + tail, size)
  {
    var cs := [c] + tail;
    forall k | 1 <= k < |cs|
      ensures cs[k] == tail[k - 1]
    {
    }
  }

  /** When each chunk counts its paragraphs, the counts add up to the paragraphs chunked. */
  lemma {:induction false} ChunkedTotal(ps: seq<Paragraph>, size: nat, from: nat, f: seq<Paragraph> -> TranscriptChunk)
    requires size >= 1 && from <= |ps|
    requires forall g :: f(g).paragraphCount == |g|
    ensures ParagraphTotal(Chunked(ps, size, from, f)) == |ps| - from
    decreases |ps| - from
  {
    if from < |ps| && |ps| - from > size {
      var cs := Chunked(ps, size, from, f);
      var tail := Chunked(ps, size, from + size, f);
      ChunkedTotal(ps, size, from + size, f);
      assert cs[1..] == tail;
    }
  }

  /**
   * The shape of a chunked transcript: no chunks exactly when there are no
   * paragraphs, `ceil(n / size)` of them otherwise, all but the last holding
   * `size` paragraphs, and every paragraph counted once.
   */
  lemma SmartChunksShape(ps: seq<Paragraph>, targetChunks: int)
    requires targetChunks != 0
    ensures var cs := SmartChunks(ps, targetChunks);
      var size := PerChunk(|ps|, targetChunks);
      && (ps == [] <==> cs == [])
      && |cs| == Windows(|ps|, size)
      && ParagraphTotal(cs) == |ps|
      && FullChunks(cs, size)
  {
    if ps != [] {
      var size := PerChunk(|ps|, targetChunks);
      ChunkCounts();
      ChunkedCount(ps, size, 0, ChunkOf);
      ChunkedSizes(ps, size, 0, ChunkOf);
      ChunkedTotal(ps, size, 0, ChunkOf);
      WindowsCeil(|ps|, size);
    }
  }

  /** Chunk `k` of a transcript holds paragraphs `k * size` up to the next window, in order. */
  lemma SmartChunksAt(ps: seq<Paragraph>, targetChunks: int, k: nat)
    requires targetChunks != 0 && k < |SmartChunks(ps, targetChunks)|
    ensures WindowChunk(ps, PerChunk(|ps|, targetChunks), k, SmartChunks(ps, targetChunks)[k])
  {
    var size := PerChunk(|ps|, targetChunks);
    assert SmartChunks(ps, targetChunks) == Chunked(ps, size, 0, ChunkOf);
    ChunkedFromStart(ps, size, k);
  }

  /** `c` is the chunk of window `k`: paragraphs `k * size` up to the next window or the end. */
  predicate WindowChunk(ps: seq<Paragraph>, size: nat, k: nat, c: TranscriptChunk)
  {
    k * size < |ps| && c == ChunkOf(ps[k * size .. Min(k * size + size, |ps|)])
  }

  /** `ChunkedAt` for the chunks of the whole list. */
  lemma ChunkedFromStart(ps: seq<Paragraph>, size: nat, k: nat)
    requires size >= 1 && k < |Chunked(ps, size, 0, ChunkOf)|
    ensures WindowChunk(ps, size, k, Chunked(ps, size, 0, ChunkOf)[k])
  {
    ChunkedAt(ps, size, 0, ChunkOf, k);
  }

  /** With the default target of 30, a hundred paragraphs make 34 chunks, more than the target. */
  lemma HundredParagraphs(ps: seq<Paragraph>)
    requires |ps| == 100
    ensures |SmartChunks(ps, DefaultTargetChunks)| == 34
  {
    assert PerChunk(100, 30) == 3;
    ChunkedCount(ps, 3, 0, ChunkOf);
    WindowsCeil(100, 3);
  }

  // ---------------------------------------------------------------- embeddings

  type Embedding = seq<real>

  /** The embedding service: the vectors for a batch, or nothing when the call fails. */
  type EmbedService = seq<string> -> Option<seq<Embedding>>

  /** What one batch contributes: the returned vectors, or one `None` per text on failure. */
  function BatchResult(embed: EmbedService, batch: seq<string>): seq<Option<Embedding>>
  {
    match embed(batch)
    case Some(vs) => seq(|vs|, k requires 0 <= k < |vs| => Some(vs[k]))
    case None => seq(|batch|, _ => None)
  }

  /** Consecutive batches of `batchSize` texts, the last possibly shorter. */
  function Embedded(embed: EmbedService, texts: seq<string>, batchSize: nat): seq<Option<Embedding>>
    requires batchSize >= 1
    decreases |texts|
  {
    if texts == [] then []
    else if |texts| <= batchSize then BatchResult(embed, texts)
    else BatchResult(embed, texts[..batchSize]) + Embedded(embed, texts[batchSize..], batchSize)
  }

  /** What `generate_embeddings_batch` returns; a negative step makes `range` empty. */
  function Embeddings(embed: EmbedService, texts: seq<string>, batchSize: int): seq<Option<Embedding>>
    requires batchSize != 0
  {
    if batchSize < 0 then [] else Embedded(embed, texts, batchSize)
  }

  /** `generate_embeddings_batch` */
  method GenerateEmbeddingsBatch(embed: EmbedService, texts: seq<string>, batchSize: int)
    returns (all: seq<Option<Embedding>>)
    requires batchSize != 0
    ensures all == Embeddings(embed, texts, batchSize)
  {
    all := [];
    if batchSize < 0 {
      return;
    }
    var i := 0;
    while i < |texts|
      invariant 0 <= i <= |texts|
      invariant Embedded(embed, texts, batchSize) == all + Embedded(embed, texts[i..], batchSize)
      decreases |texts| - i
    {
      var rest := texts[i..];
      var hi := if i + batchSize <= |texts| then i + batchSize else |texts|;
      var batch := texts[i..hi];
      if |rest| <= batchSize {
        assert rest == batch;
      } else {
        assert rest[..batchSize] == batch;
        assert rest[batchSize..] == texts[hi..];
      }
      all := all + BatchResult(embed, batch);
      i := hi;
    }
    assert texts[i..] == [];
  }

  /** The service answers every batch with one vector per text. */
  ghost predicate OnePerText(embed: EmbedService)
  {
    forall b :: embed(b).Some? ==> |embed(b).value| == |b|
  }

  /**
   * One entry per text when the service keeps to its side; a failed batch
   * always gives exactly one `None` per text in it.
   */
  lemma {:induction false} EmbeddedLength(embed: EmbedService, texts: seq<string>, batchSize: nat)
    requires batchSize >= 1 && OnePerText(embed)
    ensures |Embedded(embed, texts, batchSize)| == |texts|
    decreases |texts|
  {
    if |texts| > batchSize {
      EmbeddedLength(embed, texts[batchSize..], batchSize);
    }
  }

  /** A batch the service refuses leaves one hole per text, at that batch's positions. */
  lemma FailedBatchHoles(embed: EmbedService, batch: seq<string>, k: int)
    requires embed(batch).None? && 0 <= k < |batch|
    ensures |BatchResult(embed, batch)| == |batch| && BatchResult(embed, batch)[k].None?
  {
  }

  // ---------------------------------------------------------------- storage

  /** The `(ticker, chunk_index)` key of `transcript_chunks`. */
  datatype ChunkKey = ChunkKey(ticker: string, chunkIndex: int)

  datatype StoredChunk = StoredChunk(fiscalYear: int, fiscalQuarter: int, text: string, speaker: string, embedding: Embedding)

  /** The rows after upserting the first `n` pairs of `zip(chunks, embeddings)`, skipping missing vectors. */
  function Upserted(rows: map<ChunkKey, StoredChunk>, ticker: string, fiscalYear: int, fiscalQuarter: int,
                    chunks: seq<TranscriptChunk>, embeddings: seq<Option<Embedding>>, n: nat): map<ChunkKey, StoredChunk>
    requires n <= |chunks| && n <= |embeddings|
  {
    if n == 0 then rows
    else
      var before := Upserted(rows, ticker, fiscalYear, fiscalQuarter, chunks, embeddings, n - 1);
      var c := chunks[n - 1];
      match embeddings[n - 1]
      case None => before
      case Some(v) => before[ChunkKey(ticker, n - 1) := StoredChunk(fiscalYear, fiscalQuarter, c.text, c.speaker, v)]
  }

  function Min(a: nat, b: nat): nat { if a <= b then a else b }

  /** The `transcript_chunks` table. */
  class ChunkTable {
    var rows: map<ChunkKey, StoredChunk>

    constructor()
      ensures rows == map[]
    {
      rows := map[];
    }

    /**
     * `save_chunks_to_db`: upserts each chunk that has a vector under its
     * position in the list; everything is committed together, or nothing when
     * the database fails.
     */
    method SaveChunks(ticker: string, fiscalYear: int, fiscalQuarter: int,
                      chunks: seq<TranscriptChunk>, embeddings: seq<Option<Embedding>>, available: bool)
      modifies this
      ensures rows == if available
                      then Upserted(old(rows), ticker, fiscalYear, fiscalQuarter, chunks, embeddings, Min(|chunks|, |embeddings|))
                      else old(rows)
    {
      if !available {
        return;
      }
      var n := Min(|chunks|, |embeddings|);
      for i := 0 to n
        invariant rows == Upserted(old(rows), ticker, fiscalYear, fiscalQuarter, chunks, embeddings, i)
      {
        if embeddings[i].None? {
          continue;
        }
        var chunk := chunks[i];
        rows := rows[ChunkKey(ticker, i) := StoredChunk(fiscalYear, fiscalQuarter, chunk.text, chunk.speaker, embeddings[i].value)];
      }
    }
  }

  /**
   * After saving, position `i` of the list is stored under index `i` exactly
   * when it has a vector; every other row is as before.
   */
  lemma {:induction false} UpsertedRows(rows: map<ChunkKey, StoredChunk>, ticker: string, fiscalYear: int, fiscalQuarter: int,
                                        chunks: seq<TranscriptChunk>, embeddings: seq<Option<Embedding>>, n: nat)
    requires n <= |chunks| && n <= |embeddings|
    ensures var r := Upserted(rows, ticker, fiscalYear, fiscalQuarter, chunks, embeddings, n);
      && (forall i :: 0 <= i < n && embeddings[i].Some? ==>
            ChunkKey(ticker, i) in r &&
            r[ChunkKey(ticker, i)] == StoredChunk(fiscalYear, fiscalQuarter, chunks[i].text, chunks[i].speaker, embeddings[i].value))
      && (forall key :: key in rows && !Saved(ticker, embeddings, n, key) ==> key in r && r[key] == rows[key])
      && (forall key :: key in r ==> key in rows || Saved(ticker, embeddings, n, key))
  {
    if n > 0 {
      UpsertedRows(rows, ticker, fiscalYear, fiscalQuarter, chunks, embeddings, n - 1);
      var prev := Upserted(rows, ticker, fiscalYear, fiscalQuarter, chunks, embeddings, n - 1);
      var r := Upserted(rows, ticker, fiscalYear, fiscalQuarter, chunks, embeddings, n);
      if embeddings[n - 1].Some? {
        var c := chunks[n - 1];
        var k := ChunkKey(ticker, n - 1);
        assert r == prev[k := StoredChunk(fiscalYear, fiscalQuarter, c.text, c.speaker, embeddings[n - 1].value)];
        forall key | key in rows && !Saved(ticker, embeddings, n, key)
          ensures key in r && r[key] == rows[key]
        {
          assert key != k && !Saved(ticker, embeddings, n - 1, key);
        }
        forall key | key in r
          ensures key in rows || Saved(ticker, embeddings, n, key)
        {
          if key != k {
            assert key in prev;
          }
        }
      } else {
        assert r == prev;
        forall key | key in rows && !Saved(ticker, embeddings, n, key)
          ensures !Saved(ticker, embeddings, n - 1, key)
        {
        }
      }
    }
  }

  /** The row under `key` is one the first `n` chunks write: this ticker, an index below `n`, a vector. */
  predicate Saved(ticker: string, embeddings: seq<Option<Embedding>>, n: nat, key: ChunkKey)
    requires n <= |embeddings|
  {
    key.ticker == ticker && 0 <= key.chunkIndex < n && embeddings[key.chunkIndex].Some?
  }
}
