/**
 * Retrieval over the two vector pools, 10-K sections and earnings-call
 * transcripts: per-pool threshold filtering, single- versus multi-company
 * dispatch, tagging each result with its source, and the merge that sorts
 * by similarity (stable, descending) and keeps the first `2 * top_k`.
 *
 * Embedding the query and running the pgvector query are one oracle per
 * search: given the ticker filter and the limit it returns the rows in
 * database order (nearest first), or `None` when either step raised.
 * Similarity is a scaled integer (ten-thousandths: 0.58 is 5800).
 */
module VectorSearcher {
  import opened Wrappers
  import opened Text

  /** A row of the broad 10-K query. */
  datatype TenKRow = TenKRow(ticker: string, fiscalYear: Option<int>, itemLabel: string, chunkText: string,
                             chunkIndex: int, itemDescription: string, similarity: int, companyName: string)

  /** A row of the company-scoped 10-K query: it selects no ticker and no fiscal year. */
  datatype CompanyTenKRow = CompanyTenKRow(itemLabel: string, chunkText: string, itemDescription: string,
                                           similarity: int, companyName: string)

  /** A row of either transcript query; `speaker` may be NULL. */
  datatype TranscriptRow = TranscriptRow(ticker: string, fiscalYear: int, fiscalQuarter: int, chunkText: string,
                                         speaker: Option<string>, similarity: int, companyName: string)

  /**
   * A result dictionary. A `None` field is a key the dictionary does not
   * have (or, for `speaker`, a NULL value); `fiscalYear` tells a missing key
   * from a NULL column.
   */
  datatype Chunk = Chunk(
    ticker: string, companyName: string, fiscalYear: Field<int>, fiscalQuarter: Option<int>,
    itemLabel: Option<string>, chunkText: string, chunkIndex: Option<int>, itemDescription: Option<string>,
    speaker: Option<string>, similarity: int, sourceType: Option<Source>, sourcePeriod: Option<Period>)

  /** The `source_type` tag, and the text it is written as. */
  datatype Source = TenKFiling | EarningCall

  function SourceName(s: Source): string
  {
    match s
    case TenKFiling => "10-K Filing"
    case EarningCall => "Earning Call"
  }

  /**
   * The `source_period` tag: "FY <year>" for a 10-K result ("FY N/A" when
   * it has no `fiscal_year` key, "FY None" when the column is NULL) and
   * "Q<quarter> <year>" for a call.
   */
  datatype Period = FiscalYear(year: Field<int>) | Quarter(quarter: int, fy: int)

  function PeriodText(p: Period): string
  {
    match p
    case FiscalYear(y) => "FY " + (match y case Present(n) => IntToString(n) case Null => "None" case Missing => "N/A")
    case Quarter(q, y) => "Q" + IntToString(q) + " " + IntToString(y)
  }

  /** The four searches, each with the query already bound. */
  datatype Backend = Backend(
    tenK: (Option<seq<string>>, int) -> Option<seq<TenKRow>>,
    tenKByCompany: (string, int) -> Option<seq<CompanyTenKRow>>,
    transcripts: (Option<seq<string>>, int) -> Option<seq<TranscriptRow>>,
    transcriptsByCompany: (string, int) -> Option<seq<TranscriptRow>>)

  const DefaultThreshold := 5800
  const TenKThreshold := 4500
  const TranscriptThreshold := 5500

  // ---------------------------------------------------------------- rows to results

  function TenKChunk(r: TenKRow): Chunk
  {
    var year := match r.fiscalYear case Some(y) => Present(y) case None => Null;
    Chunk(r.ticker, r.companyName, year, None, Some(r.itemLabel), r.chunkText,
          Some(r.chunkIndex), Some(r.itemDescription), None, r.similarity, None, None)
  }

  /** Company-scoped rows carry the ticker that was asked for, and no fiscal year. */
  function CompanyChunk(ticker: string, r: CompanyTenKRow): Chunk
  {
    Chunk(ticker, r.companyName, Missing, None, Some(r.itemLabel), r.chunkText,
          None, Some(r.itemDescription), None, r.similarity, None, None)
  }

  function TranscriptChunk(r: TranscriptRow): Chunk
  {
    Chunk(r.ticker, r.companyName, Present(r.fiscalYear), Some(r.fiscalQuarter), None, r.chunkText,
          None, None, r.speaker, r.similarity, Some(EarningCall), Some(Quarter(r.fiscalQuarter, r.fiscalYear)))
  }

  function TenKChunks(rows: seq<TenKRow>): (cs: seq<Chunk>)
    ensures |cs| == |rows| && forall i :: 0 <= i < |rows| ==> cs[i] == TenKChunk(rows[i])
  {
    if rows == [] then [] else TenKChunks(rows[..|rows| - 1]) + [TenKChunk(rows[|rows| - 1])]
  }

  function CompanyChunks(ticker: string, rows: seq<CompanyTenKRow>): (cs: seq<Chunk>)
    ensures |cs| == |rows| && forall i :: 0 <= i < |rows| ==> cs[i] == CompanyChunk(ticker, rows[i])
  {
    if rows == [] then [] else CompanyChunks(ticker, rows[..|rows| - 1]) + [CompanyChunk(ticker, rows[|rows| - 1])]
  }

  function TranscriptChunks(rows: seq<TranscriptRow>): (cs: seq<Chunk>)
    ensures |cs| == |rows| && forall i :: 0 <= i < |rows| ==> cs[i] == TranscriptChunk(rows[i])
  {
    if rows == [] then [] else TranscriptChunks(rows[..|rows| - 1]) + [TranscriptChunk(rows[|rows| - 1])]
  }

  lemma TenKChunksStep(rows: seq<TenKRow>, i: nat)
    requires i < |rows|
    ensures TenKChunks(rows[..i + 1]) == TenKChunks(rows[..i]) + [TenKChunk(rows[i])]
  {
    assert rows[..i + 1][..i] == rows[..i];
  }

  lemma TranscriptChunksStep(rows: seq<TranscriptRow>, i: nat)
    requires i < |rows|
    ensures TranscriptChunks(rows[..i + 1]) == TranscriptChunks(rows[..i]) + [TranscriptChunk(rows[i])]
  {
    assert rows[..i + 1][..i] == rows[..i];
  }

  // ---------------------------------------------------------------- threshold filter

  /** The results at or above the threshold, in their original order. */
  function Passing(cs: seq<Chunk>, threshold: int): (r: seq<Chunk>)
    ensures |r| <= |cs|
  {
    if cs == [] then []
    else
      var last := cs[|cs| - 1];
      Passing(cs[..|cs| - 1], threshold) + (if last.similarity >= threshold then [last] else [])
  }

  /** A result is kept exactly when it reaches the threshold; nothing is added. */
  lemma {:induction false} PassingMembers(cs: seq<Chunk>, threshold: int)
    ensures forall x :: x in Passing(cs, threshold) <==> x in cs && x.similarity >= threshold
    decreases |cs|
  {
    if cs != [] {
      var init, last := cs[..|cs| - 1], cs[|cs| - 1];
      PassingMembers(init, threshold);
      assert cs == init + [last];
    }
  }

  /** Filtering keeps database order: it distributes over concatenation. */
  lemma {:induction false} PassingAppend(xs: seq<Chunk>, ys: seq<Chunk>, threshold: int)
    ensures Passing(xs + ys, threshold) == Passing(xs, threshold) + Passing(ys, threshold)
    decreases |ys|
  {
    if ys == [] {
      assert xs + ys == xs;
    } else {
      var init, last := ys[..|ys| - 1], ys[|ys| - 1];
      assert ys == init + [last];
      assert xs + ys == (xs + init) + [last];
      PassingSnoc(xs + init, last, threshold);
      PassingSnoc(init, last, threshold);
      PassingAppend(xs, init, threshold);
      var a, b, c := Passing(xs, threshold), Passing(init, threshold), if last.similarity >= threshold then [last] else [];
      assert a + (b + c) == (a + b) + c;
    }
  }

  /** One more result is kept at the end exactly when it reaches the threshold. */
  lemma PassingSnoc(cs: seq<Chunk>, c: Chunk, threshold: int)
    ensures Passing(cs + [c], threshold) == Passing(cs, threshold) + (if c.similarity >= threshold then [c] else [])
  {
    assert (cs + [c])[..|cs|] == cs;
  }

  /** A list whose every element passes is kept whole. */
  lemma {:induction false} PassingAll(cs: seq<Chunk>, threshold: int)
    requires forall i :: 0 <= i < |cs| ==> cs[i].similarity >= threshold
    ensures Passing(cs, threshold) == cs
    decreases |cs|
  {
    if cs != [] {
      PassingAll(cs[..|cs| - 1], threshold);
      assert cs[..|cs| - 1] + [cs[|cs| - 1]] == cs;
    }
  }

  /** `if tickers:` — the filter is applied only for a non-empty list. */
  function TickerFilter(tickers: Option<seq<string>>): (f: Option<seq<string>>)
    ensures f.Some? <==> tickers.Some? && tickers.value != []
    ensures f.Some? ==> f == tickers
  {
    if tickers.Some? && tickers.value != [] then tickers else None
  }

  // ---------------------------------------------------------------- the four searches

  function SearchResult(b: Backend, tickers: Option<seq<string>>, topK: int, threshold: int): seq<Chunk>
  {
    match b.tenK(TickerFilter(tickers), topK)
    case None => []
    case Some(rows) => Passing(TenKChunks(rows), threshold)
  }

  /** `search`: the broad 10-K rows at or above the threshold, in database order; `[]` on an error. */
  method Search(b: Backend, tickers: Option<seq<string>>, topK: int, threshold: int) returns (chunks: seq<Chunk>)
    ensures chunks == SearchResult(b, tickers, topK, threshold)
  {
    var res := b.tenK(TickerFilter(tickers), topK);
    if res.None? {
      return [];
    }
    var rows := res.value;
    chunks := [];
    var i := 0;
    while i < |rows|
      invariant 0 <= i <= |rows|
      invariant chunks == Passing(TenKChunks(rows[..i]), threshold)
    {
      var c := TenKChunk(rows[i]);
      TenKChunksStep(rows, i);
      PassingSnoc(TenKChunks(rows[..i]), c, threshold);
      if c.similarity >= threshold {
        chunks := chunks + [c];
      }
      i := i + 1;
    }
    assert rows[..i] == rows;
  }

  function SearchByCompanyResult(b: Backend, ticker: string, topK: int): seq<Chunk>
  {
    match b.tenKByCompany(ticker, topK)
    case None => []
    case Some(rows) => CompanyChunks(ticker, rows)
  }

  /** `search_by_company`: every row returned, tagged with the ticker; no threshold. */
  method SearchByCompany(b: Backend, ticker: string, topK: int) returns (chunks: seq<Chunk>)
    ensures chunks == SearchByCompanyResult(b, ticker, topK)
  {
    var res := b.tenKByCompany(ticker, topK);
    if res.None? {
      return [];
    }
    var rows := res.value;
    chunks := [];
    var i := 0;
    while i < |rows|
      invariant 0 <= i <= |rows|
      invariant chunks == CompanyChunks(ticker, rows[..i])
    {
      assert rows[..i + 1] == rows[..i] + [rows[i]];
      chunks := chunks + [CompanyChunk(ticker, rows[i])];
      i := i + 1;
    }
    assert rows[..i] == rows;
  }

  function SearchTranscriptsResult(b: Backend, tickers: Option<seq<string>>, topK: int, threshold: int): seq<Chunk>
  {
    match b.transcripts(TickerFilter(tickers), topK)
    case None => []
    case Some(rows) => Passing(TranscriptChunks(rows), threshold)
  }

  /** `search_transcripts`: the transcript rows at or above the threshold, in database order. */
  method SearchTranscripts(b: Backend, tickers: Option<seq<string>>, topK: int, threshold: int)
    returns (chunks: seq<Chunk>)
    ensures chunks == SearchTranscriptsResult(b, tickers, topK, threshold)
  {
    var res := b.transcripts(TickerFilter(tickers), topK);
    if res.None? {
      return [];
    }
    var rows := res.value;
    chunks := [];
    var i := 0;
    while i < |rows|
      invariant 0 <= i <= |rows|
      invariant chunks == Passing(TranscriptChunks(rows[..i]), threshold)
    {
      var c := TranscriptChunk(rows[i]);
      TranscriptChunksStep(rows, i);
      PassingSnoc(TranscriptChunks(rows[..i]), c, threshold);
      if c.similarity >= threshold {
        chunks := chunks + [c];
      }
      i := i + 1;
    }
    assert rows[..i] == rows;
  }

  function SearchTranscriptsByCompanyResult(b: Backend, ticker: string, topK: int, threshold: int): seq<Chunk>
  {
    match b.transcriptsByCompany(ticker, topK)
    case None => []
    case Some(rows) => Passing(TranscriptChunks(rows), threshold)
  }

  /** `search_transcripts_by_company`: scoped to one ticker, and still filtered by the threshold. */
  method SearchTranscriptsByCompany(b: Backend, ticker: string, topK: int, threshold: int)
    returns (chunks: seq<Chunk>)
    ensures chunks == SearchTranscriptsByCompanyResult(b, ticker, topK, threshold)
  {
    var res := b.transcriptsByCompany(ticker, topK);
    if res.None? {
      return [];
    }
    var rows := res.value;
    chunks := [];
    var i := 0;
    while i < |rows|
      invariant 0 <= i <= |rows|
      invariant chunks == Passing(TranscriptChunks(rows[..i]), threshold)
    {
      var c := TranscriptChunk(rows[i]);
      TranscriptChunksStep(rows, i);
      PassingSnoc(TranscriptChunks(rows[..i]), c, threshold);
      if c.similarity >= threshold {
        chunks := chunks + [c];
      }
      i := i + 1;
    }
    assert rows[..i] == rows;
  }

  /** The broad searches treat an empty ticker list exactly like no list. */
  lemma EmptyTickersLikeNone(b: Backend, topK: int, threshold: int)
    ensures SearchResult(b, Some([]), topK, threshold) == SearchResult(b, None, topK, threshold)
    ensures SearchTranscriptsResult(b, Some([]), topK, threshold) == SearchTranscriptsResult(b, None, topK, threshold)
  {
  }

  /** Every result of a broad search meets its threshold. */
  lemma SearchAboveThreshold(b: Backend, tickers: Option<seq<string>>, topK: int, threshold: int)
    ensures forall c :: c in SearchResult(b, tickers, topK, threshold) ==> c.similarity >= threshold
    ensures forall c :: c in SearchTranscriptsResult(b, tickers, topK, threshold) ==> c.similarity >= threshold
  {
    var broad := b.tenK(TickerFilter(tickers), topK);
    if broad.Some? {
      PassingMembers(TenKChunks(broad.value), threshold);
    }
    var calls := b.transcripts(TickerFilter(tickers), topK);
    if calls.Some? {
      PassingMembers(TranscriptChunks(calls.value), threshold);
    }
  }

  /**
   * A company-scoped 10-K search keeps every row, whatever its similarity,
   * and each carries the requested ticker and no fiscal year.
   */
  lemma ByCompanyKeepsAll(b: Backend, ticker: string, topK: int)
    requires b.tenKByCompany(ticker, topK).Some?
    ensures |SearchByCompanyResult(b, ticker, topK)| == |b.tenKByCompany(ticker, topK).value|
    ensures forall c :: c in SearchByCompanyResult(b, ticker, topK) ==> c.ticker == ticker && c.fiscalYear.Missing?
  {
  }

  // ---------------------------------------------------------------- merge

  /** Tags a 10-K result: its source, and a period when it has none. */
  function TagTenK(c: Chunk): Chunk
  {
    c.(sourceType := Some(TenKFiling),
       sourcePeriod := if c.sourcePeriod.Some? then c.sourcePeriod else Some(FiscalYear(c.fiscalYear)))
  }

  function TagAll(cs: seq<Chunk>): (r: seq<Chunk>)
    ensures |r| == |cs| && forall i :: 0 <= i < |cs| ==> r[i] == TagTenK(cs[i])
  {
    if cs == [] then [] else TagAll(cs[..|cs| - 1]) + [TagTenK(cs[|cs| - 1])]
  }

  /** `len(tickers) == 1 if tickers else False`. */
  predicate SingleCompany(tickers: Option<seq<string>>)
  {
    tickers.Some? && |tickers.value| == 1
  }

  function TenKPool(b: Backend, tickers: Option<seq<string>>, topK: int, threshold: int, enabled: bool): seq<Chunk>
  {
    if !enabled then []
    else if SingleCompany(tickers) then TagAll(SearchByCompanyResult(b, tickers.value[0], topK))
    else TagAll(SearchResult(b, tickers, topK, threshold))
  }

  function TranscriptPool(b: Backend, tickers: Option<seq<string>>, topK: int, threshold: int, enabled: bool): seq<Chunk>
  {
    if !enabled then []
    else if SingleCompany(tickers) then SearchTranscriptsByCompanyResult(b, tickers.value[0], topK, threshold)
    else SearchTranscriptsResult(b, tickers, topK, threshold)
  }

  /** Python's `s[:n]`, negative `n` counting from the end. */
  function Head<T>(s: seq<T>, n: int): (r: seq<T>)
    ensures |r| <= |s| && r == s[..|r|]
    ensures 0 <= n ==> |r| == if n < |s| then n else |s|
    ensures n < 0 ==> |r| == if -n < |s| then |s| + n else 0
  {
    if n >= |s| then s
    else if n >= 0 then s[..n]
    else if -n >= |s| then []
    else s[..|s| + n]
  }

  /** Inserts `x` in front of the first element it is not below. */
  function Insert(x: Chunk, s: seq<Chunk>): seq<Chunk>
  {
    if s == [] then [x]
    else if x.similarity >= s[0].similarity then [x] + s
    else [s[0]] + Insert(x, s[1..])
  }

  /** `list.sort(key=similarity, reverse=True)`, which is stable. */
  function SortDesc(xs: seq<Chunk>): seq<Chunk>
  {
    if xs == [] then [] else Insert(xs[0], SortDesc(xs[1..]))
  }

  /** Inserting adds exactly the one element. */
  lemma {:induction false} InsertPerm(x: Chunk, s: seq<Chunk>)
    ensures multiset(Insert(x, s)) == multiset(s) + multiset{x}
    decreases |s|
  {
    if s != [] && x.similarity < s[0].similarity {
      InsertPerm(x, s[1..]);
      assert s == [s[0]] + s[1..];
    }
  }

  /** The sort is a permutation of its input. */
  lemma {:induction false} SortDescPerm(xs: seq<Chunk>)
    ensures multiset(SortDesc(xs)) == multiset(xs)
    decreases |xs|
  {
    if xs != [] {
      SortDescPerm(xs[1..]);
      InsertPerm(xs[0], SortDesc(xs[1..]));
      assert xs == [xs[0]] + xs[1..];
    }
  }

  predicate SortedDesc(s: seq<Chunk>)
  {
    forall i, j :: 0 <= i < j < |s| ==> s[i].similarity >= s[j].similarity
  }

  lemma {:induction false} InsertSorted(x: Chunk, s: seq<Chunk>)
    requires SortedDesc(s)
    ensures SortedDesc(Insert(x, s))
    decreases |s|
  {
    if s != [] && x.similarity < s[0].similarity {
      var t := Insert(x, s[1..]);
      InsertSorted(x, s[1..]);
      InsertBelow(x, s[1..], s[0].similarity);
      assert Insert(x, s) == [s[0]] + t;
    }
  }

  /** Inserting keeps every similarity at or below a bound that all of them meet. */
  lemma {:induction false} InsertBelow(x: Chunk, s: seq<Chunk>, bound: int)
    requires x.similarity <= bound && forall k :: 0 <= k < |s| ==> s[k].similarity <= bound
    ensures forall k :: 0 <= k < |Insert(x, s)| ==> Insert(x, s)[k].similarity <= bound
    decreases |s|
  {
    if s != [] && x.similarity < s[0].similarity {
      InsertBelow(x, s[1..], bound);
      var t := Insert(x, s[1..]);
      assert Insert(x, s) == [s[0]] + t;
      forall k | 0 <= k < |[s[0]] + t|
        ensures ([s[0]] + t)[k].similarity <= bound
      {
        if k > 0 {
          assert ([s[0]] + t)[k] == t[k - 1];
        }
      }
    }
  }

  lemma {:induction false} SortDescSorted(xs: seq<Chunk>)
    ensures SortedDesc(SortDesc(xs))
    decreases |xs|
  {
    if xs != [] {
      SortDescSorted(xs[1..]);
      InsertSorted(xs[0], SortDesc(xs[1..]));
    }
  }

  /** The results with similarity exactly `v`, in order. */
  function WithSimilarity(s: seq<Chunk>, v: int): seq<Chunk>
  {
    if s == [] then [] else (if s[0].similarity == v then [s[0]] else []) + WithSimilarity(s[1..], v)
  }

  lemma WithSimilarityCons(c: Chunk, s: seq<Chunk>, v: int)
    ensures WithSimilarity([c] + s, v) == (if c.similarity == v then [c] else []) + WithSimilarity(s, v)
  {
    assert ([c] + s)[1..] == s;
  }

  lemma {:induction false} WithSimilarityAppend(xs: seq<Chunk>, ys: seq<Chunk>, v: int)
    ensures WithSimilarity(xs + ys, v) == WithSimilarity(xs, v) + WithSimilarity(ys, v)
    decreases |xs|
  {
    if xs == [] {
      assert xs + ys == ys;
    } else {
      assert xs + ys == [xs[0]] + (xs[1..] + ys);
      assert xs == [xs[0]] + xs[1..];
      WithSimilarityCons(xs[0], xs[1..] + ys, v);
      WithSimilarityCons(xs[0], xs[1..], v);
      WithSimilarityAppend(xs[1..], ys, v);
      Assoc(if xs[0].similarity == v then [xs[0]] else [], WithSimilarity(xs[1..], v), WithSimilarity(ys, v));
    }
  }

  lemma {:induction false} InsertStable(x: Chunk, s: seq<Chunk>, v: int)
    ensures WithSimilarity(Insert(x, s), v) == (if x.similarity == v then [x] else []) + WithSimilarity(s, v)
    decreases |s|
  {
    if s == [] {
      assert Insert(x, s) == [x] + s;
      WithSimilarityCons(x, s, v);
    } else if x.similarity >= s[0].similarity {
      assert Insert(x, s) == [x] + s;
      WithSimilarityCons(x, s, v);
    } else {
      var rest := Insert(x, s[1..]);
      assert Insert(x, s) == [s[0]] + rest;
      assert s == [s[0]] + s[1..];
      InsertStable(x, s[1..], v);
      WithSimilarityCons(s[0], rest, v);
      WithSimilarityCons(s[0], s[1..], v);
      var tail := WithSimilarity(s[1..], v);
      if x.similarity == v {
        assert s[0].similarity != v;
        assert WithSimilarity(rest, v) == [x] + tail;
        assert WithSimilarity(s, v) == tail;
      } else {
        assert WithSimilarity(rest, v) == tail;
      }
    }
  }

  /** Stability: among results of equal similarity the sort keeps the input order. */
  lemma {:induction false} SortStable(xs: seq<Chunk>, v: int)
    ensures WithSimilarity(SortDesc(xs), v) == WithSimilarity(xs, v)
    decreases |xs|
  {
    if xs != [] {
      SortStable(xs[1..], v);
      InsertStable(xs[0], SortDesc(xs[1..]), v);
    }
  }

  function AllSourcesResult(b: Backend, tickers: Option<seq<string>>, topK: int,
                            thresholdTenK: int, thresholdTranscripts: int,
                            includeTenK: bool, includeTranscripts: bool): seq<Chunk>
  {
    Head(SortDesc(TenKPool(b, tickers, topK, thresholdTenK, includeTenK) +
                  TranscriptPool(b, tickers, topK, thresholdTranscripts, includeTranscripts)), topK * 2)
  }

  /** Tags each 10-K result in turn. */
  method TagResults(chunks: seq<Chunk>) returns (tagged: seq<Chunk>)
    ensures tagged == TagAll(chunks)
  {
    tagged := [];
    var i := 0;
    while i < |chunks|
      invariant 0 <= i <= |chunks|
      invariant tagged == TagAll(chunks[..i])
    {
      assert chunks[..i + 1][..i] == chunks[..i];
      assert TagAll(chunks[..i + 1]) == TagAll(chunks[..i]) + [TagTenK(chunks[i])];
      tagged := tagged + [TagTenK(chunks[i])];
      i := i + 1;
    }
    assert chunks[..i] == chunks;
  }

  /**
   * `search_all_sources`: each enabled pool is searched (company-scoped for
   * exactly one ticker), 10-K results are tagged, the pools are merged
   * 10-K first, sorted by similarity and cut to `2 * top_k`.
   */
  method SearchAllSources(b: Backend, tickers: Option<seq<string>>, topK: int,
                          thresholdTenK: int, thresholdTranscripts: int,
                          includeTenK: bool, includeTranscripts: bool) returns (results: seq<Chunk>)
    ensures results == AllSourcesResult(b, tickers, topK, thresholdTenK, thresholdTranscripts,
                                        includeTenK, includeTranscripts)
  {
    var single := tickers.Some? && |tickers.value| == 1;
    var tenK: seq<Chunk> := [];
    if includeTenK {
      var found: seq<Chunk>;
      if single {
        found := SearchByCompany(b, tickers.value[0], topK);
      } else {
        found := Search(b, tickers, topK, thresholdTenK);
      }
      tenK := TagResults(found);
    }
    assert tenK == TenKPool(b, tickers, topK, thresholdTenK, includeTenK);
    var calls: seq<Chunk> := [];
    if includeTranscripts {
      if single {
        calls := SearchTranscriptsByCompany(b, tickers.value[0], topK, thresholdTranscripts);
      } else {
        calls := SearchTranscripts(b, tickers, topK, thresholdTranscripts);
      }
    }
    assert calls == TranscriptPool(b, tickers, topK, thresholdTranscripts, includeTranscripts);
    results := Head(SortDesc(tenK + calls), topK * 2);
  }

  /** The front of a sorted list is sorted and is part of the list. */
  lemma HeadOfSorted(s: seq<Chunk>, n: int)
    requires SortedDesc(s)
    ensures SortedDesc(Head(s, n))
    ensures 0 <= n ==> |Head(s, n)| <= n
    ensures multiset(Head(s, n)) <= multiset(s)
    ensures n >= |s| ==> Head(s, n) == s
  {
    var r := Head(s, n);
    assert s == r + s[|r|..];
    assert multiset(s) == multiset(r) + multiset(s[|r|..]);
  }

  /**
   * The merged list is sorted by similarity, non-increasing, holds at most
   * `2 * top_k` results, and is the front of a reordering of the two pools;
   * when nothing is cut it is a reordering of both pools whole.
   */
  lemma AllSourcesShape(b: Backend, tickers: Option<seq<string>>, topK: int, th1: int, th2: int, inc1: bool, inc2: bool)
    ensures var r := AllSourcesResult(b, tickers, topK, th1, th2, inc1, inc2);
      var pools := TenKPool(b, tickers, topK, th1, inc1) + TranscriptPool(b, tickers, topK, th2, inc2);
      && SortedDesc(r)
      && (0 <= topK ==> |r| <= topK * 2)
      && r == SortDesc(pools)[..|r|]
      && multiset(r) <= multiset(pools)
      && (topK * 2 >= |pools| ==> multiset(r) == multiset(pools))
  {
    var pools := TenKPool(b, tickers, topK, th1, inc1) + TranscriptPool(b, tickers, topK, th2, inc2);
    SortDescSorted(pools);
    SortDescPerm(pools);
    HeadOfSorted(SortDesc(pools), topK * 2);
  }

  /**
   * On equal similarity the 10-K results come before the transcript results,
   * each in their own order (before the cut to `2 * top_k`).
   */
  lemma TiesKeepTenKFirst(b: Backend, tickers: Option<seq<string>>, topK: int, th1: int, th2: int, inc1: bool, inc2: bool, v: int)
    ensures var tenK := TenKPool(b, tickers, topK, th1, inc1);
      var calls := TranscriptPool(b, tickers, topK, th2, inc2);
      WithSimilarity(SortDesc(tenK + calls), v) == WithSimilarity(tenK, v) + WithSimilarity(calls, v)
  {
    var tenK := TenKPool(b, tickers, topK, th1, inc1);
    var calls := TranscriptPool(b, tickers, topK, th2, inc2);
    SortStable(tenK + calls, v);
    WithSimilarityAppend(tenK, calls, v);
  }

  /** Results straight from a 10-K search have no period of their own yet. */
  lemma UntaggedTenK(b: Backend, tickers: Option<seq<string>>, topK: int, threshold: int, ticker: string)
    ensures forall c :: c in SearchResult(b, tickers, topK, threshold) ==> c.sourcePeriod.None?
    ensures forall c :: c in SearchByCompanyResult(b, ticker, topK) ==> c.sourcePeriod.None? && c.fiscalYear.Missing?
  {
    var broad := b.tenK(TickerFilter(tickers), topK);
    if broad.Some? {
      PassingMembers(TenKChunks(broad.value), threshold);
      forall c | c in SearchResult(b, tickers, topK, threshold) ensures c.sourcePeriod.None? {
        var i :| 0 <= i < |broad.value| && TenKChunks(broad.value)[i] == c;
      }
    }
    var scoped := b.tenKByCompany(ticker, topK);
    if scoped.Some? {
      forall c | c in SearchByCompanyResult(b, ticker, topK) ensures c.sourcePeriod.None? && c.fiscalYear.Missing? {
        var i :| 0 <= i < |scoped.value| && CompanyChunks(ticker, scoped.value)[i] == c;
      }
    }
  }

  lemma TagAllTags(raw: seq<Chunk>)
    requires forall c :: c in raw ==> c.sourcePeriod.None?
    ensures forall c :: c in TagAll(raw) ==>
      c.sourceType == Some(TenKFiling) && c.sourcePeriod == Some(FiscalYear(c.fiscalYear))
  {
    forall c | c in TagAll(raw)
      ensures c.sourceType == Some(TenKFiling) && c.sourcePeriod == Some(FiscalYear(c.fiscalYear))
    {
      var i :| 0 <= i < |raw| && TagAll(raw)[i] == c;
      assert raw[i] in raw;
    }
  }

  /**
   * Every 10-K result is tagged "10-K Filing" with the period of its fiscal
   * year, which is "FY N/A" for a company-scoped search.
   */
  lemma TenKPoolTags(b: Backend, tickers: Option<seq<string>>, topK: int, threshold: int)
    ensures forall c :: c in TenKPool(b, tickers, topK, threshold, true) ==>
      c.sourceType == Some(TenKFiling) && c.sourcePeriod == Some(FiscalYear(c.fiscalYear))
    ensures SingleCompany(tickers) ==>
      forall c :: c in TenKPool(b, tickers, topK, threshold, true) ==> c.sourcePeriod == Some(FiscalYear(Missing))
  {
    if SingleCompany(tickers) {
      var raw := SearchByCompanyResult(b, tickers.value[0], topK);
      UntaggedTenK(b, tickers, topK, threshold, tickers.value[0]);
      TagAllTags(raw);
      forall c | c in TagAll(raw) ensures c.fiscalYear.Missing? {
        var i :| 0 <= i < |raw| && TagAll(raw)[i] == c;
        assert raw[i] in raw;
      }
    } else {
      UntaggedTenK(b, tickers, topK, threshold, "");
      TagAllTags(SearchResult(b, tickers, topK, threshold));
    }
  }

  /**
   * A 10-K row whose `fiscal_year` column is NULL, found by a broad search at
   * or above the threshold, reaches the pool tagged "FY None": the key is
   * present, so the "N/A" default does not apply.
   */
  lemma NullYearTagged(b: Backend, tickers: Option<seq<string>>, topK: int, threshold: int, r: TenKRow)
    requires !SingleCompany(tickers)
    requires b.tenK(TickerFilter(tickers), topK).Some? && r in b.tenK(TickerFilter(tickers), topK).value
    requires r.fiscalYear.None? && r.similarity >= threshold
    ensures exists c :: c in TenKPool(b, tickers, topK, threshold, true) && c.chunkText == r.chunkText &&
              c.fiscalYear.Null? && c.sourcePeriod.Some? && PeriodText(c.sourcePeriod.value) == "FY None"
  {
    var rows := b.tenK(TickerFilter(tickers), topK).value;
    var k := TenKChunk(r);
    RowReachesSearch(rows, r, threshold);
    var raw := Passing(TenKChunks(rows), threshold);
    var pool := TenKPool(b, tickers, topK, threshold, true);
    assert pool == TagAll(raw);
    TaggedMember(raw, k);
    NullYearText(k);
    assert TagTenK(k) in pool;
  }

  lemma NullYearText(k: Chunk)
    requires k.fiscalYear.Null? && k.sourcePeriod.None?
    ensures TagTenK(k).fiscalYear.Null? && TagTenK(k).sourcePeriod.Some?
    ensures PeriodText(TagTenK(k).sourcePeriod.value) == "FY None"
  {
    assert TagTenK(k).sourcePeriod == Some(FiscalYear(Null));
  }

  lemma RowReachesSearch(rows: seq<TenKRow>, r: TenKRow, threshold: int)
    requires r in rows && r.similarity >= threshold
    ensures TenKChunk(r) in Passing(TenKChunks(rows), threshold)
  {
    var i :| 0 <= i < |rows| && rows[i] == r;
    assert TenKChunks(rows)[i] == TenKChunk(r);
    PassingMembers(TenKChunks(rows), threshold);
  }

  lemma TaggedMember(raw: seq<Chunk>, k: Chunk)
    requires k in raw
    ensures TagTenK(k) in TagAll(raw)
  {
    var j :| 0 <= j < |raw| && raw[j] == k;
    assert TagAll(raw)[j] == TagTenK(k);
  }

  /** Every transcript result is tagged "Earning Call" with its quarter and fiscal year. */
  lemma TranscriptPoolTags(b: Backend, tickers: Option<seq<string>>, topK: int, threshold: int)
    ensures forall c :: c in TranscriptPool(b, tickers, topK, threshold, true) ==>
      c.sourceType == Some(EarningCall) && c.fiscalQuarter.Some? && c.fiscalYear.Present? &&
      c.sourcePeriod == Some(Quarter(c.fiscalQuarter.value, c.fiscalYear.value))
  {
    var res := if SingleCompany(tickers) then b.transcriptsByCompany(tickers.value[0], topK)
               else b.transcripts(TickerFilter(tickers), topK);
    if res.Some? {
      PassingMembers(TranscriptChunks(res.value), threshold);
      forall c | c in TranscriptPool(b, tickers, topK, threshold, true)
        ensures c.sourceType == Some(EarningCall) && c.fiscalQuarter.Some? && c.fiscalYear.Present?
        ensures c.sourcePeriod == Some(Quarter(c.fiscalQuarter.value, c.fiscalYear.value))
      {
        var i :| 0 <= i < |res.value| && TranscriptChunks(res.value)[i] == c;
      }
    }
  }

  /**
   * Dispatch: with exactly one ticker both pools use the company-scoped
   * searches, the 10-K one without a threshold; otherwise the broad ones.
   * A disabled pool contributes nothing, and a pool whose search raised
   * contributes nothing while the other is unaffected.
   */
  lemma Dispatch(b: Backend, tickers: Option<seq<string>>, topK: int, th1: int, th2: int)
    ensures SingleCompany(tickers) ==>
      TenKPool(b, tickers, topK, th1, true) == TagAll(SearchByCompanyResult(b, tickers.value[0], topK)) &&
      TranscriptPool(b, tickers, topK, th2, true) == SearchTranscriptsByCompanyResult(b, tickers.value[0], topK, th2)
    ensures !SingleCompany(tickers) ==>
      TenKPool(b, tickers, topK, th1, true) == TagAll(SearchResult(b, tickers, topK, th1)) &&
      TranscriptPool(b, tickers, topK, th2, true) == SearchTranscriptsResult(b, tickers, topK, th2)
    ensures TenKPool(b, tickers, topK, th1, false) == [] && TranscriptPool(b, tickers, topK, th2, false) == []
    ensures b.tenK(TickerFilter(tickers), topK).None? && !SingleCompany(tickers) ==>
      TenKPool(b, tickers, topK, th1, true) == []
    ensures b.transcripts(TickerFilter(tickers), topK).None? && !SingleCompany(tickers) ==>
      TranscriptPool(b, tickers, topK, th2, true) == []
  {
  }
}
