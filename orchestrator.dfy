/**
 * The pipeline: classify the question, validate the mentioned tickers
 * against the catalog, route on the query type, and build the response
 * envelope with its source citations.
 *
 * Every service is an oracle in `Services`. The catalog is read afresh
 * each time it is needed: once to validate and once more to name the
 * companies handed to the SQL generator, so the two reads may differ.
 */
module Orchestrator {
  import opened Wrappers
  import opened Text
  import PyDict
  import QueryClassifier
  import CompanyLoader
  import SqlGenerator
  import VectorSearcher
  import ResponseGenerator

  type Row = SqlGenerator.Row
  type Chunk = VectorSearcher.Chunk

  datatype Services = Services(
    classifierReply: QueryClassifier.Reply,
    validationCatalog: Option<seq<CompanyLoader.CompanyRow>>,
    namingCatalog: Option<seq<CompanyLoader.CompanyRow>>,
    writeSql: (string, string) -> Option<string>,
    runSql: string -> SqlGenerator.DbOutcome,
    schema: string,
    search: VectorSearcher.Backend,
    answerSql: (string, string) -> Option<string>,
    answerChunks: (string, string) -> Option<string>,
    answerHybrid: (string, string, string) -> Option<string>,
    show: Row -> string)

  /** A citation: where a result came from. `speaker` is present only for a call with a speaker. */
  datatype Source = Source(company: string, ticker: string, sourceType: string, section: string,
                           speaker: Option<string>)

  /** The kinds `_handle_system_error` tells apart, in the order it tries them. */
  datatype ErrorKind = RateLimit | QuotaExceeded | ApiKeyError | DatabaseError | TimeoutError | UnexpectedError

  /** The response dictionary, one variant per shape it takes. */
  datatype Envelope =
    | ValidationFailed(answer: string, invalidCompanies: seq<string>)
    | UnknownType
    | SqlFailed(answer: string, sql: Option<string>)
    | NoDataFound(sql: Option<string>)
    | Quantitative(answer: string, sql: Option<string>, data: seq<Row>, rowCount: nat)
    | NoRelevantInfo(answer: string)
    | Qualitative(answer: string, sources: seq<Source>, chunkCount: nat)
    | NoData
    | Hybrid(answer: string, sql: Option<string>, sqlData: seq<Row>, sources: seq<Source>, chunkCount: nat)
    | SystemError(kind: ErrorKind)
  {
    predicate Success()
    {
      Quantitative? || Qualitative? || Hybrid?
    }

    /** The `query_type` key; a system error has none. */
    function QueryType(): Option<string>
    {
      match this
      case ValidationFailed(_, _) => Some("VALIDATION_FAILED")
      case UnknownType => Some("UNKNOWN")
      case SqlFailed(_, _) => Some(Quant)
      case NoDataFound(_) => Some(Quant)
      case Quantitative(_, _, _, _) => Some(Quant)
      case NoRelevantInfo(_) => Some(Qual)
      case Qualitative(_, _, _) => Some(Qual)
      case NoData => Some(Hyb)
      case Hybrid(_, _, _, _, _) => Some(Hyb)
      case SystemError(_) => None
    }

    /** The `error_type` key. */
    function ErrorType(): Option<string>
    {
      match this
      case SqlFailed(_, _) => Some("SQL_EXECUTION_FAILED")
      case NoDataFound(_) => Some("NO_DATA_FOUND")
      case NoRelevantInfo(_) => Some("NO_RELEVANT_INFO")
      case NoData => Some("NO_DATA")
      case SystemError(k) => Some(KindName(k))
      case _ => None
    }
  }

  const Quant := "QUANTITATIVE"
  const Qual := "QUALITATIVE"
  const Hyb := "HYBRID"

  function KindName(k: ErrorKind): string
  {
    match k
    case RateLimit => "RATE_LIMIT"
    case QuotaExceeded => "QUOTA_EXCEEDED"
    case ApiKeyError => "API_KEY_ERROR"
    case DatabaseError => "DATABASE_ERROR"
    case TimeoutError => "TIMEOUT_ERROR"
    case UnexpectedError => "UNEXPECTED_ERROR"
  }

  // ---------------------------------------------------------------- validation

  /** The mentioned tickers the catalog does not have, in the order mentioned. */
  function Absent(tickers: seq<string>, catalog: PyDict.Dict<string, string>): (r: seq<string>)
    ensures |r| <= |tickers|
  {
    if tickers == [] then []
    else (if tickers[0] in catalog.values then [] else [tickers[0]]) + Absent(tickers[1..], catalog)
  }

  /** A mentioned ticker is listed exactly when the catalog lacks it. */
  lemma {:induction false} AbsentMembers(tickers: seq<string>, catalog: PyDict.Dict<string, string>)
    ensures forall t :: t in Absent(tickers, catalog) <==> t in tickers && t !in catalog.values
    decreases |tickers|
  {
    if tickers != [] {
      AbsentMembers(tickers[1..], catalog);
      assert tickers == [tickers[0]] + tickers[1..];
    }
  }

  /** The list keeps the order of the mentions: it distributes over concatenation. */
  lemma {:induction false} AbsentAppend(a: seq<string>, b: seq<string>, catalog: PyDict.Dict<string, string>)
    ensures Absent(a + b, catalog) == Absent(a, catalog) + Absent(b, catalog)
    decreases |a|
  {
    if a == [] {
      assert a + b == b;
    } else {
      assert (a + b)[0] == a[0] && (a + b)[1..] == a[1..] + b;
      AbsentAppend(a[1..], b, catalog);
    }
  }

  /** `f"{name} ({ticker})"` for each of the first five catalog entries. */
  function Examples(catalog: PyDict.Dict<string, string>): (ex: seq<string>)
    requires catalog.Valid()
    ensures |ex| == ResponseGenerator.Min(|catalog.keys|, 5)
    ensures forall k :: 0 <= k < |ex| ==>
      ex[k] == catalog.values[catalog.keys[k]] + " (" + catalog.keys[k] + ")"
  {
    var first := ResponseGenerator.Take(catalog.keys, 5);
    seq(|first|, k requires 0 <= k < |first| => catalog.values[first[k]] + " (" + first[k] + ")")
  }

  function RejectionText(invalid: seq<string>, examples: seq<string>): string
  {
    "I don't have data for " + Join(", ", invalid) +
    ". I only cover NASDAQ-100 companies.\n\nYou can ask about companies like: " +
    Join(", ", examples) + ", and more."
  }

  /** The check itself, against one read of the catalog. */
  function ValidateAgainst(tickers: seq<string>, catalog: PyDict.Dict<string, string>): (r: Option<Envelope>)
    requires catalog.Valid()
  {
    var invalid := Absent(tickers, catalog);
    if invalid == [] then None
    else Some(ValidationFailed(RejectionText(invalid, Examples(catalog)), invalid))
  }

  /**
   * `_validate_companies`: `None` when the tickers pass, else the envelope
   * that stops the query. No mention passes without reading the catalog.
   */
  function Validate(tickers: seq<string>, db: Option<seq<CompanyLoader.CompanyRow>>): (r: Option<Envelope>)
    ensures tickers == [] ==> r == None
    ensures r.Some? ==> r.value.ValidationFailed? && !r.value.Success()
  {
    if tickers == [] then None else ValidateAgainst(tickers, CompanyLoader.GetCompanyDict(db))
  }

  /**
   * Mentioned tickers fail validation exactly when one of them is not in
   * the catalog, and the envelope lists exactly those, in the order
   * mentioned, with at most five example companies.
   */
  lemma ValidationGate(tickers: seq<string>, catalog: PyDict.Dict<string, string>)
    requires catalog.Valid()
    ensures var r := ValidateAgainst(tickers, catalog);
      && (r.Some? <==> exists t :: t in tickers && t !in catalog.values)
      && (r.Some? ==> r.value.ValidationFailed? &&
                      r.value.invalidCompanies == Absent(tickers, catalog) &&
                      r.value.answer == RejectionText(Absent(tickers, catalog), Examples(catalog)) &&
                      |Examples(catalog)| <= 5)
  {
    var invalid := Absent(tickers, catalog);
    AbsentMembers(tickers, catalog);
    if invalid != [] {
      assert invalid[0] in invalid;
    } else {
      forall t | t in tickers ensures t in catalog.values {
        assert t !in invalid;
      }
    }
  }

  /**
   * A failed catalog read leaves the catalog empty, so every mentioned
   * ticker is reported invalid and no example is offered.
   */
  lemma FailedReadRejects(tickers: seq<string>)
    requires tickers != []
    ensures Validate(tickers, None) == Some(ValidationFailed(RejectionText(tickers, []), tickers))
  {
    var catalog := CompanyLoader.GetCompanyDict(None);
    assert Examples(catalog) == [];
    AbsentAll(tickers, catalog);
    assert Validate(tickers, None) == ValidateAgainst(tickers, catalog);
  }

  lemma {:induction false} AbsentAll(tickers: seq<string>, catalog: PyDict.Dict<string, string>)
    requires catalog.values == map[]
    ensures Absent(tickers, catalog) == tickers
    decreases |tickers|
  {
    if tickers != [] {
      AbsentAll(tickers[1..], catalog);
      assert [tickers[0]] + tickers[1..] == tickers;
    }
  }

  // ---------------------------------------------------------------- naming

  /** Each ticker with its catalog name, or with itself as the name when the catalog lacks it. */
  function Names(tickers: seq<string>, catalog: PyDict.Dict<string, string>): (cs: seq<SqlGenerator.Company>)
    ensures |cs| == |tickers|
    ensures forall i :: 0 <= i < |tickers| ==>
      cs[i].ticker == tickers[i] &&
      cs[i].name == if tickers[i] in catalog.values then catalog.values[tickers[i]] else tickers[i]
  {
    if tickers == [] then []
    else
      var t := tickers[|tickers| - 1];
      Names(tickers[..|tickers| - 1], catalog) +
      [SqlGenerator.Company(t, if t in catalog.values then catalog.values[t] else t)]
  }

  function Normalized(tickers: seq<string>, db: Option<seq<CompanyLoader.CompanyRow>>): seq<SqlGenerator.Company>
  {
    if tickers == [] then [] else Names(tickers, CompanyLoader.GetCompanyDict(db))
  }

  /** `_normalize_companies`: the catalog is read only when there are tickers. */
  method NormalizeCompanies(tickers: seq<string>, db: Option<seq<CompanyLoader.CompanyRow>>)
    returns (companies: seq<SqlGenerator.Company>)
    ensures companies == Normalized(tickers, db)
  {
    companies := [];
    if tickers == [] {
      return;
    }
    var catalog := CompanyLoader.GetCompanyDict(db);
    var i := 0;
    while i < |tickers|
      invariant 0 <= i <= |tickers|
      invariant companies == Names(tickers[..i], catalog)
    {
      var t := tickers[i];
      NamesStep(tickers, i, catalog);
      if t in catalog.values {
        companies := companies + [SqlGenerator.Company(t, catalog.values[t])];
      } else {
        companies := companies + [SqlGenerator.Company(t, t)];
      }
      i := i + 1;
    }
    assert tickers[..i] == tickers;
  }

  /** Naming one more ticker appends its company. */
  lemma NamesStep(tickers: seq<string>, i: nat, catalog: PyDict.Dict<string, string>)
    requires i < |tickers|
    ensures var t := tickers[i];
      Names(tickers[..i + 1], catalog)
      == Names(tickers[..i], catalog) + [SqlGenerator.Company(t, if t in catalog.values then catalog.values[t] else t)]
  {
    assert tickers[..i + 1][..i] == tickers[..i];
  }

  // ---------------------------------------------------------------- search breadth

  /** The ticker argument and `top_k` for 1, several or no mentioned tickers. */
  function Breadth(tickers: seq<string>): (Option<seq<string>>, int)
  {
    if |tickers| == 1 then (Some(tickers), 5)
    else if |tickers| > 1 then (Some(tickers), 10)
    else (None, 10)
  }

  function SearchChunks(b: VectorSearcher.Backend, tickers: seq<string>): seq<Chunk>
  {
    VectorSearcher.AllSourcesResult(b, Breadth(tickers).0, Breadth(tickers).1,
                                    VectorSearcher.TenKThreshold, VectorSearcher.TranscriptThreshold, true, true)
  }

  /** `_smart_vector_search`: both pools, with the default thresholds. */
  method SmartVectorSearch(b: VectorSearcher.Backend, tickers: seq<string>) returns (chunks: seq<Chunk>)
    ensures chunks == SearchChunks(b, tickers)
  {
    if |tickers| == 1 {
      chunks := VectorSearcher.SearchAllSources(b, Some(tickers), 5, VectorSearcher.TenKThreshold,
                                                VectorSearcher.TranscriptThreshold, true, true);
    } else if |tickers| > 1 {
      chunks := VectorSearcher.SearchAllSources(b, Some(tickers), 10, VectorSearcher.TenKThreshold,
                                                VectorSearcher.TranscriptThreshold, true, true);
    } else {
      chunks := VectorSearcher.SearchAllSources(b, None, 10, VectorSearcher.TenKThreshold,
                                                VectorSearcher.TranscriptThreshold, true, true);
    }
  }

  /**
   * One ticker: the company-scoped searches and at most 10 results; several:
   * the broad searches filtered to those tickers and at most 20; none: the
   * broad searches over every company and at most 20.
   */
  lemma BreadthPolicy(b: VectorSearcher.Backend, tickers: seq<string>)
    ensures |tickers| == 1 <==> VectorSearcher.SingleCompany(Breadth(tickers).0)
    ensures |tickers| > 1 ==> VectorSearcher.TickerFilter(Breadth(tickers).0) == Some(tickers)
    ensures tickers == [] ==> VectorSearcher.TickerFilter(Breadth(tickers).0) == None
    ensures |SearchChunks(b, tickers)| <= if |tickers| == 1 then 10 else 20
    ensures VectorSearcher.SortedDesc(SearchChunks(b, tickers))
  {
    var (filter, topK) := Breadth(tickers);
    VectorSearcher.AllSourcesShape(b, filter, topK, VectorSearcher.TenKThreshold,
                                   VectorSearcher.TranscriptThreshold, true, true);
  }

  // ---------------------------------------------------------------- citations

  /** One citation: company, ticker, source type, and the section (or call) it is from. */
  function SourceOf(c: Chunk): Source
  {
    var call := c.sourceType == Some(VectorSearcher.EarningCall);
    Source(c.companyName, c.ticker,
           if c.sourceType.Some? then VectorSearcher.SourceName(c.sourceType.value) else "10-K Filing",
           if call then "Q" + ResponseGenerator.OptionalNumber(c.fiscalQuarter) + " " +
                        ResponseGenerator.OptionalNumber(Get(c.fiscalYear)) + " Earnings Call"
           else if c.itemLabel.Some? then c.itemLabel.value else "N/A",
           if call && c.speaker.Some? && c.speaker.value != "" then c.speaker else None)
  }

  function SourcesOf(chunks: seq<Chunk>): (ss: seq<Source>)
    ensures |ss| == |chunks| && forall k :: 0 <= k < |chunks| ==> ss[k] == SourceOf(chunks[k])
  {
    if chunks == [] then [] else SourcesOf(chunks[..|chunks| - 1]) + [SourceOf(chunks[|chunks| - 1])]
  }

  /** The citations of the first five results. */
  method BuildSources(chunks: seq<Chunk>) returns (sources: seq<Source>)
    ensures sources == SourcesOf(ResponseGenerator.Take(chunks, 5))
  {
    var used := ResponseGenerator.Take(chunks, 5);
    sources := [];
    var i := 0;
    while i < |used|
      invariant 0 <= i <= |used|
      invariant sources == SourcesOf(used[..i])
    {
      assert used[..i + 1][..i] == used[..i];
      assert SourcesOf(used[..i + 1]) == SourcesOf(used[..i]) + [SourceOf(used[i])];
      sources := sources + [SourceOf(used[i])];
      i := i + 1;
    }
    assert used[..i] == used;
  }

  /**
   * A transcript result is cited by its `source_period` followed by
   * "Earnings Call", and with its speaker when it names one; a tagged 10-K
   * result is cited as a "10-K Filing" by its section label.
   */
  lemma CitationOfTags(c: Chunk)
    ensures c.sourceType == Some(VectorSearcher.EarningCall) && c.fiscalQuarter.Some? && c.fiscalYear.Present? ==>
      SourceOf(c).sourceType == "Earning Call" &&
      SourceOf(c).section ==
        VectorSearcher.PeriodText(VectorSearcher.Quarter(c.fiscalQuarter.value, c.fiscalYear.value)) + " Earnings Call" &&
      (SourceOf(c).speaker.Some? <==> c.speaker.Some? && c.speaker.value != "")
    ensures c.sourceType == Some(VectorSearcher.TenKFiling) && c.itemLabel.Some? ==>
      SourceOf(c).sourceType == "10-K Filing" && SourceOf(c).section == c.itemLabel.value && SourceOf(c).speaker.None?
  {
  }

  // ---------------------------------------------------------------- handlers

  const TroubleText := "I had trouble retrieving the financial data. Please try rephrasing your question or asking about different metrics.\n\nError: "

  /** `sql_result.get('error', 'Unknown error')` */
  function ErrorText(error: Option<string>): string
  {
    if error.Some? then error.value else "Unknown error"
  }

  /** What `query` returns for this question and these tickers. */
  function SqlOutcome(s: Services, userQuery: string, tickers: seq<string>): SqlGenerator.QueryResult
  {
    SqlGenerator.QueryOutcome(s.writeSql, s.runSql, s.schema, userQuery, Normalized(tickers, s.namingCatalog))
  }

  function QuantitativeResponse(s: Services, userQuery: string, tickers: seq<string>): Envelope
  {
    QuantitativeEnvelope(s, userQuery, SqlOutcome(s, userQuery, tickers))
  }

  /** The quantitative envelope for a given result of `query`. */
  function QuantitativeEnvelope(s: Services, userQuery: string, r: SqlGenerator.QueryResult): (e: Envelope)
    ensures e.SqlFailed? || e.NoDataFound? || e.Quantitative?
  {
    if !r.success then SqlFailed(TroubleText + ErrorText(r.error), r.sql)
    else if r.data == [] || r.rowCount == 0 then NoDataFound(r.sql)
    else Quantitative(ResponseGenerator.Answered(s.answerSql(userQuery, ResponseGenerator.SqlDigest(r.data, s.show))),
                      r.sql, r.data, r.rowCount)
  }

  /** `_handle_quantitative` */
  method HandleQuantitative(s: Services, userQuery: string, tickers: seq<string>) returns (e: Envelope)
    ensures e == QuantitativeResponse(s, userQuery, tickers)
  {
    var companies := NormalizeCompanies(tickers, s.namingCatalog);
    var r := SqlGenerator.Query(s.writeSql, s.runSql, s.schema, userQuery, companies);
    if !r.success {
      return SqlFailed(TroubleText + ErrorText(r.error), r.sql);
    }
    if r.data == [] || r.rowCount == 0 {
      return NoDataFound(r.sql);
    }
    var answer := ResponseGenerator.GenerateFromSql(s.answerSql, userQuery, r.data, s.show);
    return Quantitative(answer, r.sql, r.data, r.rowCount);
  }

  /**
   * A failed SQL stage reports the backend's own error text at the end of
   * the answer; a run with no rows is NO_DATA_FOUND; otherwise the row
   * count is that of the rows returned.
   */
  lemma QuantitativeOutcomes(s: Services, userQuery: string, tickers: seq<string>)
    ensures var r := SqlGenerator.QueryOutcome(s.writeSql, s.runSql, s.schema, userQuery, Normalized(tickers, s.namingCatalog));
      var e := QuantitativeResponse(s, userQuery, tickers);
      && (!r.success ==> e.SqlFailed? && r.error.Some? && EndsWith(e.answer, r.error.value) &&
                         e.ErrorType() == Some("SQL_EXECUTION_FAILED"))
      && (r.success && r.data == [] ==> e == NoDataFound(r.sql))
      && (e.Quantitative? <==> r.success && r.data != [])
      && (e.Quantitative? ==> e.rowCount == |e.data| > 0 && e.sql.Some?)
  {
    var companies := Normalized(tickers, s.namingCatalog);
    SqlGenerator.QueryOutcomeShape(s.writeSql, s.runSql, s.schema, userQuery, companies);
    var r := SqlGenerator.QueryOutcome(s.writeSql, s.runSql, s.schema, userQuery, companies);
    if !r.success {
      var a := TroubleText + r.error.value;
      assert a[|a| - |r.error.value|..] == r.error.value;
    }
  }

  const NoInfoHead := "I couldn't find relevant information in the 10-K filings or transcripts"
  const NoInfoTail := ". The company might not have filed a 10-K yet, or the information might not be in the sections I searched.\n\nTry asking about risks, business strategy, or legal proceedings."
  const NoInfoHints := ". Try asking about specific topics like:\n- Risk factors\n- Business model and strategy\n- Legal proceedings\n- Market risks"

  /** The NO_RELEVANT_INFO message: it names the tickers when there are any. */
  function NoInfoMessage(tickers: seq<string>): string
  {
    if tickers != [] then NoInfoHead + " for " + Join(", ", tickers) + NoInfoTail
    else NoInfoHead + NoInfoHints
  }

  function QualitativeResponse(s: Services, userQuery: string, tickers: seq<string>): Envelope
  {
    QualitativeEnvelope(s, userQuery, tickers, SearchChunks(s.search, tickers))
  }

  /** The qualitative envelope for given search results. */
  function QualitativeEnvelope(s: Services, userQuery: string, tickers: seq<string>, chunks: seq<Chunk>): (e: Envelope)
    ensures e.NoRelevantInfo? || e.Qualitative?
  {
    if chunks == [] then NoRelevantInfo(NoInfoMessage(tickers))
    else Qualitative(ResponseGenerator.Answered(s.answerChunks(userQuery, ResponseGenerator.VectorContext(chunks))),
                     SourcesOf(ResponseGenerator.Take(chunks, 5)), |chunks|)
  }

  /** `_handle_qualitative` */
  method HandleQualitative(s: Services, userQuery: string, tickers: seq<string>) returns (e: Envelope)
    ensures e == QualitativeResponse(s, userQuery, tickers)
  {
    var chunks := SmartVectorSearch(s.search, tickers);
    if chunks == [] {
      return NoRelevantInfo(NoInfoMessage(tickers));
    }
    var answer := ResponseGenerator.GenerateFromVectors(s.answerChunks, userQuery, chunks);
    var sources := BuildSources(chunks);
    return Qualitative(answer, sources, |chunks|);
  }

  /**
   * No results gives NO_RELEVANT_INFO, naming the tickers when some were
   * mentioned; otherwise at most five citations, one per leading result,
   * and a chunk count of all results.
   */
  lemma QualitativeOutcomes(s: Services, userQuery: string, tickers: seq<string>)
    ensures var chunks := SearchChunks(s.search, tickers);
      var e := QualitativeResponse(s, userQuery, tickers);
      && (e.NoRelevantInfo? <==> chunks == [])
      && (e.NoRelevantInfo? && tickers != [] ==> Contains(e.answer, Join(", ", tickers)))
      && (e.Qualitative? ==>
            e.chunkCount == |chunks| && |e.sources| == ResponseGenerator.Min(|chunks|, 5) &&
            forall k :: 0 <= k < |e.sources| ==> e.sources[k] == SourceOf(chunks[k]))
  {
    if tickers != [] {
      ContainsMiddle(NoInfoHead + " for ", Join(", ", tickers), NoInfoTail);
    }
  }

  const HybridNoDataText := "I couldn't find relevant information for your query. Try being more specific about the companies or metrics you're interested in."

  function HybridResponse(s: Services, userQuery: string, tickers: seq<string>): Envelope
  {
    HybridEnvelope(s, userQuery, SqlOutcome(s, userQuery, tickers), SearchChunks(s.search, tickers))
  }

  /** The hybrid envelope for a given result of `query` and given search results. */
  function HybridEnvelope(s: Services, userQuery: string, r: SqlGenerator.QueryResult, chunks: seq<Chunk>): (e: Envelope)
    ensures e == NoData || e.Hybrid?
  {
    if !r.success && chunks == [] then NoData
    else Hybrid(ResponseGenerator.Answered(s.answerHybrid(userQuery, ResponseGenerator.SqlSection(r.data, s.show),
                                                          ResponseGenerator.ContextSection(chunks))),
                r.sql, r.data, SourcesOf(ResponseGenerator.Take(chunks, 5)), |chunks|)
  }

  /** `_handle_hybrid`: SQL first, then the search, then one combined answer. */
  method HandleHybrid(s: Services, userQuery: string, tickers: seq<string>) returns (e: Envelope)
    ensures e == HybridResponse(s, userQuery, tickers)
  {
    var companies := NormalizeCompanies(tickers, s.namingCatalog);
    var r := SqlGenerator.Query(s.writeSql, s.runSql, s.schema, userQuery, companies);
    var chunks := SmartVectorSearch(s.search, tickers);
    if !r.success && chunks == [] {
      return NoData;
    }
    var answer := ResponseGenerator.GenerateHybridResponse(s.answerHybrid, userQuery, r.data, s.show, chunks);
    var sources := BuildSources(chunks);
    return Hybrid(answer, r.sql, r.data, sources, |chunks|);
  }

  /**
   * NO_DATA only when the SQL stage failed and the search found nothing: a
   * successful SQL run with no rows and no results still succeeds.
   */
  lemma HybridOutcomes(s: Services, userQuery: string, tickers: seq<string>)
    ensures var r := SqlGenerator.QueryOutcome(s.writeSql, s.runSql, s.schema, userQuery, Normalized(tickers, s.namingCatalog));
      var chunks := SearchChunks(s.search, tickers);
      var e := HybridResponse(s, userQuery, tickers);
      && (e == NoData <==> !r.success && chunks == [])
      && (r.success ==> e.Success() && e.sqlData == r.data)
      && (e.Hybrid? ==> e.chunkCount == |chunks| && |e.sources| <= 5)
  {
  }

  // ---------------------------------------------------------------- query

  const UnknownAnswer := "I couldn't determine how to process your query. Could you try rephrasing?"

  /** The whole pipeline, as a value. */
  function Respond(s: Services, userQuery: string): Envelope
  {
    var c := QueryClassifier.Classify(s.classifierReply);
    var v := Validate(c.tickers, s.validationCatalog);
    if v.Some? then v.value
    else if c.queryType == Some(Quant) then QuantitativeResponse(s, userQuery, c.tickers)
    else if c.queryType == Some(Qual) then QualitativeResponse(s, userQuery, c.tickers)
    else if c.queryType == Some(Hyb) then HybridResponse(s, userQuery, c.tickers)
    else UnknownType
  }

  /** `query` */
  method Query(s: Services, userQuery: string) returns (e: Envelope)
    ensures e == Respond(s, userQuery)
  {
    var c := QueryClassifier.Classify(s.classifierReply);
    var v := Validate(c.tickers, s.validationCatalog);
    if v.Some? {
      return v.value;
    }
    if c.queryType == Some(Quant) {
      e := HandleQuantitative(s, userQuery, c.tickers);
    } else if c.queryType == Some(Qual) {
      e := HandleQualitative(s, userQuery, c.tickers);
    } else if c.queryType == Some(Hyb) {
      e := HandleHybrid(s, userQuery, c.tickers);
    } else {
      e := UnknownType;
    }
  }

  /**
   * An invalid mention stops the query before any handler is invoked; a
   * valid query is routed by its query type, each of the three to its own
   * handler.
   */
  lemma Routing(s: Services, userQuery: string)
    ensures var c := QueryClassifier.Classify(s.classifierReply);
      var v := Validate(c.tickers, s.validationCatalog);
      var e := Respond(s, userQuery);
      && (v.Some? ==> e == v.value && e.ValidationFailed?)
      && (v.None? && c.queryType == Some(Quant) ==> e == QuantitativeResponse(s, userQuery, c.tickers))
      && (v.None? && c.queryType == Some(Qual) ==> e == QualitativeResponse(s, userQuery, c.tickers))
      && (v.None? && c.queryType == Some(Hyb) ==> e == HybridResponse(s, userQuery, c.tickers))
  {
  }

  /** A valid query of any other type is UNKNOWN, and only such a query is. */
  lemma UnknownRouting(s: Services, userQuery: string)
    ensures var c := QueryClassifier.Classify(s.classifierReply);
      var v := Validate(c.tickers, s.validationCatalog);
      (Respond(s, userQuery) == UnknownType <==>
        v.None? && c.queryType != Some(Quant) && c.queryType != Some(Qual) && c.queryType != Some(Hyb))
  {
  }

  /**
   * A reply whose `query_type` is `null` is not the fallback (which a
   * missing `query_type` gives, routed as HYBRID): with no companies
   * mentioned it reaches the router and is answered as UNKNOWN.
   */
  lemma NullQueryType(s: Services, userQuery: string)
    requires s.classifierReply.Json? && s.classifierReply.queryType.Null? && s.classifierReply.companies.Missing?
    ensures Respond(s, userQuery) == UnknownType
  {
    var c := QueryClassifier.Classify(s.classifierReply);
    assert c.queryType == None && c.tickers == [];
  }

  // ---------------------------------------------------------------- system errors

  predicate RateLimitText(l: string) { Contains(l, "rate limit") || Contains(l, "429") }
  predicate QuotaText(l: string) { Contains(l, "quota") || Contains(l, "insufficient_quota") }
  predicate ApiKeyText(l: string) { Contains(l, "api key") || Contains(l, "401") || Contains(l, "authentication") }
  predicate DatabaseText(l: string) { Contains(l, "connection") || Contains(l, "database") || Contains(l, "psycopg2") }
  predicate TimeoutText(l: string) { Contains(l, "timeout") || Contains(l, "timed out") }

  /** `_handle_system_error`: the first kind whose words occur in the lower-cased message. */
  function ErrorKindOf(message: string): ErrorKind
  {
    var l := Lower(message);
    if RateLimitText(l) then RateLimit
    else if QuotaText(l) then QuotaExceeded
    else if ApiKeyText(l) then ApiKeyError
    else if DatabaseText(l) then DatabaseError
    else if TimeoutText(l) then TimeoutError
    else UnexpectedError
  }

  function HandleSystemError(message: string): (e: Envelope)
    ensures !e.Success() && e.QueryType().None?
  {
    SystemError(ErrorKindOf(message))
  }

  /** Each kind is chosen exactly when its words occur and no earlier kind's do. */
  lemma FirstMatch(message: string)
    ensures var l := Lower(message); var k := ErrorKindOf(message);
      && (k == RateLimit <==> RateLimitText(l))
      && (k == QuotaExceeded <==> !RateLimitText(l) && QuotaText(l))
      && (k == ApiKeyError <==> !RateLimitText(l) && !QuotaText(l) && ApiKeyText(l))
      && (k == DatabaseError <==> !RateLimitText(l) && !QuotaText(l) && !ApiKeyText(l) && DatabaseText(l))
      && (k == TimeoutError <==>
            !RateLimitText(l) && !QuotaText(l) && !ApiKeyText(l) && !DatabaseText(l) && TimeoutText(l))
      && (k == UnexpectedError <==>
            !RateLimitText(l) && !QuotaText(l) && !ApiKeyText(l) && !DatabaseText(l) && !TimeoutText(l))
  {
  }

  /** "insufficient_quota" adds nothing: any message holding it already holds "quota". */
  lemma InsufficientQuotaSubsumed(l: string)
    ensures QuotaText(l) <==> Contains(l, "quota")
  {
    if Contains(l, "insufficient_quota") {
      assert "insufficient_quota"[13..18] == "quota";
      ContainsSlice("insufficient_quota", 13, 18);
      ContainsTransitive(l, "insufficient_quota", "quota");
    }
  }

  /** The classification ignores letter case. */
  lemma ErrorKindIgnoresCase(message: string)
    ensures ErrorKindOf(Lower(message)) == ErrorKindOf(message)
  {
    LowerTwice(message);
  }

  lemma LowerTwice(s: string)
    ensures Lower(Lower(s)) == Lower(s)
  {
    assert forall i :: 0 <= i < |s| ==> LowerChar(LowerChar(s[i])) == LowerChar(s[i]);
  }
}
