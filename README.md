# StockScreener RAG: a Dafny model of the query pipeline, the quota table and the ETL

StockScreener answers plain-language questions about the NASDAQ-100 companies.
It draws on two sources: a PostgreSQL database of SimFin financial statements, and a
pgvector index of 10-K sections and earnings-call transcripts. This project models
the code that makes those decisions and proves what the code promises.

- **Query pipeline** (`app/src/rag`):
  - The classifier (`QueryClassifier`) asks an LLM for a query type and the companies mentioned.
  - The orchestrator (`Orchestrator`) checks each ticker against the company catalog, then routes.
    SQL queries go to the SQL generator (`SqlGenerator`): generate, run the safety gate, execute.
    Vector queries go to the vector searcher (`VectorSearcher`): 10-K and transcript pools,
    similarity thresholds, merge and sort. Hybrid queries go to both.
  - The response generator (`ResponseGenerator`) turns rows and passages into an answer.
  - Every path ends in one response envelope, with an error kind on failure.
- **Quota table** (`app/src/auth`):
  - `RateLimiter` keeps daily per-session and per-IP counters, checked before any work is done.
  - `UserSession` creates and looks up sessions.
- **Catalog cache** (`etl/utils/company_loader.py`, module `CompanyLoader`): the class-level
  cache of the `TICKER: name` listing, and the ticker-to-name dictionary.
- **ETL**:
  - `EmbedTranscripts`: paragraph chunking of transcripts and batched embedding.
  - `Processors`: SimFin statement reshaping and token-window chunking of 10-K sections.
  - `Fetchers`: the SecBlast 10-K lookup and fiscal-year extraction.
  - `Database`: transactional upserts of statements, 10-K documents, sections and chunk
    embeddings.
  - `Load10kFull`: the resumable per-company load loop with two API keys and a daily call budget.

Everything outside the process is a parameter of the model:
- the LLM replies and the embedding vectors;
- database reads, and whether a write is accepted;
- HTTP answers, the clock, and the token encoder.

A request that raises is `None` or a failed outcome. Pure Python code is modelled as
functions. Code that updates state is modelled as classes with `modifies` clauses:
- the catalog cache;
- the quota table;
- the upsert tables;
- a database connection with its open transaction.

Loops are methods whose loop invariants tie them to the function that specifies them.
Two helper modules give Python's semantics:
- `Text`: `str` operations such as `strip`, `split`, `join`, `upper` and `in`, with `upper` and `lower` mapping ASCII letters only.
- `PyDict`: insertion-ordered dictionaries where the last write wins.

The model follows the code. Two behaviours that a reader might not expect:
- The code embeds the query once per pool, not once per search.
- A forbidden SQL keyword is matched as a substring of the upper-cased query, so
  `updated_at` and `created_at` are refused.

## Model

| member | source | states |
|---|---|---|
| QueryClassifier.Tickers | app/src/rag/query_classifier.py:117-119 | the tickers are those of the mentions, in order and one per mention; a mention without a ticker key makes the whole list fail |
| QueryClassifier.Classify | app/src/rag/query_classifier.py:103-136 | a failed call, an undecodable reply, a missing query type, a `null` company list or a mention without a ticker gives the HYBRID fallback with empty lists; otherwise the decoded query type passes through unchecked, a `null` one as `None`, and the tickers follow the mentions |
| CompanyLoader.Lines | etl/utils/company_loader.py:43-46 | one `TICKER: name` line per catalog row, in row order |
| CompanyLoader.FormatCompaniesLines | etl/utils/company_loader.py:32-46 | splitting the listing at newlines gives back exactly one `TICKER: name` line per row, in order; no rows give the empty listing |
| CompanyLoader.Loader.constructor | etl/utils/company_loader.py:15 | the class-level cache starts empty |
| CompanyLoader.Loader.LoadCompanies | etl/utils/company_loader.py:17-55 | a cached listing is returned without reading the database; a successful read is formatted and cached; a failed read gives "" and leaves the cache empty so the next call reads again |
| CompanyLoader.GetCompanyDict | etl/utils/company_loader.py:57-79 | never cached; a failed read gives the empty dictionary; otherwise a ticker is a key exactly when some row has it and maps to the name of its last row |
| SqlGenerator.Labels | app/src/rag/sql_generator.py:454-457 | one `name (ticker)` label per mentioned company, in order |
| SqlGenerator.SchemaContext | app/src/rag/sql_generator.py:453-462 | the prompt opens with the schema text and always ends with the closing instruction; the note between them appears exactly when companies were mentioned and lists their labels |
| SqlGenerator.CleanReply | app/src/rag/sql_generator.py:487-493 | a reply that opens with a fence after stripping comes out with no fence left in it; any other reply is only stripped |
| SqlGenerator.CleanReplyTrimmed | app/src/rag/sql_generator.py:487-493 | the cleaned reply never starts or ends with whitespace |
| SqlGenerator.FencedReply | app/src/rag/sql_generator.py:491-493 | removing every fence and stripping leaves no fence and no surrounding whitespace |
| SqlGenerator.GenerateSql | app/src/rag/sql_generator.py:464-507 | the SQL is missing exactly when the model call raised |
| SqlGenerator.ValidateQuerySafety | app/src/rag/sql_generator.py:602-636 | the keyword scan that stops at the first hit agrees with the gate: opens with SELECT or WITH, no forbidden word anywhere in the upper-cased text, at most one semicolon |
| SqlGenerator.ForbiddenInside | app/src/rag/sql_generator.py:619-628 | a forbidden word in any letter case, anywhere in the text and even inside an identifier, makes the query unsafe |
| SqlGenerator.UpdatedAtUnsafe | app/src/rag/sql_generator.py:619-628 | a query that merely reads an `updated_at` column is refused |
| SqlGenerator.CreatedAtUnsafe | app/src/rag/sql_generator.py:619-628 | a query that merely reads a `created_at` column is refused |
| SqlGenerator.JoinOpens | app/src/rag/sql_generator.py:612-617 | joining a second statement after a semicolon keeps the SELECT/WITH opening |
| SqlGenerator.JoinNoForbiddenWord | app/src/rag/sql_generator.py:619-628 | two statements free of forbidden words stay free of them when joined by a semicolon |
| SqlGenerator.SemicolonJoinSafe | app/src/rag/sql_generator.py:630-634 | the semicolon count lets two safe statements joined by one semicolon through the gate |
| SqlGenerator.Zip | app/src/rag/sql_generator.py:531-532 | Python's `zip`: pairs position by position up to the shorter length |
| SqlGenerator.RowDictDistinct | app/src/rag/sql_generator.py:531-532 | with distinct column names a row maps each column to the value at its position and keeps the column order |
| SqlGenerator.RowDictRepeated | app/src/rag/sql_generator.py:531-532 | a repeated column name is kept once, holding the value of its last column, so the row has fewer keys than columns |
| SqlGenerator.FindForbidden | app/src/rag/sql_generator.py:619-628 | the keyword loop finds a hit exactly when some listed word occurs in the text |
| SqlGenerator.RowsOf | app/src/rag/sql_generator.py:530-532 | the row loop builds the row dictionaries of the result set, in order |
| SqlGenerator.ExecuteSql | app/src/rag/sql_generator.py:509-555 | one row dictionary per returned row, in order, with a matching row count; an error gives no data, no columns, count 0 and the error text |
| SqlGenerator.Query | app/src/rag/sql_generator.py:557-600 | missing or empty SQL stops before validation, unsafe SQL stops before execution, and safe SQL is run with its result forwarded together with the SQL |
| SqlGenerator.Rows | app/src/rag/sql_generator.py:530-532 | one row dictionary per result row, in order |
| SqlGenerator.QueryOutcomeShape | app/src/rag/sql_generator.py:557-600 | every failure carries an error text and no rows; every success carries SQL that passed the gate, no error, and a row count equal to its rows |
| VectorSearcher.TenKChunks | app/src/rag/vector_searcher.py:98-111 | one result per broad 10-K row, in database order, carrying the row's fields; a NULL `fiscal_year` column stays a present key holding `None` |
| VectorSearcher.CompanyChunks | app/src/rag/vector_searcher.py:189-199 | one result per company-scoped row, in order, carrying the requested ticker and no fiscal year |
| VectorSearcher.TranscriptChunks | app/src/rag/vector_searcher.py:270-285 | one result per transcript row, in order, tagged "Earning Call" with its quarter and year |
| VectorSearcher.PassingMembers | app/src/rag/vector_searcher.py:99-101 | a result is kept exactly when its similarity reaches the threshold, and nothing is added |
| VectorSearcher.PassingAppend | app/src/rag/vector_searcher.py:99-101 | the threshold filter keeps database order: it distributes over concatenation |
| VectorSearcher.PassingAll | app/src/rag/vector_searcher.py:99-101 | rows that all pass are kept whole |
| VectorSearcher.TickerFilter | app/src/rag/vector_searcher.py:69-71 | the ticker filter applies exactly when the list is present and non-empty |
| VectorSearcher.Search | app/src/rag/vector_searcher.py:28-121 | the broad 10-K rows at or above the threshold, in database order; `[]` when the search raised |
| VectorSearcher.SearchByCompany | app/src/rag/vector_searcher.py:123-207 | every row the company-scoped search returns, with no threshold; `[]` when it raised |
| VectorSearcher.SearchTranscripts | app/src/rag/vector_searcher.py:209-294 | the transcript rows at or above the threshold, in database order; `[]` when the search raised |
| VectorSearcher.SearchTranscriptsByCompany | app/src/rag/vector_searcher.py:296-372 | the rows of one company's transcripts, still filtered by the threshold |
| VectorSearcher.EmptyTickersLikeNone | app/src/rag/vector_searcher.py:69-71 | the broad searches treat an empty ticker list exactly like no list |
| VectorSearcher.SearchAboveThreshold | app/src/rag/vector_searcher.py:101 | every result of a broad search meets its threshold |
| VectorSearcher.ByCompanyKeepsAll | app/src/rag/vector_searcher.py:189-199 | the company-scoped 10-K search keeps every row whatever its similarity, each with the requested ticker and no fiscal year |
| VectorSearcher.TagAll | app/src/rag/vector_searcher.py:423-426 | each 10-K result is tagged in turn, one for one |
| VectorSearcher.Head | app/src/rag/vector_searcher.py:452 | Python's `s[:n]`: a prefix of length `n` clamped to the list, counting from the end for negative `n` |
| VectorSearcher.InsertPerm | app/src/rag/vector_searcher.py:451 | inserting adds exactly the one element |
| VectorSearcher.SortDescPerm | app/src/rag/vector_searcher.py:451 | the sort is a permutation of its input |
| VectorSearcher.InsertSorted | app/src/rag/vector_searcher.py:451 | insertion keeps a list sorted by decreasing similarity |
| VectorSearcher.SortDescSorted | app/src/rag/vector_searcher.py:451 | the sort's output is ordered by non-increasing similarity |
| VectorSearcher.WithSimilarityAppend | app/src/rag/vector_searcher.py:451 | selecting the results of one similarity distributes over concatenation |
| VectorSearcher.InsertStable | app/src/rag/vector_searcher.py:451 | insertion puts the new element before existing ones of equal similarity |
| VectorSearcher.SortStable | app/src/rag/vector_searcher.py:451 | the sort is stable: results of equal similarity keep their input order |
| VectorSearcher.TagResults | app/src/rag/vector_searcher.py:423-426 | the tagging loop gives the tagged list |
| VectorSearcher.SearchAllSources | app/src/rag/vector_searcher.py:374-452 | each enabled pool searched (company-scoped for exactly one ticker), 10-K results tagged, pools merged 10-K first, sorted and cut to `2 * top_k` |
| VectorSearcher.HeadOfSorted | app/src/rag/vector_searcher.py:452 | the cut keeps a sorted sub-multiset of at most `n` results, the whole list when `n` covers it |
| VectorSearcher.AllSourcesShape | app/src/rag/vector_searcher.py:447-452 | the merged list is sorted by similarity, holds at most `2 * top_k` results, is the front of a reordering of both pools, and is all of them when nothing is cut |
| VectorSearcher.TiesKeepTenKFirst | app/src/rag/vector_searcher.py:424-451 | on equal similarity 10-K results come before transcript results, each in their own order |
| VectorSearcher.UntaggedTenK | app/src/rag/vector_searcher.py:102-111 | results straight from a 10-K search carry no period; company-scoped ones carry no fiscal year either |
| VectorSearcher.TagAllTags | app/src/rag/vector_searcher.py:423-426 | tagging untagged results gives "10-K Filing" and the period of their fiscal year |
| VectorSearcher.TenKPoolTags | app/src/rag/vector_searcher.py:406-427 | every 10-K result is tagged with its source and fiscal-year period, which is "FY N/A" for a single-company search (its results have no `fiscal_year` key) |
| VectorSearcher.NullYearTagged | app/src/rag/vector_searcher.py:423-426 | a broad 10-K row with a NULL fiscal year that meets the threshold reaches the pool tagged "FY None", not "FY N/A", because the key is present |
| VectorSearcher.TranscriptPoolTags | app/src/rag/vector_searcher.py:429-447 | every transcript result is tagged "Earning Call" with its quarter and year |
| VectorSearcher.Dispatch | app/src/rag/vector_searcher.py:403-447 | exactly one ticker routes both pools to the company-scoped searches (the 10-K one without a threshold), otherwise to the broad ones; a disabled or failed pool contributes nothing and leaves the other unaffected |
| ResponseGenerator.Take | app/src/rag/response_generator.py:41 | Python's `s[:n]` for non-negative `n`: the first `min(n, len)` elements |
| ResponseGenerator.AppendRows | app/src/rag/response_generator.py:41-42 | the numbering loop appends exactly the numbered lines of the rows, numbered from 1 |
| ResponseGenerator.NumberedLinesBreaks | app/src/rag/response_generator.py:41-42 | when no row's text holds a line break, the numbered rows hold exactly one line break per row |
| ResponseGenerator.SqlSummary | app/src/rag/response_generator.py:40-45 | the digest built step by step is the count line, the first ten rows and the note of the rest |
| ResponseGenerator.SqlDigestEnding | app/src/rag/response_generator.py:40-45 | the digest ends in a line break exactly when there are at most ten rows, and otherwise with "... and n more results" |
| ResponseGenerator.DigestHeadBreaks | app/src/rag/response_generator.py:40 | the count line holds exactly one line break |
| ResponseGenerator.MoreLineBreaks | app/src/rag/response_generator.py:44-45 | the note of the remaining rows holds no line break |
| ResponseGenerator.SqlDigestLines | app/src/rag/response_generator.py:40-45 | the digest has one line for the count and one per listed row: at most ten rows are listed |
| ResponseGenerator.SqlDigestFirstTen | app/src/rag/response_generator.py:41 | rows after the tenth change only the count and the note, never what is listed |
| ResponseGenerator.GenerateFromSql | app/src/rag/response_generator.py:23-89 | no rows gives the fixed message without asking the model; otherwise the model answers from the digest, and a raised call gives the fixed error message |
| ResponseGenerator.Heading | app/src/rag/response_generator.py:109-120 | an earnings-call result is introduced by its quarter; anything else as a 10-K section, the default |
| ResponseGenerator.CallHeadingPeriod | app/src/rag/response_generator.py:112-116 | the heading of a call result opens with the same period text as its `source_period` tag |
| ResponseGenerator.BuildVectorContext | app/src/rag/response_generator.py:107-122 | the context loop gives the numbered entries of the first five results |
| ResponseGenerator.SourceEntriesHold | app/src/rag/response_generator.py:108-122 | every listed result's entry, with its number, is in the context |
| ResponseGenerator.VectorContextShape | app/src/rag/response_generator.py:108-122 | the context holds each of the first five results numbered from 1 and depends on nothing after the fifth |
| ResponseGenerator.GenerateFromVectors | app/src/rag/response_generator.py:91-156 | no results gives the fixed message; otherwise the model answers from the context, or the fixed error message when it raised |
| ResponseGenerator.Excerpt | app/src/rag/response_generator.py:201 | an excerpt is the first 300 characters of the text followed by "..." |
| ResponseGenerator.BuildSqlSection | app/src/rag/response_generator.py:179-183 | the hybrid SQL section built step by step: empty without rows, else a count and the first five rows |
| ResponseGenerator.BuildContextSection | app/src/rag/response_generator.py:186-201 | the hybrid context section built step by step: empty without results, else the first three as excerpts |
| ResponseGenerator.HybridSectionsEmpty | app/src/rag/response_generator.py:179-188 | each hybrid section is empty exactly when its input is empty |
| ResponseGenerator.HybridRowLines | app/src/rag/response_generator.py:182-189 | the hybrid SQL section lists at most five rows, one line each |
| ResponseGenerator.HybridContextPrefix | app/src/rag/response_generator.py:182-189 | the hybrid context section depends on no result after the third |
| ResponseGenerator.GenerateHybridResponse | app/src/rag/response_generator.py:158-237 | the model is always asked, with the question and both sections, even when both are empty; a raised call gives the fixed error message |
| Orchestrator.AbsentMembers | app/src/rag/orchestrator.py:117 | a mentioned ticker is reported invalid exactly when the catalog lacks it |
| Orchestrator.AbsentAppend | app/src/rag/orchestrator.py:117 | the invalid list keeps the order of the mentions |
| Orchestrator.Examples | app/src/rag/orchestrator.py:126-127 | at most five examples, the first catalog entries, each as `name (ticker)` |
| Orchestrator.Validate | app/src/rag/orchestrator.py:106-139 | no mentions always pass; a rejection is a VALIDATION_FAILED envelope that does not succeed |
| Orchestrator.ValidationGate | app/src/rag/orchestrator.py:116-137 | mentions fail exactly when one is missing from the catalog, and the envelope lists exactly those, in the order mentioned, with at most five examples |
| Orchestrator.FailedReadRejects | app/src/rag/orchestrator.py:116-137 | a failed catalog read rejects every mentioned ticker and offers no example |
| Orchestrator.Names | app/src/rag/orchestrator.py:90-102 | each ticker with its catalog name, or with itself as the name when the catalog lacks it, one per ticker in order |
| Orchestrator.NormalizeCompanies | app/src/rag/orchestrator.py:73-104 | no tickers give no companies without reading the catalog; otherwise the named tickers |
| Orchestrator.SmartVectorSearch | app/src/rag/orchestrator.py:332-381 | both pools are searched with the default thresholds and the breadth chosen from the number of tickers |
| Orchestrator.BreadthPolicy | app/src/rag/orchestrator.py:343-377 | one ticker gives the company-scoped searches and at most 10 results; several give the broad searches filtered to them and at most 20; none give the unfiltered searches and at most 20; results are sorted by similarity |
| Orchestrator.SourcesOf | app/src/rag/orchestrator.py:227-243 | one citation per result, in order |
| Orchestrator.BuildSources | app/src/rag/orchestrator.py:226-243 | the citation loop cites the first five results |
| Orchestrator.CitationOfTags | app/src/rag/orchestrator.py:230-241 | a call result is cited by its period and "Earnings Call", with its speaker exactly when it names a non-empty one; a 10-K result as a "10-K Filing" by its section label |
| Orchestrator.QuantitativeEnvelope | app/src/rag/orchestrator.py:152-185 | the quantitative handler ends in SQL_EXECUTION_FAILED, NO_DATA_FOUND or success |
| Orchestrator.HandleQuantitative | app/src/rag/orchestrator.py:141-194 | the handler's envelope for the normalised companies and the SQL result |
| Orchestrator.QuantitativeOutcomes | app/src/rag/orchestrator.py:152-185 | a failed SQL stage ends the answer with the backend's error text; a run without rows is NO_DATA_FOUND; success exactly when rows came back, with their count |
| Orchestrator.QualitativeEnvelope | app/src/rag/orchestrator.py:204-251 | the qualitative handler ends in NO_RELEVANT_INFO or success |
| Orchestrator.HandleQualitative | app/src/rag/orchestrator.py:196-260 | the handler's envelope for the search results |
| Orchestrator.QualitativeOutcomes | app/src/rag/orchestrator.py:204-251 | no results is NO_RELEVANT_INFO, naming the tickers when there are any; otherwise at most five citations, one per leading result, and a count of all results |
| Orchestrator.HybridEnvelope | app/src/rag/orchestrator.py:274-321 | the hybrid handler ends in NO_DATA or success |
| Orchestrator.HandleHybrid | app/src/rag/orchestrator.py:262-330 | SQL first, then the search, then one combined answer |
| Orchestrator.HybridOutcomes | app/src/rag/orchestrator.py:274-321 | NO_DATA exactly when the SQL stage failed and the search found nothing; a successful SQL stage always succeeds with its rows, even without rows or results |
| Orchestrator.Query | app/src/rag/orchestrator.py:25-71 | the pipeline run step by step is the pipeline value |
| Orchestrator.Routing | app/src/rag/orchestrator.py:38-60 | an invalid mention stops the query before any handler; a valid one goes to the handler of its query type |
| Orchestrator.UnknownRouting | app/src/rag/orchestrator.py:53-67 | UNKNOWN exactly for a valid query whose type is none of the three |
| Orchestrator.NullQueryType | app/src/rag/orchestrator.py:40-67 | a reply whose query type is `null` is no fallback: with no company mentioned it is answered as UNKNOWN |
| Orchestrator.HandleSystemError | app/src/rag/orchestrator.py:383-439 | a system error never succeeds and carries no query type |
| Orchestrator.FirstMatch | app/src/rag/orchestrator.py:390-439 | each error kind is chosen exactly when its words occur in the lower-cased message and no earlier kind's do |
| Orchestrator.InsufficientQuotaSubsumed | app/src/rag/orchestrator.py:401 | the "insufficient_quota" test adds nothing to the "quota" test |
| Orchestrator.ErrorKindIgnoresCase | app/src/rag/orchestrator.py:390 | the classification of an error ignores letter case |
| RateLimiter.TotalRemove | app/src/auth/rate_limiter.py:49-55 | the address-wide sum does not depend on the order the rows are visited in |
| RateLimiter.TotalUpdate | app/src/auth/rate_limiter.py:49-55 | writing one row changes the address-wide sum by the difference of its old and new shares |
| RateLimiter.TotalDelete | app/src/auth/rate_limiter.py:188-191 | deleting one row takes exactly its share out of the sum |
| RateLimiter.Sessions.constructor | app/src/auth/rate_limiter.py:13-18 | the quota table starts empty |
| RateLimiter.Sessions.IpCount | app/src/auth/rate_limiter.py:49-55 | one pass over the rows gives `SUM(query_count)` of the address's rows for today, 0 when there are none |
| RateLimiter.Sessions.CheckAndIncrement | app/src/auth/rate_limiter.py:20-117 | the session limit is checked before the address limit and a refused call writes nothing; an allowed call adds one to the session's row for today, creating it with the caller's address, and reports both counts plus one; a database failure lets the query through with zero counts; no session ever passes 30 |
| RateLimiter.Sessions.UsageStats | app/src/auth/rate_limiter.py:119-169 | today's count and the last query time of the session's row, the remaining queries clamped at zero and adding up to the limit; a missing row or a failure reads as an unused session |
| RateLimiter.Sessions.ResetSession | app/src/auth/rate_limiter.py:171-201 | removes only the session's row for today and reports whether the database answered |
| RateLimiter.AllowedCountsOnce | app/src/auth/rate_limiter.py:78-96 | an allowed query adds one to the day's total of the address stored in the session's row and to no other address's total |
| RateLimiter.UsageAgreesWithLimit | app/src/auth/rate_limiter.py:150 | the remaining count reaches zero exactly when the next query would be refused for its session |
| UserSession.CreateSession | app/src/auth/user_session.py:16-49 | inserts today's row with a zero count unless one exists, keeps every session within its limit, and reports whether the database answered |
| UserSession.Created | app/src/auth/user_session.py:34-38 | the session then has a row for today; an existing row is left as it is and no other row is touched |
| UserSession.CreateIdempotent | app/src/auth/user_session.py:37 | creating a session twice is the same as creating it once, whatever the second call's address and time |
| UserSession.CreateCountsNothing | app/src/auth/user_session.py:34-38 | creating a session adds nothing to any address's count for the day |
| UserSession.SessionInfoOf | app/src/auth/user_session.py:51-92 | today's row of the session exactly when it exists and the database answered, with its fields |
| UserSession.CreatedIsFound | app/src/auth/user_session.py:34-38 | a freshly created session is found with a zero count and the creating address |
| EmbedTranscripts.LinesInOrder | etl/embed_transcripts.py:51 | line `k` of a chunk is `[speaker]: content` of paragraph `k`, in the original order |
| EmbedTranscripts.PickIsMax | etl/embed_transcripts.py:59 | the pick is one of the candidates and no candidate occurs more often |
| EmbedTranscripts.MostFrequentIsMode | etl/embed_transcripts.py:59 | the primary speaker is a speaker of the chunk that no other speaker outnumbers |
| EmbedTranscripts.PerChunk | etl/embed_transcripts.py:44 | the chunk size is at least 1, and `n // target` once there are at least `target` paragraphs |
| EmbedTranscripts.SmartChunkTranscript | etl/embed_transcripts.py:29-71 | the one-pass loop gives the chunked transcript: no paragraphs give no chunks |
| EmbedTranscripts.ChunkEvery | etl/embed_transcripts.py:46-68 | the loop that closes a chunk when it is full or the paragraphs end gives one chunk per window of `size` consecutive paragraphs |
| EmbedTranscripts.LoopStep | etl/embed_transcripts.py:50-68 | one turn of the loop keeps the relation between the closed chunks, the open chunk and the windows still to come |
| EmbedTranscripts.LoopDone | etl/embed_transcripts.py:50-71 | when the paragraphs run out every chunk is closed |
| EmbedTranscripts.CloseChunk | etl/embed_transcripts.py:55-68 | closing a full (or final) chunk moves it from the windows still to come to the chunks made |
| EmbedTranscripts.ChunkedStep | etl/embed_transcripts.py:55-68 | a closed window is taken off the front of what remains |
| EmbedTranscripts.ChunkCounts | etl/embed_transcripts.py:64 | a chunk's `paragraph_count` is the number of paragraphs it was made from |
| EmbedTranscripts.WindowsCeil | etl/embed_transcripts.py:44-55 | the number of windows is `ceil(n / size)` |
| EmbedTranscripts.ChunkedCount | etl/embed_transcripts.py:50-68 | there is one chunk per window |
| EmbedTranscripts.ChunkedAt | etl/embed_transcripts.py:50-68 | chunk `k` is made from the `k`-th window of consecutive paragraphs, cut short by the end |
| EmbedTranscripts.ChunkedSizes | etl/embed_transcripts.py:55-64 | all chunks but the last hold exactly `size` paragraphs, and the last holds between 1 and `size` |
| EmbedTranscripts.ChunkedTotal | etl/embed_transcripts.py:50-68 | the paragraph counts add up to the number of paragraphs |
| EmbedTranscripts.SmartChunksShape | etl/embed_transcripts.py:40-68 | no chunks exactly when there are no paragraphs; otherwise `ceil(n / size)` chunks, all but the last full, and every paragraph counted once |
| EmbedTranscripts.SmartChunksAt | etl/embed_transcripts.py:50-68 | chunk `k` holds paragraphs `k * size` up to the next window, in order |
| EmbedTranscripts.HundredParagraphs | etl/embed_transcripts.py:44-55 | 100 paragraphs with the default target of 30 give 34 chunks, more than the target |
| EmbedTranscripts.GenerateEmbeddingsBatch | etl/embed_transcripts.py:74-106 | the batch loop gives the batch-by-batch result: consecutive slices, the vectors of each answered batch and one `None` per text of each failed one |
| EmbedTranscripts.EmbeddedLength | etl/embed_transcripts.py:85-106 | one entry per text, when the service answers each batch with one vector per text |
| EmbedTranscripts.FailedBatchHoles | etl/embed_transcripts.py:101-104 | a failed batch contributes exactly one `None` per text in it |
| EmbedTranscripts.ChunkTable.constructor | etl/embed_transcripts.py:130-134 | the `transcript_chunks` table starts empty |
| EmbedTranscripts.ChunkTable.SaveChunks | etl/embed_transcripts.py:109-158 | on success the table is upserted with the pairs of `zip(chunks, embeddings)`, skipping missing vectors; on failure nothing is committed |
| EmbedTranscripts.UpsertedRows | etl/embed_transcripts.py:125-149 | position `i` of the list is stored under chunk index `i` exactly when it has a vector; every other row is as before and no other row appears |
| Processors.ChunkText | etl/src/processors.py:104-143 | the window loop gives the section's chunks; with tokens to chunk it ends only when the size exceeds the overlap |
| Processors.ChunkTextStep | etl/src/processors.py:126-141 | emitting the chunk of the current window moves on to the window `size - overlap` later and the next chunk index |
| Processors.ChunksFromAt | etl/src/processors.py:126-141 | one chunk per window; chunk `k` is numbered `k` (from the first index), decoded from the `k`-th window and carries the section's tag |
| Processors.WindowsShape | etl/src/processors.py:126-141 | the windows start at 0, each later one `size - overlap` after the one before, each holds `size` tokens unless the tokens end first, and the last one reaches the end; none exactly when there are no tokens |
| Processors.WindowsCover | etl/src/processors.py:126-141 | every token lies in some window |
| Processors.WindowsOverlap | etl/src/processors.py:127-141 | a full window shares its last `overlap` tokens with the next one |
| Processors.WindowsRedundantTail | etl/src/processors.py:126-141 | a window that reaches the end is not always the last: the next one lies entirely inside it |
| Processors.WindowStart | etl/src/processors.py:126-141 | window `k` starts at `k * (size - overlap)` |
| Processors.SixHundredTokens | etl/src/processors.py:126-141 | with the default sizes 600 tokens give two windows, 0-599 and 500-599 |
| Processors.NoTokensNoChunks | etl/src/processors.py:126 | no tokens give no chunks |
| Processors.KeptSections | etl/src/processors.py:74-86 | at most one record per section, and no record exactly when no section has a priority label |
| Processors.KeptSectionsAppend | etl/src/processors.py:74-86 | the records of two section lists, one after the other, are the records of each in turn |
| Processors.KeptChunks | etl/src/processors.py:74-96 | a document without a priority section gives no chunk |
| Processors.Process10kSections | etl/src/processors.py:56-101 | the loop returns the kept records and the chunk list that `KeptSections` and `KeptChunks` define, whose properties the lemmas below state |
| Processors.KeptPositionsIncrease | etl/src/processors.py:74-86 | kept sections keep their input order |
| Processors.KeptPositionsExact | etl/src/processors.py:75-76 | a section is kept exactly when its label is a priority section |
| Processors.KeptAtPositions | etl/src/processors.py:74-86 | kept record `k` is the record of the `k`-th kept section, one for one |
| Processors.KeptAreRecords | etl/src/processors.py:78-85 | every kept record has a priority label and a content length equal to its content's length |
| Processors.KeptChunksAppend | etl/src/processors.py:88-96 | the chunk list is the concatenation of the per-section chunks in section order |
| Processors.KeptChunksTagged | etl/src/processors.py:88-96 | every chunk comes from a priority section and carries its id and label and the document's ticker and fiscal year |
| Processors.CompanyOf | etl/src/processors.py:26-32 | the company record copies id, ticker, name and ISIN, and the currency defaults to "USD" |
| Processors.StampedRows | etl/src/processors.py:40-43 | stamping keeps every row and every field except `ticker`, which it sets to the company's ticker |
| Processors.StatementPairs | etl/src/processors.py:35-45 | one pair per statement of the response |
| Processors.StampRows | etl/src/processors.py:40-43 | the inner loop gives the rows of one statement with the ticker set |
| Processors.StatementsStep | etl/src/processors.py:35-45 | assigning one more statement extends the dictionary built from those before it |
| Processors.ProcessSimfinData | etl/src/processors.py:14-53 | the loop gives the company record and the statements dictionary |
| Processors.StatementPairsAt | etl/src/processors.py:35-45 | pair `k` is statement `k`'s type with its rows stamped |
| Processors.StatementsLastWins | etl/src/processors.py:45 | each type maps to the stamped rows of its last statement: a later statement of a type replaces an earlier one |
| Processors.StatementsKeys | etl/src/processors.py:34-45 | a type is a key exactly when some statement of the response has it |
| Database.Assignments | etl/src/database.py:92-93 | one `col = EXCLUDED.col` assignment per updatable column, in order |
| Database.Upsert | etl/src/database.py:84-103 | the statement for a record lists the record's columns in order with the value of each column at the same position |
| Database.UpdatableExact | etl/src/database.py:92-93 | a column is updated on conflict exactly when the record has it and it is not one of the four key columns |
| Database.UpdatableAppend | etl/src/database.py:92-93 | the update clause keeps column order |
| Database.FallbackClause | etl/src/database.py:94 | a record with key columns only falls back to `ticker = EXCLUDED.ticker` |
| Database.KeyColumnsOnly | etl/src/database.py:92-94 | key columns only leave nothing to update |
| Database.PlaceholderCount | etl/src/database.py:89 | the placeholder list holds exactly one `%s` per column |
| Database.Upserts | etl/src/database.py:82-103 | one statement per record |
| Database.AcceptedAppend | etl/src/database.py:36-75 | a list of writes is accepted exactly when both of its parts are |
| Database.Connection.constructor | etl/src/database.py:14-21 | a fresh connection has nothing committed and no open transaction |
| Database.Connection.Execute | etl/src/database.py:103 | an accepted statement joins the open transaction; a refused one raises and adds nothing; nothing is committed |
| Database.Connection.Commit | etl/src/database.py:69 | the open transaction is appended to what is committed |
| Database.Connection.Rollback | etl/src/database.py:73 | the open transaction is discarded and the committed statements stay as they were |
| Database.ExecuteEach | etl/src/database.py:82-103 | statements run in order, stopping at the first refused one; success exactly when all are accepted |
| Database.StoreRecords | etl/src/database.py:77-182 | the four `_store_*` writers, differing only in the table: no records issue nothing, otherwise one upsert per record in order, and success exactly when all are accepted |
| Database.Mapped | etl/src/database.py:51-66 | one mapped record per row of a statement type, in order |
| Database.StoreKind | etl/src/database.py:50-67 | the records of one statement type are written when the type is present, nothing otherwise |
| Database.StoreSimfinData | etl/src/database.py:24-75 | the company and the four statement types in order, committed together after the last write; the first refused write rolls everything back and leaves no open transaction |
| Database.StoreKinds | etl/src/database.py:49-67 | the statement types are written in turn: success exactly when every write of every type is accepted, and then exactly those writes join the transaction |
| Database.KindsStep | etl/src/database.py:49-67 | the writes for one more statement type follow those of the types before it |
| Database.KindsPrefix | etl/src/database.py:49-67 | a run accepted in full is accepted on every prefix of the statement types, so a refused write stops the run for good |
| Database.Texts | etl/src/database.py:254 | the texts of a batch, one per chunk in order |
| Database.Paired | etl/src/database.py:263 | `zip(batch, response.data)`: chunk `k` with vector `k`, as many as the shorter list |
| Database.BatchesCover | etl/src/database.py:252-254 | the batches cover every chunk text once, in order; all but the last hold 100 texts and the last between 1 and 100 |
| Database.InsertsCoverChunks | etl/src/database.py:252-277 | when the API answers one vector per text, there is one embedding insert per chunk, in order |
| Database.BatchPairing | etl/src/database.py:256-277 | the inserts of a batch pair each chunk with the vector at its place in the batch, after the inserts of the batches before it |
| Database.StoreEmbeddings | etl/src/database.py:250-279 | the batch loop succeeds exactly when every API call answers and every insert is accepted, and then adds exactly those inserts to the transaction |
| Database.LoopStart | etl/src/database.py:252 | the batch-loop invariant holds before the first batch |
| Database.LoopEnd | etl/src/database.py:252-279 | when the chunks run out the inserts made are all the inserts |
| Database.FailedCall | etl/src/database.py:257-260 | a raising embedding call fails the whole store |
| Database.BatchDone | etl/src/database.py:263-277 | a batch written in full moves the loop to the next batch |
| Database.FailedInsert | etl/src/database.py:263-277 | a refused insert in any batch fails the whole store |
| Database.SectionInserts | etl/src/database.py:235-248 | one insert per priority section |
| Database.Store10kData | etl/src/database.py:185-287 | the document, the delete of its old sections, the sections and the embedded chunks in one transaction, committed after the last insert; a raising call or a refused write rolls everything back |
| Database.DocumentStatements | etl/src/database.py:200-248 | the document upsert, the id read-back, the delete and the section inserts, in order, stopping at the first refused one |
| Fetchers.FirstRun | etl/src/fetchers.py:165 | a match found by the search is a run of eight decimal digits at or after the start |
| Fetchers.FirstRunLeftmost | etl/src/fetchers.py:165 | the search finds the leftmost run of eight digits, and reports none only when the name holds no such run |
| Fetchers.DigitsValueBound | etl/src/fetchers.py:167 | `int()` of `n` digits is below `10^n` |
| Fetchers.FiscalYearFound | etl/src/fetchers.py:154-168 | a year is found exactly when the file name holds eight consecutive digits; it is the first four digits of the leftmost such run, between 0 and 9999 |
| Fetchers.AppleExample | etl/src/fetchers.py:156 | the documented example `aapl-20250927.htm` gives 2025 |
| Fetchers.SelectFirst | etl/src/fetchers.py:112-116 | the document taken is the first with form type and description `10-K`; none is taken exactly when no document has both |
| Fetchers.LookupRequest | etl/src/fetchers.py:87-98 | the lookup uses the given key, or key 1 when none is given, and asks for one `10-K` of the ticker |
| Fetchers.FetchLatest10k | etl/src/fetchers.py:75-151 | `None` exactly on its five paths: the lookup raises, the filing count is missing or 0, the first filing has no main document, that document has no id, or the sections request raises; an uncaught error exactly when the filing count is not missing or 0 (a `null` count lets the call go on) but the list is empty; a filing exactly in every other case, and then it carries the first filing's accession number, the first main document's id, name and size, the year read from its name and the sections answered |
| Fetchers.NoMainDocument | etl/src/fetchers.py:112-120 | a filing with no main document, or whose first main document has an empty id, gives `None` even when a later document would match |
| Load10kFull.SliceStart | etl/scripts/load_10k_full.py:80 | `tickers[start_from:]` starts inside the list, and at `start_from` itself when that lies inside |
| Load10kFull.LoadAll | etl/scripts/load_10k_full.py:70-180 | the loop ends with the stats and the break position of the per-company step run from the resume point; the summary reports completeness exactly when loaded plus skipped equals the number of companies |
| Load10kFull.StepCounts | etl/scripts/load_10k_full.py:86-149 | a pass that does not break adds one to exactly one outcome counter; skips and failed existence checks use no calls; a fetch that returns charges two calls to its own key and a raising one none; the other key never moves; a pass breaks exactly when it needs a fetch and the budget test refuses it |
| Load10kFull.OneOutcomeEach | etl/scripts/load_10k_full.py:80-149 | every company handled before the loop ends is counted exactly once |
| Load10kFull.CompleteMeansNoLosses | etl/scripts/load_10k_full.py:176-180 | a run reported complete started at the first company, was not broken off and has no failure and no missing filing |
| Load10kFull.CompleteFrom | etl/scripts/load_10k_full.py:176-180 | the same, from any resume point |
| Load10kFull.AsWrittenBound | etl/scripts/load_10k_full.py:105-121 | with the script's test a key's calls stay within the limit plus one, and no tighter bound holds (see `LimitOvershoot`) |
| Load10kFull.FitsStaysWithinLimit | etl/scripts/load_10k_full.py:98-121 | with a test that the whole two-call fetch fits, a key's calls never pass the daily limit |
| Load10kFull.KeyOneCharges | etl/scripts/load_10k_full.py:94-121 | companies of key 1 that each need a fetch and pass the test each add two calls to key 1 and none to key 2 |
| Load10kFull.LimitOvershoot | etl/scripts/load_10k_full.py:105-121 | as written, 48 companies that each need a fetch take key 1 to 96 calls, over the limit of 95 |
| Load10kFull.StopsAtFortyNine | etl/scripts/load_10k_full.py:94-109 | as written, with nothing already loaded the run breaks at company 49 and never uses key 2 |
| Load10kFull.PrefixRun | etl/scripts/load_10k_full.py:80 | the loop over a prefix that does not break agrees with the loop over the whole list up to the prefix's end |

## Left out

- The LLM calls are oracle parameters: classification, SQL generation and answer wording. So are the embedding API, pgvector's cosine distance and Postgres execution of generated SQL. Their behaviour is not visible in this repository.
- The prompt texts are opaque strings, except where the code branches on what goes into them. This covers the schema prompt of `_get_schema_context` and the answer prompts of the response generator.
- Similarity is a whole number of ten-thousandths, not a float. `round(similarity, 4)` is not modelled, because it is floating point. The thresholds 0.45, 0.55 and 0.58 become 4500, 5500 and 5800.
- The company-scoped search's optional section filter is not modelled. No caller in the pipeline passes one.
- The `PROCESSING_ERROR` envelopes of the orchestrator are not modelled. Every service it calls catches its own errors, so in the model no exception reaches those handlers.
- `check_and_increment` reads and then writes without a lock. Concurrent requests are not modelled: each call is atomic.
- EmbedTranscripts.MostFrequentIsMode: states that the primary speaker has the highest count in the chunk. Among tied speakers, `max(set(current_speakers), key=current_speakers.count)` returns whichever the set yields first, which depends on the string-hash seed and so is unspecified. The model's `MostFrequent` always names the tied speaker who speaks first in the chunk. That is one admissible choice, and `ChunkOf` and `SmartChunksAt` state it as the primary speaker.
- `fetchers.RateLimiter.wait` is not modelled. It depends on the wall clock and on `time.sleep`.
- Network and file I/O are not modelled: `fetch_simfin_data`, the HTTP requests and timeouts of `fetch_latest_10k`, and the JSON reads and writes of the transcript drivers. Answers are parameters, with `None` for a request that raised.
- `map_record` (`src/column_mapping`) is an oracle from a raw row to a record. It is not part of this model.
- tiktoken's `encode` and `decode` are oracles over an abstract token type.
- The drivers `process_transcript` and `embed_all_transcripts` are not modelled. They only read files and call the modelled chunking, embedding and saving steps. The same goes for `fetch_latest_transcripts.py`, `load_simfin.py` and `load_10k_test.py`.
- Processors.ChunkText: requires `CHUNK_SIZE > CHUNK_OVERLAP` when there are tokens. Otherwise the source's loop never ends. The configured values, 600 and 100, meet this.
- Processors.ProcessSimfinData: the source stamps `ticker` onto the input rows in place, so the caller's dictionaries change too. The model returns stamped copies, and this aliasing is not captured.
- A SimFin `currency` that is JSON `null` is not modelled. The model's field is either present or absent. An explicit `null` would pass through as `None` in the source.
- SqlGenerator.ValidateQuerySafety: the query is upper-cased on ASCII letters only. Python's `str.upper()` also maps other letters, some of them to ASCII ones (`ſ` to `S`, `ı` to `I`, `ß` to `SS`). So `SELECT 1 WHERE x = 'inſert'` is refused by the code but passes the model's scan, and `ſelect 1` is accepted by the code but refused by the model. Full Unicode case mapping, which can also change a string's length, is not modelled.
- Orchestrator.HandleSystemError: the error message is lower-cased on ASCII letters only. Python's `str.lower()` also maps other letters, such as the Kelvin sign `K` (U+212A) to `k`. A message that spells a keyword with such letters gets a different error kind in the model.
- QueryClassifier.Classify: a mention whose `ticker` is JSON `null` is read as a mention without a ticker, which gives the fallback. The code puts `None` into `mentioned_tickers` and goes on.
- `re.search(r'\d')` also matches non-ASCII decimal digits. The model reads only `'0'`..`'9'`.
- Exception logging is not modelled: `fetch_latest_10k`, the progress lines and the summary printout of `load_10k_full.py`.
- The `SELECT document_id` read-back of `store_10k_data` returns the id of the document just upserted. Other rows of the table are not modelled.
- After a refused statement, nothing more is modelled on the connection. The store functions roll back and re-raise at once.
- The OpenAI client creation of each class is not modelled, nor the early returns of `main` when an API key is missing or the database connection fails. The calls that may fail are parameters.
- `check_10k_exists` is an oracle per company: it answers yes or no, or raises.
- `etl/src/utils.py`, `etl/config/settings.py` and the connection helpers are not part of this model. The settings' constants are used as given: `CHUNK_SIZE` 600, `CHUNK_OVERLAP` 100, `EMBEDDING_BATCH_SIZE` 100, `SECBLAST_DAILY_LIMIT_PER_KEY` 95, and the priority section labels.
- `app/streamlit_app.py` and `app/test_rag_backend.py` are not part of this model. They are UI and a live integration script.

## Findings

| source | as written | input that shows it | evidently intended | confidence | as-written member | corrected member |
|---|---|---|---|---|---|---|
| etl/scripts/load_10k_full.py:106-121 | the budget test `current_calls >= call_limit` looks at the counter before a fetch that is charged two calls | 48 key-1 companies that each need a fetch, with no skips or exceptions: the 48th passes the test at 94 calls and key 1 ends at 96, over `SECBLAST_DAILY_LIMIT_PER_KEY` = 95 (`StopsAtFortyNine`: the run then breaks at company 49) | a key never spends more than its daily limit; test that the whole fetch fits, `calls + 2 <= limit` | medium, not executed | Load10kFull.LimitOvershoot | Load10kFull.FitsStaysWithinLimit |
