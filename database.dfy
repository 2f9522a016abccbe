/**
 * The writes of etl/src/database.py: the upsert statement built for each
 * mapped SimFin record, the statements of a 10-K load with its embedding
 * batches, and the transaction that commits them together or not at all.
 * Postgres is a log of statements it accepts or rejects; the embedding API
 * and `map_record` are parameters.
 */
module Database {
  import opened Wrappers
  import opened PyDict
  import opened Processors
  import Text
  import EmbedTranscripts
  import Fetchers

  /** `EMBEDDING_BATCH_SIZE` */
  const EmbeddingBatchSize: nat := 100

  /** The conflict key of the four statement tables; these columns are never updated. */
  const UniqueKey: seq<string> := ["ticker", "fiscal_period", "fiscal_year", "report_date"]

  /** A statement sent to the database, by its parameters. */
  datatype Statement =
    | UpsertCompany(company: CompanyData)
    | UpsertRecord(table: string, columns: seq<string>, columnList: string, placeholders: string,
                   update: string, values: seq<Value>)
    | UpsertDocument(ticker: string, accessionNumber: string, documentId: string,
                     fiscalYear: Option<int>, fileName: string, size: int)
    | SelectDocumentId(ticker: string)
    | DeleteSections(documentId: string)
    | InsertSection(documentId: string, section: SectionRecord)
    | InsertEmbedding(chunk: TenKChunk, embedding: EmbedTranscripts.Embedding)

  // ------------------------------------------------------------ upsert statements

  /** `"col = EXCLUDED.col"` */
  function Assignment(col: string): string
  {
    col + " = EXCLUDED." + col
  }

  /** The columns the conflict clause updates, in column order. */
  function Updatable(columns: seq<string>): seq<string>
  {
    if columns == [] then []
    else (if columns[0] in UniqueKey then [] else [columns[0]]) + Updatable(columns[1..])
  }

  function Assignments(cols: seq<string>): (r: seq<string>)
    ensures |r| == |cols| && forall i :: 0 <= i < |cols| ==> r[i] == Assignment(cols[i])
  {
    seq(|cols|, i requires 0 <= i < |cols| => Assignment(cols[i]))
  }

  /** The `DO UPDATE SET` clause, with the fallback when only key columns are present. */
  function UpdateClause(columns: seq<string>): string
  {
    var fields := Updatable(columns);
    if fields == [] then Assignment("ticker") else Text.Join(", ", Assignments(fields))
  }

  /** `', '.join(['%s'] * n)` */
  function Placeholders(n: nat): string
  {
    Text.Join(", ", seq(n, _ => "%s"))
  }

  /** The statement `_store_*` issues for one mapped record. */
  function Upsert(table: string, record: Dict<string, Value>): (s: Statement)
    requires record.Valid()
    ensures s.UpsertRecord? && s.table == table && s.columns == record.keys
    ensures |s.values| == |s.columns| && forall i :: 0 <= i < |s.columns| ==> s.values[i] == record.values[s.columns[i]]
  {
    var columns := record.keys;
    UpsertRecord(table, columns, Text.Join(", ", columns), Placeholders(|columns|), UpdateClause(columns),
                 seq(|columns|, i requires 0 <= i < |columns| => record.values[columns[i]]))
  }

  /** A column is updated exactly when the record has it and it is not part of the conflict key. */
  lemma {:induction false} UpdatableExact(columns: seq<string>)
    ensures forall c :: c in Updatable(columns) <==> c in columns && c !in UniqueKey
  {
    if columns != [] {
      UpdatableExact(columns[1..]);
      assert columns == [columns[0]] + columns[1..];
    }
  }

  /** The filter keeps column order: it distributes over concatenation. */
  lemma {:induction false} UpdatableAppend(a: seq<string>, b: seq<string>)
    ensures Updatable(a + b) == Updatable(a) + Updatable(b)
  {
    if a == [] {
      assert a + b == b;
    } else {
      assert (a + b)[0] == a[0] && (a + b)[1..] == a[1..] + b;
      UpdatableAppend(a[1..], b);
    }
  }

  /** A record with key columns only still gets a valid clause: it reassigns the ticker. */
  lemma FallbackClause(columns: seq<string>)
    requires forall i :: 0 <= i < |columns| ==> columns[i] in UniqueKey
    ensures UpdateClause(columns) == "ticker = EXCLUDED.ticker"
  {
    KeyColumnsOnly(columns);
  }

  lemma {:induction false} KeyColumnsOnly(columns: seq<string>)
    requires forall i :: 0 <= i < |columns| ==> columns[i] in UniqueKey
    ensures Updatable(columns) == []
  {
    if columns != [] {
      KeyColumnsOnly(columns[1..]);
    }
  }

  /** `Join` over a list with a head. */
  lemma JoinCons(sep: string, x: string, rest: seq<string>)
    requires rest != []
    ensures Text.Join(sep, [x] + rest) == x + sep + Text.Join(sep, rest)
  {
    assert ([x] + rest)[1..] == rest;
  }

  /** One `%s` per column, and no other `%` in the placeholder list. */
  lemma {:induction false} PlaceholderCount(n: nat)
    ensures Text.CountChar(Placeholders(n), '%') == n
  {
    if n == 1 {
      assert Placeholders(1) == "%s";
    } else if n > 1 {
      PlaceholderCount(n - 1);
      var tail: seq<string> := seq(n - 1, _ => "%s");
      assert seq(n, _ => "%s") == ["%s"] + tail;
      JoinCons(", ", "%s", tail);
      Text.CountCharAppend("%s" + ", ", Placeholders(n - 1), '%');
      Text.CountCharAppend("%s", ", ", '%');
      assert Text.CountChar("%s", '%') == 1;
      assert Text.CountChar(", ", '%') == 0;
    }
  }

  /** The statements for a list of records, one per record, in order. */
  function Upserts(table: string, records: seq<Dict<string, Value>>): (ss: seq<Statement>)
    requires forall i :: 0 <= i < |records| ==> records[i].Valid()
    ensures |ss| == |records|
  {
    seq(|records|, i requires 0 <= i < |records| => Upsert(table, records[i]))
  }

  // ------------------------------------------------------------ the connection

  /** The statements of a list that the database accepts, every one of them. */
  predicate AllAccepted(rejects: Statement -> bool, ss: seq<Statement>)
  {
    forall i :: 0 <= i < |ss| ==> !rejects(ss[i])
  }

  lemma AcceptedAppend(rejects: Statement -> bool, a: seq<Statement>, b: seq<Statement>)
    ensures AllAccepted(rejects, a + b) <==> AllAccepted(rejects, a) && AllAccepted(rejects, b)
  {
    if AllAccepted(rejects, a) && AllAccepted(rejects, b) {
      forall i | 0 <= i < |a + b|
        ensures !rejects((a + b)[i])
      {
        if i >= |a| {
          assert (a + b)[i] == b[i - |a|];
        }
      }
    }
    if AllAccepted(rejects, a + b) {
      forall i | 0 <= i < |a|
        ensures !rejects(a[i])
      {
        assert (a + b)[i] == a[i];
      }
      forall i | 0 <= i < |b|
        ensures !rejects(b[i])
      {
        assert (a + b)[|a| + i] == b[i];
      }
    }
  }

  /**
   * A connection: the committed statements and those of the open
   * transaction. `rejects` says which statements the server refuses
   * (a constraint, a type error, a dropped connection).
   */
  class Connection {
    var committed: seq<Statement>
    var pending: seq<Statement>
    const rejects: Statement -> bool

    constructor(rejects: Statement -> bool)
      ensures committed == [] && pending == [] && this.rejects == rejects
    {
      committed := [];
      pending := [];
      this.rejects := rejects;
    }

    /** `cursor.execute`: the statement joins the transaction, or raises. */
    method Execute(s: Statement) returns (ok: bool)
      modifies this
      ensures ok == !rejects(s)
      ensures committed == old(committed)
      ensures pending == if ok then old(pending) + [s] else old(pending)
    {
      ok := !rejects(s);
      if ok {
        pending := pending + [s];
      }
    }

    method Commit()
      modifies this
      ensures committed == old(committed) + old(pending) && pending == []
    {
      committed := committed + pending;
      pending := [];
    }

    method Rollback()
      modifies this
      ensures committed == old(committed) && pending == []
    {
      pending := [];
    }
  }

  /** Statements executed one after another, stopping at the first refused one. */
  method ExecuteEach(conn: Connection, ss: seq<Statement>) returns (ok: bool)
    modifies conn
    ensures ok == AllAccepted(conn.rejects, ss)
    ensures conn.committed == old(conn.committed)
    ensures ok ==> conn.pending == old(conn.pending) + ss
  {
    for i := 0 to |ss|
      invariant conn.committed == old(conn.committed)
      invariant conn.pending == old(conn.pending) + ss[..i]
      invariant AllAccepted(conn.rejects, ss[..i])
    {
      ok := conn.Execute(ss[i]);
      if !ok {
        return;
      }
      assert ss[..i + 1] == ss[..i] + [ss[i]];
    }
    assert ss[..|ss|] == ss;
    return true;
  }

  /**
   * `_store_income_statements`, `_store_balance_sheets`, `_store_cash_flows`
   * and `_store_derived_ratios`, which differ only in the table: one upsert
   * per record, stopping at the first refused one.
   */
  method StoreRecords(conn: Connection, table: string, records: seq<Dict<string, Value>>) returns (ok: bool)
    requires forall i :: 0 <= i < |records| ==> records[i].Valid()
    modifies conn
    ensures ok == AllAccepted(conn.rejects, Upserts(table, records))
    ensures conn.committed == old(conn.committed)
    ensures ok ==> conn.pending == old(conn.pending) + Upserts(table, records)
  {
    if records == [] {
      return true;
    }
    ok := ExecuteEach(conn, Upserts(table, records));
  }

  /** The table each statement type is stored in. */
  function TableOf(kind: string): string
  {
    match kind
    case "PL" => "income_statement"
    case "BS" => "balance_sheet"
    case "CF" => "cash_flow"
    case _ => "derived_ratios"
  }

  /** `map_record`: a SimFin row and its statement type to the ordered record of table columns. */
  type RecordMapper = (Row, string) -> Dict<string, Value>

  ghost predicate MapsToRecords(mapRecord: RecordMapper)
  {
    forall row, kind :: mapRecord(row, kind).Valid()
  }

  function Mapped(rows: seq<Row>, kind: string, mapRecord: RecordMapper): (rs: seq<Dict<string, Value>>)
    requires MapsToRecords(mapRecord)
    ensures |rs| == |rows| && forall i :: 0 <= i < |rows| ==> rs[i] == mapRecord(rows[i], kind) && rs[i].Valid()
  {
    seq(|rows|, i requires 0 <= i < |rows| => mapRecord(rows[i], kind))
  }

  /** The upserts for one statement type, none when the type is absent. */
  function KindWrites(statements: Dict<string, seq<Row>>, kind: string, mapRecord: RecordMapper): seq<Statement>
    requires MapsToRecords(mapRecord)
  {
    if statements.Has(kind) then Upserts(TableOf(kind), Mapped(statements.values[kind], kind, mapRecord)) else []
  }

  /** The statement types `store_simfin_data` stores, in its order. */
  const StatementKinds: seq<string> := ["PL", "BS", "CF", "DERIVED"]

  /** The upserts for the given statement types, type after type. */
  function KindsWrites(statements: Dict<string, seq<Row>>, kinds: seq<string>, mapRecord: RecordMapper): seq<Statement>
    requires MapsToRecords(mapRecord)
  {
    if kinds == [] then []
    else KindsWrites(statements, kinds[..|kinds| - 1], mapRecord) + KindWrites(statements, kinds[|kinds| - 1], mapRecord)
  }

  /** Everything `store_simfin_data` writes, in order. */
  function SimfinWrites(company: CompanyData, statements: Dict<string, seq<Row>>, mapRecord: RecordMapper): seq<Statement>
    requires MapsToRecords(mapRecord)
  {
    [UpsertCompany(company)] + KindsWrites(statements, StatementKinds, mapRecord)
  }

  method StoreKind(conn: Connection, statements: Dict<string, seq<Row>>, kind: string, mapRecord: RecordMapper)
    returns (ok: bool)
    requires MapsToRecords(mapRecord)
    modifies conn
    ensures ok == AllAccepted(conn.rejects, KindWrites(statements, kind, mapRecord))
    ensures conn.committed == old(conn.committed)
    ensures ok ==> conn.pending == old(conn.pending) + KindWrites(statements, kind, mapRecord)
  {
    if statements.Has(kind) {
      ok := StoreRecords(conn, TableOf(kind), Mapped(statements.values[kind], kind, mapRecord));
    } else {
      ok := true;
    }
  }

  /** The statement types in turn, stopping at the first refused write. */
  method StoreKinds(conn: Connection, statements: Dict<string, seq<Row>>, kinds: seq<string>, mapRecord: RecordMapper)
    returns (ok: bool)
    requires MapsToRecords(mapRecord)
    modifies conn
    ensures ok == AllAccepted(conn.rejects, KindsWrites(statements, kinds, mapRecord))
    ensures conn.committed == old(conn.committed)
    ensures ok ==> conn.pending == old(conn.pending) + KindsWrites(statements, kinds, mapRecord)
  {
    ok := true;
    for i := 0 to |kinds|
      invariant conn.committed == old(conn.committed)
      invariant KindsStored(conn.pending, old(conn.pending), conn.rejects, statements, kinds, i, mapRecord)
    {
      ghost var pending := conn.pending;
      ok := StoreKind(conn, statements, kinds[i], mapRecord);
      KindsNext(pending, old(conn.pending), conn.rejects, statements, kinds, i, mapRecord);
      if !ok {
        return;
      }
    }
    KindsStoredAll(conn.pending, old(conn.pending), conn.rejects, statements, kinds, mapRecord);
  }

  /** The writes of the first `i` statement types were all accepted and follow `base`. */
  ghost predicate KindsStored(pending: seq<Statement>, base: seq<Statement>, rejects: Statement -> bool,
                              statements: Dict<string, seq<Row>>, kinds: seq<string>, i: nat, mapRecord: RecordMapper)
    requires MapsToRecords(mapRecord) && i <= |kinds|
  {
    && AllAccepted(rejects, KindsWrites(statements, kinds[..i], mapRecord))
    && pending == base + KindsWrites(statements, kinds[..i], mapRecord)
  }

  /**
   * One more statement type: accepted, its writes extend the stored run;
   * refused, the whole run is refused.
   */
  lemma KindsNext(pending: seq<Statement>, base: seq<Statement>, rejects: Statement -> bool,
                  statements: Dict<string, seq<Row>>, kinds: seq<string>, i: nat, mapRecord: RecordMapper)
    requires MapsToRecords(mapRecord) && i < |kinds|
    requires KindsStored(pending, base, rejects, statements, kinds, i, mapRecord)
    ensures AllAccepted(rejects, KindWrites(statements, kinds[i], mapRecord)) ==>
            KindsStored(pending + KindWrites(statements, kinds[i], mapRecord), base, rejects, statements, kinds, i + 1, mapRecord)
    ensures !AllAccepted(rejects, KindWrites(statements, kinds[i], mapRecord)) ==>
            !AllAccepted(rejects, KindsWrites(statements, kinds, mapRecord))
  {
    var before := KindsWrites(statements, kinds[..i], mapRecord);
    var more := KindWrites(statements, kinds[i], mapRecord);
    KindsStep(statements, kinds, i, mapRecord);
    AcceptedAppend(rejects, before, more);
    Text.Assoc(base, before, more);
    KindsPrefix(statements, kinds, i + 1, mapRecord, rejects);
  }

  lemma KindsStoredAll(pending: seq<Statement>, base: seq<Statement>, rejects: Statement -> bool,
                       statements: Dict<string, seq<Row>>, kinds: seq<string>, mapRecord: RecordMapper)
    requires MapsToRecords(mapRecord) && KindsStored(pending, base, rejects, statements, kinds, |kinds|, mapRecord)
    ensures AllAccepted(rejects, KindsWrites(statements, kinds, mapRecord))
    ensures pending == base + KindsWrites(statements, kinds, mapRecord)
  {
    assert kinds[..|kinds|] == kinds;
  }

  /** The writes for one more statement type follow those of the types before it. */
  lemma KindsStep(statements: Dict<string, seq<Row>>, kinds: seq<string>, i: nat, mapRecord: RecordMapper)
    requires MapsToRecords(mapRecord) && i < |kinds|
    ensures KindsWrites(statements, kinds[..i + 1], mapRecord)
         == KindsWrites(statements, kinds[..i], mapRecord) + KindWrites(statements, kinds[i], mapRecord)
  {
    assert kinds[..i + 1][..i] == kinds[..i];
  }

  /**
   * `store_simfin_data`: the company upsert and the records of each present
   * statement type. Everything is committed after the last write; the first
   * refused statement rolls the whole transaction back.
   */
  method StoreSimfinData(conn: Connection, company: CompanyData, statements: Dict<string, seq<Row>>,
                         mapRecord: RecordMapper) returns (ok: bool)
    requires MapsToRecords(mapRecord)
    modifies conn
    ensures ok == AllAccepted(conn.rejects, SimfinWrites(company, statements, mapRecord))
    ensures ok ==> conn.committed == old(conn.committed) + old(conn.pending) + SimfinWrites(company, statements, mapRecord)
    ensures !ok ==> conn.committed == old(conn.committed)
    ensures conn.pending == []
  {
    ghost var head := [UpsertCompany(company)];
    ghost var rest := KindsWrites(statements, StatementKinds, mapRecord);
    AcceptedAppend(conn.rejects, head, rest);
    assert AllAccepted(conn.rejects, head) == !conn.rejects(head[0]);
    ok := conn.Execute(UpsertCompany(company));
    if ok {
      ok := StoreKinds(conn, statements, StatementKinds, mapRecord);
    }
    if ok {
      Text.Assoc(old(conn.pending), head, rest);
      Text.Assoc(old(conn.committed), old(conn.pending), head + rest);
      conn.Commit();
    } else {
      conn.Rollback();
    }
  }

  /** A run accepted in full is accepted on every prefix of the statement types. */
  lemma {:induction false} KindsPrefix(statements: Dict<string, seq<Row>>, kinds: seq<string>, n: nat,
                                       mapRecord: RecordMapper, rejects: Statement -> bool)
    requires MapsToRecords(mapRecord) && n <= |kinds|
    ensures AllAccepted(rejects, KindsWrites(statements, kinds, mapRecord)) ==>
            AllAccepted(rejects, KindsWrites(statements, kinds[..n], mapRecord))
    decreases |kinds| - n
  {
    if n < |kinds| {
      KindsPrefix(statements, kinds, n + 1, mapRecord, rejects);
      KindsStep(statements, kinds, n, mapRecord);
      AcceptedAppend(rejects, KindsWrites(statements, kinds[..n], mapRecord),
                     KindWrites(statements, kinds[n], mapRecord));
    } else {
      assert kinds[..n] == kinds;
    }
  }

  // ------------------------------------------------------------ embedding batches

  function Min(a: nat, b: nat): nat { if a <= b then a else b }

  function Texts(batch: seq<TenKChunk>): (ts: seq<string>)
    ensures |ts| == |batch| && forall k :: 0 <= k < |batch| ==> ts[k] == batch[k].chunkText
  {
    seq(|batch|, k requires 0 <= k < |batch| => batch[k].chunkText)
  }

  /** `zip(batch, response.data)`: pairs by position, as many as the shorter list. */
  function Paired(batch: seq<TenKChunk>, vectors: seq<EmbedTranscripts.Embedding>): (ss: seq<Statement>)
    ensures |ss| == Min(|batch|, |vectors|)
    ensures forall k :: 0 <= k < |ss| ==> ss[k] == InsertEmbedding(batch[k], vectors[k])
  {
    seq(Min(|batch|, |vectors|), k requires 0 <= k < Min(|batch|, |vectors|) => InsertEmbedding(batch[k], vectors[k]))
  }

  /**
   * The embedding inserts for the chunks from `from` on, one API call per
   * batch of `size`; `None` when a call raises.
   */
  function EmbeddingInserts(chunks: seq<TenKChunk>, size: nat, from: nat, embed: EmbedTranscripts.EmbedService)
    : Option<seq<Statement>>
    requires size >= 1
    decreases |chunks| - from
  {
    if from >= |chunks| then Some([])
    else
      var hi := Min(from + size, |chunks|);
      match embed(Texts(chunks[from..hi]))
      case None => None
      case Some(vs) =>
        match EmbeddingInserts(chunks, size, hi, embed)
        case None => None
        case Some(rest) => Some(Paired(chunks[from..hi], vs) + rest)
  }

  /** `prefix` followed by the statements of `r`, if there are any. */
  function After(prefix: seq<Statement>, r: Option<seq<Statement>>): Option<seq<Statement>>
  {
    match r case None => None case Some(ss) => Some(prefix + ss)
  }

  /** Whether a statement list is there and the server accepts all of it. */
  predicate Succeeds(rejects: Statement -> bool, r: Option<seq<Statement>>)
  {
    r.Some? && AllAccepted(rejects, r.value)
  }

  /** The texts sent to the embedding API, call by call. */
  function BatchesSent(chunks: seq<TenKChunk>, size: nat, from: nat): seq<seq<string>>
    requires size >= 1
    decreases |chunks| - from
  {
    if from >= |chunks| then []
    else [Texts(chunks[from..Min(from + size, |chunks|)])] + BatchesSent(chunks, size, Min(from + size, |chunks|))
  }

  function Flatten(bs: seq<seq<string>>): seq<string>
  {
    if bs == [] then [] else bs[0] + Flatten(bs[1..])
  }

  /**
   * The batches cover the chunk texts once each, in order; every batch
   * but the last holds `size` texts, and the last between one and `size`.
   */
  lemma {:induction false} BatchesCover(chunks: seq<TenKChunk>, size: nat, from: nat)
    requires size >= 1 && from <= |chunks|
    ensures Flatten(BatchesSent(chunks, size, from)) == Texts(chunks[from..])
    ensures forall b :: 0 <= b < |BatchesSent(chunks, size, from)| - 1 ==> |BatchesSent(chunks, size, from)[b]| == size
    ensures BatchesSent(chunks, size, from) != [] ==>
      1 <= |BatchesSent(chunks, size, from)[|BatchesSent(chunks, size, from)| - 1]| <= size
    decreases |chunks| - from
  {
    if from < |chunks| {
      var hi := Min(from + size, |chunks|);
      BatchesCover(chunks, size, hi);
      var rest := BatchesSent(chunks, size, hi);
      assert BatchesSent(chunks, size, from) == [Texts(chunks[from..hi])] + rest;
      assert Texts(chunks[from..]) == Texts(chunks[from..hi]) + Texts(chunks[hi..]);
      if hi == |chunks| {
        assert rest == [];
      }
    }
  }

  /**
   * When the API answers each call with one vector per text, the inserts
   * are there and name every chunk once, in order.
   */
  lemma {:induction false} InsertsCoverChunks(chunks: seq<TenKChunk>, size: nat, from: nat,
                                              embed: EmbedTranscripts.EmbedService)
    requires size >= 1 && from <= |chunks| && EmbedTranscripts.OnePerText(embed)
    requires forall b :: embed(b).Some?
    ensures EmbeddingInserts(chunks, size, from, embed).Some?
    ensures |EmbeddingInserts(chunks, size, from, embed).value| == |chunks| - from
    ensures forall k :: 0 <= k < |chunks| - from ==>
      EmbeddingInserts(chunks, size, from, embed).value[k].InsertEmbedding? &&
      EmbeddingInserts(chunks, size, from, embed).value[k].chunk == chunks[from + k]
    decreases |chunks| - from
  {
    if from < |chunks| {
      var hi := Min(from + size, |chunks|);
      InsertsCoverChunks(chunks, size, hi, embed);
      var vs := embed(Texts(chunks[from..hi])).value;
      var head: seq<Statement> := Paired(chunks[from..hi], vs);
      var rest: seq<Statement> := EmbeddingInserts(chunks, size, hi, embed).value;
      assert EmbeddingInserts(chunks, size, from, embed).value == head + rest;
      forall k | 0 <= k < |chunks| - from
        ensures (head + rest)[k].InsertEmbedding? && (head + rest)[k].chunk == chunks[from + k]
      {
        if k >= |head| {
          assert (head + rest)[k] == rest[k - |head|];
        }
      }
    }
  }

  /**
   * The inserts of one batch, after those of the batches before it: an
   * insert pairs a chunk with the vector at the chunk's place in its batch.
   */
  lemma BatchPairing(chunks: seq<TenKChunk>, size: nat, from: nat, embed: EmbedTranscripts.EmbedService)
    requires size >= 1 && from < |chunks|
    requires embed(Texts(chunks[from..Min(from + size, |chunks|)])).Some?
    ensures var hi := Min(from + size, |chunks|);
      EmbeddingInserts(chunks, size, from, embed)
      == After(Paired(chunks[from..hi], embed(Texts(chunks[from..hi])).value), EmbeddingInserts(chunks, size, hi, embed))
  {
  }

  lemma AfterAfter(a: seq<Statement>, b: seq<Statement>, r: Option<seq<Statement>>)
    ensures After(a, After(b, r)) == After(a + b, r)
  {
    if r.Some? {
      assert a + (b + r.value) == (a + b) + r.value;
    }
  }

  /** The batch loop of `store_10k_data`: one API call per batch, then one insert per returned pair. */
  method StoreEmbeddings(conn: Connection, chunks: seq<TenKChunk>, size: nat, embed: EmbedTranscripts.EmbedService)
    returns (ok: bool)
    requires size >= 1
    modifies conn
    ensures ok == Succeeds(conn.rejects, EmbeddingInserts(chunks, size, 0, embed))
    ensures conn.committed == old(conn.committed)
    ensures ok ==> conn.pending == old(conn.pending) + EmbeddingInserts(chunks, size, 0, embed).value
  {
    var i := 0;
    ghost var done: seq<Statement> := [];
    LoopStart(chunks, size, embed);
    while i < |chunks|
      invariant conn.committed == old(conn.committed)
      invariant conn.pending == old(conn.pending) + done
      invariant AllAccepted(conn.rejects, done)
      invariant EmbedLoop(chunks, size, embed, i, done)
      decreases |chunks| - i
    {
      var hi := Min(i + size, |chunks|);
      var response := embed(Texts(chunks[i..hi]));
      if response.None? {
        FailedCall(conn.rejects, chunks, size, embed, i, done);
        return false;
      }
      var pairs := Paired(chunks[i..hi], response.value);
      ok := ExecuteEach(conn, pairs);
      if !ok {
        FailedInsert(conn.rejects, chunks, size, i, embed, done);
        return;
      }
      BatchDone(conn.rejects, chunks, size, embed, i, done);
      Text.Assoc(old(conn.pending), done, pairs);
      done := done + pairs;
      i := hi;
    }
    LoopEnd(chunks, size, embed, i, done);
    ok := true;
  }

  /** The loop invariant of `StoreEmbeddings`: the inserts so far and those still to come make up the whole list. */
  ghost predicate EmbedLoop(chunks: seq<TenKChunk>, size: nat, embed: EmbedTranscripts.EmbedService,
                            i: nat, done: seq<Statement>)
  {
    size >= 1 && i <= |chunks| &&
    EmbeddingInserts(chunks, size, 0, embed) == After(done, EmbeddingInserts(chunks, size, i, embed))
  }

  lemma LoopStart(chunks: seq<TenKChunk>, size: nat, embed: EmbedTranscripts.EmbedService)
    requires size >= 1
    ensures EmbedLoop(chunks, size, embed, 0, [])
  {
    var r := EmbeddingInserts(chunks, size, 0, embed);
    if r.Some? {
      assert [] + r.value == r.value;
    }
  }

  lemma LoopEnd(chunks: seq<TenKChunk>, size: nat, embed: EmbedTranscripts.EmbedService, i: nat, done: seq<Statement>)
    requires EmbedLoop(chunks, size, embed, i, done) && i >= |chunks|
    ensures EmbeddingInserts(chunks, size, 0, embed) == Some(done)
  {
    assert done + [] == done;
  }

  /** A raising API call fails the whole list. */
  lemma FailedCall(rejects: Statement -> bool, chunks: seq<TenKChunk>, size: nat, embed: EmbedTranscripts.EmbedService,
                   i: nat, done: seq<Statement>)
    requires EmbedLoop(chunks, size, embed, i, done) && i < |chunks|
    requires embed(Texts(chunks[i..Min(i + size, |chunks|)])).None?
    ensures !Succeeds(rejects, EmbeddingInserts(chunks, size, 0, embed))
  {
  }

  /** A batch written in full moves the loop on to the next batch. */
  lemma BatchDone(rejects: Statement -> bool, chunks: seq<TenKChunk>, size: nat, embed: EmbedTranscripts.EmbedService,
                  i: nat, done: seq<Statement>)
    requires EmbedLoop(chunks, size, embed, i, done) && i < |chunks| && AllAccepted(rejects, done)
    requires embed(Texts(chunks[i..Min(i + size, |chunks|)])).Some?
    requires AllAccepted(rejects, Paired(chunks[i..Min(i + size, |chunks|)], embed(Texts(chunks[i..Min(i + size, |chunks|)])).value))
    ensures var pairs := Paired(chunks[i..Min(i + size, |chunks|)], embed(Texts(chunks[i..Min(i + size, |chunks|)])).value);
      EmbedLoop(chunks, size, embed, Min(i + size, |chunks|), done + pairs) && AllAccepted(rejects, done + pairs)
  {
    var hi := Min(i + size, |chunks|);
    var pairs := Paired(chunks[i..hi], embed(Texts(chunks[i..hi])).value);
    AcceptedAppend(rejects, done, pairs);
    BatchPairing(chunks, size, i, embed);
    AfterAfter(done, pairs, EmbeddingInserts(chunks, size, hi, embed));
  }

  /** A refused insert inside batch `i` makes the whole list fail. */
  lemma FailedInsert(rejects: Statement -> bool, chunks: seq<TenKChunk>, size: nat, i: nat,
                     embed: EmbedTranscripts.EmbedService, done: seq<Statement>)
    requires size >= 1 && i < |chunks|
    requires embed(Texts(chunks[i..Min(i + size, |chunks|)])).Some?
    requires !AllAccepted(rejects, Paired(chunks[i..Min(i + size, |chunks|)], embed(Texts(chunks[i..Min(i + size, |chunks|)])).value))
    ensures !Succeeds(rejects, After(done, EmbeddingInserts(chunks, size, i, embed)))
  {
    var r := EmbeddingInserts(chunks, size, i, embed);
    if r.Some? {
      var hi := Min(i + size, |chunks|);
      var pairs := Paired(chunks[i..hi], embed(Texts(chunks[i..hi])).value);
      BatchPairing(chunks, size, i, embed);
      assert EmbeddingInserts(chunks, size, hi, embed).Some?;
      var rest := EmbeddingInserts(chunks, size, hi, embed).value;
      AcceptedAppend(rejects, pairs, rest);
      AcceptedAppend(rejects, done, pairs + rest);
      assert done + r.value == done + (pairs + rest);
    }
  }

  // ------------------------------------------------------------ store_10k_data

  /** The section rows: the old ones of the document are deleted first. */
  function SectionInserts(documentId: string, sections: seq<SectionRecord>): (ss: seq<Statement>)
    ensures |ss| == |sections|
  {
    seq(|sections|, i requires 0 <= i < |sections| => InsertSection(documentId, sections[i]))
  }

  /**
   * The document statements of `store_10k_data`. The document id read back
   * after the upsert is the one just written: the conflict clause sets it.
   */
  function DocumentWrites(doc: Fetchers.TenKFiling, sections: seq<SectionRecord>): seq<Statement>
  {
    [UpsertDocument(doc.ticker, doc.accessionNumber, doc.documentId, doc.fiscalYear, doc.fileName, doc.size),
     SelectDocumentId(doc.ticker),
     DeleteSections(doc.documentId)]
      + SectionInserts(doc.documentId, sections)
  }

  /** Everything `store_10k_data` writes, or `None` when an embedding call raises. */
  function TenKWrites(doc: Fetchers.TenKFiling, sections: seq<SectionRecord>, chunks: seq<TenKChunk>,
                      embed: EmbedTranscripts.EmbedService): Option<seq<Statement>>
  {
    After(DocumentWrites(doc, sections), EmbeddingInserts(chunks, EmbeddingBatchSize, 0, embed))
  }

  /**
   * `store_10k_data`: the document, its sections and the embedded chunks in
   * one transaction, committed after the last insert and rolled back on the
   * first failure.
   */
  method Store10kData(conn: Connection, doc: Fetchers.TenKFiling, sections: seq<SectionRecord>,
                      chunks: seq<TenKChunk>, embed: EmbedTranscripts.EmbedService) returns (ok: bool)
    modifies conn
    ensures ok == Succeeds(conn.rejects, TenKWrites(doc, sections, chunks, embed))
    ensures ok ==> conn.committed == old(conn.committed) + old(conn.pending) + TenKWrites(doc, sections, chunks, embed).value
    ensures !ok ==> conn.committed == old(conn.committed)
    ensures conn.pending == []
  {
    ghost var docWrites := DocumentWrites(doc, sections);
    ghost var embedded := EmbeddingInserts(chunks, EmbeddingBatchSize, 0, embed);
    if embedded.Some? {
      AcceptedAppend(conn.rejects, docWrites, embedded.value);
    }
    ok := DocumentStatements(conn, doc, sections);
    if ok {
      ok := StoreEmbeddings(conn, chunks, EmbeddingBatchSize, embed);
    }
    if ok {
      conn.Commit();
    } else {
      conn.Rollback();
    }
  }

  /** The document upsert, the id read-back, the delete and the section inserts. */
  method DocumentStatements(conn: Connection, doc: Fetchers.TenKFiling, sections: seq<SectionRecord>) returns (ok: bool)
    modifies conn
    ensures ok == AllAccepted(conn.rejects, DocumentWrites(doc, sections))
    ensures conn.committed == old(conn.committed)
    ensures ok ==> conn.pending == old(conn.pending) + DocumentWrites(doc, sections)
  {
    var head := [UpsertDocument(doc.ticker, doc.accessionNumber, doc.documentId, doc.fiscalYear, doc.fileName, doc.size),
                 SelectDocumentId(doc.ticker),
                 DeleteSections(doc.documentId)];
    var inserts := SectionInserts(doc.documentId, sections);
    AcceptedAppend(conn.rejects, head, inserts);
    ok := ExecuteEach(conn, head);
    if ok {
      ok := ExecuteEach(conn, inserts);
      Text.Assoc(old(conn.pending), head, inserts);
    }
  }
}
