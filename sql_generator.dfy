/**
 * The SQL generator around the language model: the closing lines of the
 * schema prompt, the clean-up of the model's reply, the safety gate that
 * decides whether the SQL runs at all, the shaping of result rows, and the
 * generate / validate / execute short-circuit.
 *
 * The model's reply is an oracle `ask(system, user)` (`None` when the call
 * raises) and the database is an oracle `exec(sql)`.
 */
module SqlGenerator {
  import opened Wrappers
  import opened Text
  import PyDict

  /** A mentioned company as the orchestrator passes it on. */
  datatype Company = Company(ticker: string, name: string)

  // ---------------------------------------------------------------- prompt

  const NotePrefix := "\n\nNOTE: User mentioned: "
  const Closing := "\n\nGenerate ONLY the SQL query, no explanations or markdown."

  function Label(c: Company): string
  {
    c.name + " (" + c.ticker + ")"
  }

  function Labels(cs: seq<Company>): (ls: seq<string>)
    ensures |ls| == |cs| && forall i :: 0 <= i < |cs| ==> ls[i] == Label(cs[i])
  {
    if cs == [] then [] else [Label(cs[0])] + Labels(cs[1..])
  }

  /**
   * The schema prompt (its instruction text is the parameter `schema`), then
   * the note naming the mentioned companies when there are any, then the
   * closing instruction, which always comes last.
   */
  function SchemaContext(schema: string, companies: seq<Company>): (ctx: string)
    ensures StartsWith(ctx, schema) && EndsWith(ctx, Closing)
    ensures |ctx| >= |schema| + |Closing|
    ensures companies == [] <==> |ctx| == |schema| + |Closing|
    ensures companies != [] ==>
      ctx[|schema|..|ctx| - |Closing|] == NotePrefix + Join(", ", Labels(companies))
  {
    var note := if companies == [] then "" else NotePrefix + Join(", ", Labels(companies));
    var ctx := schema + note + Closing;
    assert ctx[..|schema|] == schema;
    assert ctx[|ctx| - |Closing|..] == Closing;
    assert ctx[|schema|..|ctx| - |Closing|] == note;
    ctx
  }

  // ---------------------------------------------------------------- reply clean-up

  const SqlFence := "```sql"

  /**
   * The reply is stripped; when it then opens with a fence, every "```sql"
   * and "```" is removed and the text is stripped again. A fenced reply
   * comes out with no fence left in it, an unfenced one is only stripped,
   * and either way no whitespace is left at its ends.
   */
  function CleanReply(content: string): (sql: string)
    ensures StartsWith(Strip(content), Fence) ==> !Contains(sql, Fence)
    ensures !StartsWith(Strip(content), Fence) ==> sql == Strip(content)
  {
    var s := Strip(content);
    if StartsWith(s, SqlFence) then
      assert s[..3] == s[..6][..3] == Fence;
      FencedReply(ReplaceAll(s, SqlFence, ""))
    else if StartsWith(s, Fence) then
      FencedReply(s)
    else s
  }

  /** The cleaned reply neither starts nor ends with whitespace. */
  lemma CleanReplyTrimmed(content: string)
    ensures Trimmed(CleanReply(content))
  {
    StripTrimmed(content);
    var s := Strip(content);
    if StartsWith(s, SqlFence) {
      assert CleanReply(content) == FencedReply(ReplaceAll(s, SqlFence, ""));
    } else if StartsWith(s, Fence) {
      assert CleanReply(content) == FencedReply(s);
    }
  }

  /** The last step of the clean-up: drop every fence, strip again. */
  function FencedReply(s: string): (sql: string)
    ensures !Contains(sql, Fence)
    ensures Trimmed(sql)
  {
    var r := ReplaceAll(s, Fence, "");
    RemoveFenceComplete(s);
    StripContained(r, Fence);
    StripTrimmed(r);
    Strip(r)
  }

  /** `generate_sql`: the cleaned reply, or `None` when the call raised. */
  function GenerateSql(ask: (string, string) -> Option<string>, schema: string,
                       userQuery: string, companies: seq<Company>): (sql: Option<string>)
    ensures ask(SchemaContext(schema, companies), "Generate SQL for: " + userQuery).None? <==> sql.None?
  {
    match ask(SchemaContext(schema, companies), "Generate SQL for: " + userQuery)
    case None => None
    case Some(content) => Some(CleanReply(content))
  }

  // ---------------------------------------------------------------- safety gate

  const Forbidden: seq<string> :=
    ["INSERT", "UPDATE", "DELETE", "DROP", "ALTER", "TRUNCATE", "CREATE", "REPLACE", "EXEC", "EXECUTE"]

  /** The text the keyword checks look at: upper-cased, then stripped. */
  function Normalized(sql: string): string
  {
    Strip(Upper(sql))
  }

  /**
   * The gate: the normalised text opens with SELECT or WITH, contains none
   * of the forbidden words anywhere (inside identifiers too), and the raw
   * text has at most one semicolon. Nothing else is checked.
   */
  predicate Safe(sql: string)
  {
    OpensWithSelect(Normalized(sql)) && NoForbiddenWord(Normalized(sql)) && CountChar(sql, ';') <= 1
  }

  predicate OpensWithSelect(u: string)
  {
    StartsWith(u, "SELECT") || StartsWith(u, "WITH")
  }

  predicate NoForbiddenWord(u: string)
  {
    forall k :: 0 <= k < |Forbidden| ==> !Contains(u, Forbidden[k])
  }

  /** `_validate_query_safety`: the prefix test, the keyword scan, the semicolon count. */
  method ValidateQuerySafety(sql: string) returns (safe: bool)
    ensures safe == Safe(sql)
  {
    var u := Normalized(sql);
    if !OpensWithSelect(u) {
      return false;
    }
    var hit := FindForbidden(u, Forbidden);
    if hit {
      return false;
    }
    if CountChar(sql, ';') > 1 {
      return false;
    }
    return true;
  }

  /** The keyword loop: scans `words` in order and stops at the first one found in `u`. */
  method FindForbidden(u: string, words: seq<string>) returns (hit: bool)
    ensures !hit <==> forall k :: 0 <= k < |words| ==> !Contains(u, words[k])
  {
    var k := 0;
    while k < |words|
      invariant 0 <= k <= |words|
      invariant forall j :: 0 <= j < k ==> !Contains(u, words[j])
    {
      if Contains(u, words[k]) {
        return true;
      }
      k := k + 1;
    }
    return false;
  }

  /**
   * A forbidden word hidden in any part of the text, in any letter case and
   * inside a longer identifier, makes the SQL unsafe.
   */
  lemma ForbiddenInside(sql: string, part: string, k: int)
    requires 0 <= k < |Forbidden|
    requires Contains(sql, part) && Contains(Upper(part), Forbidden[k])
    ensures !Safe(sql)
  {
    var w := Forbidden[k];
    UpperContains(sql, part);
    ContainsTransitive(Upper(sql), Upper(part), w);
    assert !IsSpace(w[0]) && !IsSpace(w[|w| - 1]);
    StripKeepsWord(Upper(sql), w);
  }

  /** A query that merely reads an `updated_at` column is refused. */
  lemma UpdatedAtUnsafe(sql: string)
    requires Contains(sql, "updated_at")
    ensures !Safe(sql)
  {
    assert "updated_at"[0..6] == "update";
    ContainsSlice("updated_at", 0, 6);
    ContainsTransitive(sql, "updated_at", "update");
    assert Upper("update") == "UPDATE";
    assert StartsWith(Upper("update"), "UPDATE");
    ForbiddenInside(sql, "update", 1);
  }

  /** So is one that reads a `created_at` column. */
  lemma CreatedAtUnsafe(sql: string)
    requires Contains(sql, "created_at")
    ensures !Safe(sql)
  {
    assert "created_at"[0..6] == "create";
    ContainsSlice("created_at", 0, 6);
    ContainsTransitive(sql, "created_at", "create");
    assert Upper("create") == "CREATE";
    assert StartsWith(Upper("create"), "CREATE");
    ForbiddenInside(sql, "create", 6);
  }

  lemma UpperJoin(a: string, b: string)
    ensures Upper(a + ";" + b) == Upper(a) + [';'] + Upper(b)
  {
    UpperAppend(a + ";", b);
    UpperAppend(a, ";");
    assert Upper(";") == ";";
  }

  /** After joining, the normalised text still opens like the first statement. */
  lemma JoinOpens(a: string, b: string)
    requires OpensWithSelect(Normalized(a))
    ensures OpensWithSelect(Normalized(a + ";" + b))
  {
    UpperJoin(a, b);
    var tail := StripJoin(Upper(a), ';', Upper(b));
    if StartsWith(Normalized(a), "SELECT") {
      StartsWithAppend(Normalized(a), tail, "SELECT");
    } else {
      StartsWithAppend(Normalized(a), tail, "WITH");
    }
  }

  lemma ForbiddenShape(k: int)
    requires 0 <= k < |Forbidden|
    ensures var w := Forbidden[k]; |w| > 0 && ';' !in w && !IsSpace(w[0]) && !IsSpace(w[|w| - 1])
  {
  }

  /** A forbidden word in the joined text would lie within one of the two statements. */
  lemma JoinNoForbiddenWord(a: string, b: string)
    requires NoForbiddenWord(Normalized(a)) && NoForbiddenWord(Normalized(b))
    ensures NoForbiddenWord(Normalized(a + ";" + b))
  {
    var u, v := Upper(a), Upper(b);
    UpperJoin(a, b);
    assert Normalized(a + ";" + b) == Strip(u + [';'] + v);
    forall k | 0 <= k < |Forbidden| ensures !Contains(Strip(u + [';'] + v), Forbidden[k]) {
      ForbiddenShape(k);
      StripAcross(u, ';', v, Forbidden[k]);
    }
  }

  /**
   * The semicolon count does not look at where the semicolon is: two
   * statements that each pass the gate, joined by one semicolon, pass it
   * together.
   */
  lemma SemicolonJoinSafe(a: string, b: string)
    requires Safe(a) && Safe(b) && CountChar(a, ';') == 0 && CountChar(b, ';') == 0
    ensures Safe(a + ";" + b)
  {
    CountCharAppend(a, ";", ';');
    CountCharAppend(a + ";", b, ';');
    JoinOpens(a, b);
    JoinNoForbiddenWord(a, b);
  }

  // ---------------------------------------------------------------- execution

  datatype Value = Null | Number(int) | Str(string)

  /** A result row: column name to value, in column order. */
  type Row = PyDict.Dict<string, Value>

  /** What the database does with a statement: raise, or return columns and rows. */
  datatype DbOutcome = DbError(message: string) | DbRows(columns: seq<string>, rows: seq<seq<Value>>)

  /** Python's `zip`: pairs up to the shorter length. */
  function Zip<A, B>(xs: seq<A>, ys: seq<B>): (ps: seq<(A, B)>)
    ensures |ps| == if |xs| <= |ys| then |xs| else |ys|
    ensures forall i :: 0 <= i < |ps| ==> ps[i] == (xs[i], ys[i])
  {
    if xs == [] || ys == [] then [] else [(xs[0], ys[0])] + Zip(xs[1..], ys[1..])
  }

  /** `dict(zip(columns, row))`. */
  function RowDict(columns: seq<string>, values: seq<Value>): Row
  {
    RowOf(Zip(columns, values))
  }

  function RowOf(pairs: seq<(string, Value)>): Row
  {
    PyDict.FromPairs(pairs)
  }

  /**
   * With distinct column names, a row maps each column to the value in the
   * same position, and lists the columns in order.
   */
  lemma RowDictDistinct(columns: seq<string>, values: seq<Value>, i: int)
    requires PyDict.Distinct(columns) && |values| == |columns| && 0 <= i < |columns|
    ensures RowDict(columns, values).keys == columns
    ensures columns[i] in RowDict(columns, values).values
    ensures RowDict(columns, values).values[columns[i]] == values[i]
  {
    var ps := Zip(columns, values);
    assert PyDict.Fsts(ps) == columns;
    PyDict.FromPairsOrder(ps);
    PyDict.FromDistinctPairs(ps, i);
  }

  /**
   * With a repeated column name (two `ticker` columns of a join), the row
   * keeps the name once, holding the value of its last column.
   */
  lemma RowDictRepeated(columns: seq<string>, values: seq<Value>, i: int, j: int)
    requires |values| == |columns| && 0 <= i < j < |columns| && columns[i] == columns[j]
    requires forall k :: j < k < |columns| ==> columns[k] != columns[j]
    ensures RowDict(columns, values).values[columns[i]] == values[j]
    ensures |RowDict(columns, values).keys| < |columns|
  {
    var ps := Zip(columns, values);
    PyDict.FromPairsLast(ps, j);
    var d := RowDict(columns, values);
    PyDict.KeysBound(ps, i, j);
  }

  /** The dictionary `execute_sql` returns. */
  datatype ExecResult = ExecResult(success: bool, data: seq<Row>, columns: seq<string>,
                                   rowCount: nat, error: Option<string>)

  /**
   * `execute_sql`: one row dictionary per returned row, in order, and a row
   * count equal to the number of rows; on an error, no data, no columns,
   * count 0 and the error text.
   */
  method ExecuteSql(exec: string -> DbOutcome, sql: string) returns (r: ExecResult)
    ensures exec(sql).DbError? ==> r == ExecResult(false, [], [], 0, Some(exec(sql).message))
    ensures exec(sql).DbRows? ==>
      r.success && r.error == None && r.columns == exec(sql).columns &&
      r.rowCount == |r.data| == |exec(sql).rows| &&
      forall i :: 0 <= i < |r.data| ==> r.data[i] == RowDict(exec(sql).columns, exec(sql).rows[i])
  {
    var outcome := exec(sql);
    if outcome.DbError? {
      return ExecResult(false, [], [], 0, Some(outcome.message));
    }
    var data := RowsOf(outcome.columns, outcome.rows);
    r := ExecResult(true, data, outcome.columns, |data|, None);
  }

  /** The loop of `execute_sql` that turns each returned row into its dictionary. */
  method RowsOf(columns: seq<string>, rows: seq<seq<Value>>) returns (data: seq<Row>)
    ensures data == Rows(columns, rows)
  {
    data := [];
    var i := 0;
    while i < |rows|
      invariant 0 <= i <= |rows|
      invariant data == Rows(columns, rows[..i])
    {
      assert rows[..i + 1][..i] == rows[..i];
      assert Rows(columns, rows[..i + 1]) == Rows(columns, rows[..i]) + [RowDict(columns, rows[i])];
      data := data + [RowDict(columns, rows[i])];
      i := i + 1;
    }
    assert rows[..i] == rows;
  }

  // ---------------------------------------------------------------- query

  /** The dictionary `query` returns; the shapes that lack columns or a row count carry [] and 0. */
  datatype QueryResult = QueryResult(success: bool, error: Option<string>, sql: Option<string>,
                                     data: seq<Row>, columns: seq<string>, rowCount: nat)

  const GenerateFailed := "Failed to generate SQL"
  const NotSelect := "Invalid query: Only SELECT statements are allowed"

  /**
   * `query`: no (or empty) SQL stops before validation, unsafe SQL stops
   * before execution, and safe SQL is executed and its result forwarded
   * together with the SQL. The first two outcomes do not depend on `exec`.
   */
  method Query(ask: (string, string) -> Option<string>, exec: string -> DbOutcome,
               schema: string, userQuery: string, companies: seq<Company>) returns (r: QueryResult)
    ensures r == QueryOutcome(ask, exec, schema, userQuery, companies)
    ensures var g := GenerateSql(ask, schema, userQuery, companies);
      && (g.None? || g.value == [] ==> r == QueryResult(false, Some(GenerateFailed), None, [], [], 0))
      && (g.Some? && g.value != [] && !Safe(g.value) ==>
            r == QueryResult(false, Some(NotSelect), g, [], [], 0))
      && (g.Some? && g.value != [] && Safe(g.value) ==>
            r.sql == g && r.success == exec(g.value).DbRows? &&
            (exec(g.value).DbError? ==> r.error == Some(exec(g.value).message) && r.data == [] && r.rowCount == 0) &&
            (exec(g.value).DbRows? ==>
               r.error == None && |r.data| == r.rowCount == |exec(g.value).rows| &&
               (forall i :: 0 <= i < |r.data| ==> r.data[i] == RowDict(exec(g.value).columns, exec(g.value).rows[i]))))
  {
    var g := GenerateSql(ask, schema, userQuery, companies);
    if g.None? || g.value == [] {
      return QueryResult(false, Some(GenerateFailed), None, [], [], 0);
    }
    var safe := ValidateQuerySafety(g.value);
    if !safe {
      return QueryResult(false, Some(NotSelect), g, [], [], 0);
    }
    var e := ExecuteSql(exec, g.value);
    return QueryResult(e.success, e.error, g, e.data, e.columns, e.rowCount);
  }

  /** The row dictionaries of a result set, in order. */
  function Rows(columns: seq<string>, rows: seq<seq<Value>>): (data: seq<Row>)
    ensures |data| == |rows| && forall i :: 0 <= i < |rows| ==> data[i] == RowDict(columns, rows[i])
  {
    if rows == [] then [] else Rows(columns, rows[..|rows| - 1]) + [RowDict(columns, rows[|rows| - 1])]
  }

  /** What `query` returns, as a value; the orchestrator's handlers are specified with it. */
  function QueryOutcome(ask: (string, string) -> Option<string>, exec: string -> DbOutcome,
                        schema: string, userQuery: string, companies: seq<Company>): QueryResult
  {
    var g := GenerateSql(ask, schema, userQuery, companies);
    if g.None? || g.value == [] then QueryResult(false, Some(GenerateFailed), None, [], [], 0)
    else if !Safe(g.value) then QueryResult(false, Some(NotSelect), g, [], [], 0)
    else match exec(g.value)
      case DbError(m) => QueryResult(false, Some(m), g, [], [], 0)
      case DbRows(columns, rows) => QueryResult(true, None, g, Rows(columns, rows), columns, |rows|)
  }

  /**
   * Every failure carries an error text and no rows; every success carries
   * the SQL that ran, no error, and a row count equal to its rows.
   */
  lemma QueryOutcomeShape(ask: (string, string) -> Option<string>, exec: string -> DbOutcome,
                          schema: string, userQuery: string, companies: seq<Company>)
    ensures var r := QueryOutcome(ask, exec, schema, userQuery, companies);
      && (!r.success ==> r.error.Some? && r.data == [] && r.rowCount == 0)
      && (r.success ==> r.error.None? && r.sql.Some? && Safe(r.sql.value) && r.rowCount == |r.data|)
  {
    var g := GenerateSql(ask, schema, userQuery, companies);
    if g.Some? && g.value != [] && Safe(g.value) {
      var outcome := exec(g.value);
      if outcome.DbRows? {
        assert QueryOutcome(ask, exec, schema, userQuery, companies) ==
          QueryResult(true, None, g, Rows(outcome.columns, outcome.rows), outcome.columns, |outcome.rows|);
      }
    }
  }
}
