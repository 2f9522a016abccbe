/**
 * The company catalog loader: the `TICKER: name` listing handed to the
 * language model, cached once it has been read, and the ticker-to-name
 * dictionary used for validation, which is read afresh every time.
 *
 * The database is a parameter: `Some(rows)` is what the `companies` query
 * returned, `None` means the query raised.
 */
module CompanyLoader {
  import opened Wrappers
  import opened Text
  import PyDict

  /** A row of `SELECT ticker, name FROM companies`. */
  type CompanyRow = (string, string)

  function Line(row: CompanyRow): string
  {
    row.0 + ": " + row.1
  }

  function Lines(rows: seq<CompanyRow>): (ls: seq<string>)
    ensures |ls| == |rows| && forall i :: 0 <= i < |rows| ==> ls[i] == Line(rows[i])
  {
    if rows == [] then [] else [Line(rows[0])] + Lines(rows[1..])
  }

  /** The listing: one line per company, joined by newlines. */
  function FormatCompanies(rows: seq<CompanyRow>): string
  {
    Join("\n", Lines(rows))
  }

  /**
   * Reading the listing back line by line gives one `TICKER: name` line per
   * row, in the order the rows came (the query orders them by ticker); no
   * rows give the empty string.
   */
  lemma FormatCompaniesLines(rows: seq<CompanyRow>)
    requires forall i :: 0 <= i < |rows| ==> Free(rows[i].0, '\n') && Free(rows[i].1, '\n')
    ensures rows == [] ==> FormatCompanies(rows) == ""
    ensures rows != [] ==>
      var ls := Split(FormatCompanies(rows), '\n');
      |ls| == |rows| && forall i :: 0 <= i < |rows| ==> ls[i] == rows[i].0 + ": " + rows[i].1
  {
    if rows != [] {
      var ls := Lines(rows);
      forall i | 0 <= i < |ls| ensures Free(ls[i], '\n') {
        var l := ls[i];
        assert l == rows[i].0 + ": " + rows[i].1;
        forall k | 0 <= k < |l| ensures l[k] != '\n' {
          if k < |rows[i].0| {
            assert l[k] == rows[i].0[k];
          } else if k >= |rows[i].0| + 2 {
            assert l[k] == rows[i].1[k - |rows[i].0| - 2];
          }
        }
      }
      assert "\n" == ['\n'];
      SplitJoin(ls, '\n');
    }
  }

  /** The loader; its one field is the class-level `_cache`. */
  class Loader {
    var cache: Option<string>

    constructor ()
      ensures cache == None
    {
      cache := None;
    }

    /**
     * `load_companies`: a cached listing is returned as it is and the
     * database result plays no part; otherwise a successful read is
     * formatted and cached, and a failed one gives "" and leaves the cache
     * empty, so that the next call reads again.
     */
    method LoadCompanies(db: Option<seq<CompanyRow>>) returns (listing: string)
      modifies this
      ensures old(cache).Some? ==> listing == old(cache).value && cache == old(cache)
      ensures old(cache).None? && db.Some? ==>
        listing == FormatCompanies(db.value) && cache == Some(listing)
      ensures old(cache).None? && db.None? ==> listing == "" && cache == None
    {
      if cache.Some? {
        return cache.value;
      }
      match db {
        case None =>
          listing := "";
        case Some(rows) =>
          listing := FormatCompanies(rows);
          cache := Some(listing);
      }
    }
  }

  /**
   * `get_company_dict`: `dict` of the rows, never cached; a failed read gives
   * the empty dictionary. A ticker is a key exactly when some row has it, and
   * it maps to the name of its last row.
   */
  function GetCompanyDict(db: Option<seq<CompanyRow>>): (d: PyDict.Dict<string, string>)
    ensures d.Valid()
    ensures db.None? ==> d.values == map[] && d.keys == []
    ensures db.Some? ==> forall t :: t in d.values <==> t in PyDict.Fsts(db.value)
    ensures db.Some? ==> forall i :: PyDict.IsLastFor(db.value, i) ==> d.values[db.value[i].0] == db.value[i].1
  {
    match db
    case None => PyDict.Empty()
    case Some(rows) =>
      PyDict.FromPairsLookup(rows);
      PyDict.FromPairs(rows)
  }
}
