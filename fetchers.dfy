// The decision logic of etl/src/fetchers.py around the SecBlast calls: which
// key a lookup uses, when a lookup counts as "no 10-K", which document of the
// filing is taken, and the fiscal year read from its file name. The HTTP
// responses are parameters; `None` stands for a request that raised.

module Fetchers {
  import opened Wrappers
  import opened Processors

  // ------------------------------------------------------------ fiscal year

  predicate IsDigit(c: char)
  {
    '0' <= c <= '9'
  }

  /** `len` decimal digits start at position `i` of `s`. */
  predicate DigitRun(s: string, i: int, len: nat)
  {
    0 <= i && i + len <= |s| && forall k :: i <= k < i + len ==> IsDigit(s[k])
  }

  /** Where `re.search(r'\d{8}', s[from..])` matches, counted in `s`. */
  function FirstRun(s: string, from: nat): (r: Option<nat>)
    ensures r.Some? ==> from <= r.value && DigitRun(s, r.value, 8)
    decreases |s| - from
  {
    if from + 8 > |s| then None
    else if DigitRun(s, from, 8) then Some(from)
    else FirstRun(s, from + 1)
  }

  /** The value of a string of decimal digits. */
  function DigitsValue(ds: string): nat
  {
    if ds == [] then 0 else DigitsValue(ds[..|ds| - 1]) * 10 + ((ds[|ds| - 1] as int - '0' as int) % 10)
  }

  /** `_extract_fiscal_year`: the first four of the first eight consecutive digits, read as a number. */
  function ExtractFiscalYear(fileName: string): Option<int>
  {
    match FirstRun(fileName, 0)
    case None => None
    case Some(i) => Some(DigitsValue(fileName[i..i + 4]))
  }

  /** The search finds the leftmost run of eight digits from `from` on, or reports that there is none. */
  lemma {:induction false} FirstRunLeftmost(s: string, from: nat)
    ensures FirstRun(s, from).Some? ==>
      var i := FirstRun(s, from).value;
      from <= i && DigitRun(s, i, 8) && forall j :: from <= j < i ==> !DigitRun(s, j, 8)
    ensures FirstRun(s, from).None? ==> forall j :: from <= j ==> !DigitRun(s, j, 8)
    decreases |s| - from
  {
    if from + 8 <= |s| && !DigitRun(s, from, 8) {
      FirstRunLeftmost(s, from + 1);
    }
  }

  /** `n` digits read at most `10^n - 1`. */
  lemma {:induction false} DigitsValueBound(ds: string)
    ensures DigitsValue(ds) < Pow10(|ds|)
  {
    if ds != [] {
      DigitsValueBound(ds[..|ds| - 1]);
    }
  }

  function Pow10(n: nat): nat
  {
    if n == 0 then 1 else 10 * Pow10(n - 1)
  }

  /**
   * A year is found exactly when the name holds eight consecutive digits;
   * it is read from the leftmost such run, and has at most four digits.
   */
  lemma FiscalYearFound(fileName: string)
    ensures ExtractFiscalYear(fileName).Some? <==> exists i :: DigitRun(fileName, i, 8)
    ensures ExtractFiscalYear(fileName).Some? ==>
      && 0 <= ExtractFiscalYear(fileName).value <= 9999
      && exists i :: DigitRun(fileName, i, 8) && (forall j :: 0 <= j < i ==> !DigitRun(fileName, j, 8))
                     && ExtractFiscalYear(fileName).value == DigitsValue(fileName[i..i + 4])
  {
    FirstRunLeftmost(fileName, 0);
    if FirstRun(fileName, 0).Some? {
      var i := FirstRun(fileName, 0).value;
      DigitsValueBound(fileName[i..i + 4]);
      assert Pow10(4) == 10000;
    } else {
      forall i | DigitRun(fileName, i, 8)
        ensures false
      {
      }
    }
  }

  /** The file name of Apple's 2025 annual report gives 2025. */
  lemma AppleExample()
    ensures ExtractFiscalYear("aapl-20250927.htm") == Some(2025)
  {
    var s := "aapl-20250927.htm";
    assert !DigitRun(s, 0, 8) && !DigitRun(s, 1, 8) && !DigitRun(s, 2, 8) && !DigitRun(s, 3, 8) && !DigitRun(s, 4, 8)
      by { assert !IsDigit(s[0]) && !IsDigit(s[1]) && !IsDigit(s[2]) && !IsDigit(s[3]) && !IsDigit(s[4]); }
    assert DigitRun(s, 5, 8);
    assert FirstRun(s, 0) == Some(5);
    assert s[5..9] == "2025";
    YearDigits();
  }

  lemma YearDigits()
    ensures DigitsValue("2025") == 2025
  {
    assert "2025"[..3] == "202" && "202"[..2] == "20" && "20"[..1] == "2" && "2"[..0] == "";
  }

  // ------------------------------------------------------------ document selection

  /** A document of a filing, as the lookup lists it. */
  datatype Document = Document(formType: string, description: string, documentId: string,
                               fileName: string, size: int)

  datatype Filing = Filing(accnum: string, documents: seq<Document>)

  /** The lookup answer: `filings_found` (missing, `null` or a number) and the filings. */
  datatype Lookup = Lookup(filingsFound: Field<int>, filings: seq<Filing>)

  /** The main 10-K document of a filing. */
  predicate IsMainDocument(d: Document)
  {
    d.formType == "10-K" && d.description == "10-K"
  }

  /** The first main document of the list. */
  function SelectDocument(docs: seq<Document>): Option<Document>
  {
    if docs == [] then None
    else if IsMainDocument(docs[0]) then Some(docs[0])
    else SelectDocument(docs[1..])
  }

  /** The selected document is the first main one; there is none exactly when no document is a main one. */
  lemma {:induction false} SelectFirst(docs: seq<Document>)
    ensures SelectDocument(docs).None? <==> forall k :: 0 <= k < |docs| ==> !IsMainDocument(docs[k])
    ensures SelectDocument(docs).Some? ==>
      exists i :: 0 <= i < |docs| && docs[i] == SelectDocument(docs).value && IsMainDocument(docs[i])
                  && forall k :: 0 <= k < i ==> !IsMainDocument(docs[k])
  {
    if docs != [] && !IsMainDocument(docs[0]) {
      SelectFirst(docs[1..]);
      if SelectDocument(docs).Some? {
        var i :| 0 <= i < |docs[1..]| && docs[1..][i] == SelectDocument(docs).value && IsMainDocument(docs[1..][i])
                 && forall k :: 0 <= k < i ==> !IsMainDocument(docs[1..][k]);
        assert docs[i + 1] == docs[1..][i];
        forall k | 0 <= k < i + 1
          ensures !IsMainDocument(docs[k])
        {
          if k > 0 {
            assert docs[k] == docs[1..][k - 1];
          }
        }
      } else {
        forall k | 0 <= k < |docs|
          ensures !IsMainDocument(docs[k])
        {
          if k > 0 {
            assert docs[k] == docs[1..][k - 1];
          }
        }
      }
    }
  }

  // ------------------------------------------------------------ fetch_latest_10k

  /** The parameters of the lookup request. */
  datatype LookupParams = LookupParams(apiKey: string, tickers: string, formTypes: string, limit: int)

  /** The lookup request: the given key, or key 1 when none is given. */
  function LookupRequest(ticker: string, apiKey: Option<string>, key1: string): (p: LookupParams)
    ensures apiKey.None? ==> p.apiKey == key1
    ensures apiKey.Some? ==> p.apiKey == apiKey.value
    ensures p.tickers == ticker && p.formTypes == "10-K" && p.limit == 1
  {
    LookupParams(match apiKey case Some(k) => k case None => key1, ticker, "10-K", 1)
  }

  /** What `fetch_latest_10k` returns for a found filing. */
  datatype TenKFiling = TenKFiling(ticker: string, accessionNumber: string, documentId: string,
                                   fileName: string, size: int, fiscalYear: Option<int>, sections: seq<Section>)

  /**
   * The three ways the call ends: `None`, a filing, or an exception the
   * function does not catch (an empty `filings` list).
   */
  datatype FetchOutcome = NotFound | Fetched(filing: TenKFiling) | Raised

  /**
   * `fetch_latest_10k` on the lookup answer and the sections answer (`None`
   * when the request raised; an answer without `sections` gives an empty list).
   */
  function FetchLatest10k(ticker: string, lookup: Option<Lookup>, sections: Option<seq<Section>>): (r: FetchOutcome)
    // A missing count reads as 0; a `null` one is not equal to 0 and lets the call go on.
    ensures lookup.None? || lookup.value.filingsFound in {Missing, Present(0)} ==> r == NotFound
    ensures r.Raised? <==> lookup.Some? && lookup.value.filingsFound !in {Missing, Present(0)} && lookup.value.filings == []
    ensures r.Fetched? <==>
      && lookup.Some? && lookup.value.filingsFound !in {Missing, Present(0)} && lookup.value.filings != []
      && SelectDocument(lookup.value.filings[0].documents).Some?
      && SelectDocument(lookup.value.filings[0].documents).value.documentId != ""
      && sections.Some?
    // the five ways to `None`: no lookup answer, no filing counted, no main document, no id, no sections answer
    ensures r == NotFound <==>
      || lookup.None? || lookup.value.filingsFound in {Missing, Present(0)}
      || (lookup.value.filings != []
          && (|| SelectDocument(lookup.value.filings[0].documents).None?
              || SelectDocument(lookup.value.filings[0].documents).value.documentId == ""
              || sections.None?))
    ensures r.Fetched? ==>
      && lookup.Some? && lookup.value.filings != [] && sections == Some(r.filing.sections)
      && var doc := SelectDocument(lookup.value.filings[0].documents);
         && doc.Some? && doc.value.documentId != ""
         && r.filing == TenKFiling(ticker, lookup.value.filings[0].accnum, doc.value.documentId,
                                   doc.value.fileName, doc.value.size, ExtractFiscalYear(doc.value.fileName),
                                   r.filing.sections)
  {
    match lookup
    case None => NotFound
    case Some(l) =>
      // `.get("filings_found", 0) == 0`, where `None == 0` is false
      if (match l.filingsFound case Missing => true case Null => false case Present(n) => n == 0) then NotFound
      else if l.filings == [] then Raised
      else
        var filing := l.filings[0];
        match SelectDocument(filing.documents)
        case None => NotFound
        case Some(doc) =>
          if doc.documentId == "" then NotFound
          else
            match sections
            case None => NotFound
            case Some(ss) =>
              Fetched(TenKFiling(ticker, filing.accnum, doc.documentId, doc.fileName, doc.size,
                                 ExtractFiscalYear(doc.fileName), ss))
  }

  /**
   * A filing whose documents hold no main 10-K document gives `None`, and
   * so does a main document with an empty id, even when a later document
   * would match: the scan stops at the first match.
   */
  lemma NoMainDocument(ticker: string, l: Lookup, sections: Option<seq<Section>>)
    requires l.filingsFound !in {Missing, Present(0)} && l.filings != []
    requires forall k :: 0 <= k < |l.filings[0].documents| ==>
               (!IsMainDocument(l.filings[0].documents[k])
                || (l.filings[0].documents[k].documentId == ""
                    && forall j :: 0 <= j < k ==> !IsMainDocument(l.filings[0].documents[j])))
    ensures FetchLatest10k(ticker, Some(l), sections) == NotFound
  {
    var docs := l.filings[0].documents;
    SelectFirst(docs);
    if SelectDocument(docs).Some? {
      var i :| 0 <= i < |docs| && docs[i] == SelectDocument(docs).value && IsMainDocument(docs[i])
               && forall k :: 0 <= k < i ==> !IsMainDocument(docs[k]);
    }
  }
}
