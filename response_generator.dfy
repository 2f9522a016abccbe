/**
 * Answer synthesis: the bounded text digests handed to the language model
 * and the fixed messages returned without it.
 *
 * The model call is an oracle that sees the user's question and the
 * digest(s) the prompt is built around (the fixed instruction wording of
 * the prompts is not part of this model); `None` stands for any exception
 * it raises. `show` renders one SQL row as Python's `str(row)` does.
 */
module ResponseGenerator {
  import opened Wrappers
  import opened Text
  import VectorSearcher

  type Chunk = VectorSearcher.Chunk

  const NoSqlData := "I couldn't find any data matching your query."
  const NoChunks := "I couldn't find relevant information in the 10-K filings or transcripts for your query."
  const GenerationError := "I encountered an error generating the response."

  /** The row and chunk caps of the three digests. */
  const SqlRowCap := 10
  const ContextChunkCap := 5
  const HybridRowCap := 5
  const HybridChunkCap := 3
  const ExcerptLength := 300

  function Min(a: int, b: int): int
  {
    if a < b then a else b
  }

  /** `s[:n]` for `n >= 0`. */
  function Take<T>(s: seq<T>, n: nat): (r: seq<T>)
    ensures |r| == Min(n, |s|) && r == s[..|r|]
  {
    if n < |s| then s[..n] else s
  }

  // ---------------------------------------------------------------- numbered rows

  /** `f"{i}. {row}\n"` */
  function NumberedLine(i: int, text: string): string
  {
    IntToString(i) + ". " + text + "\n"
  }

  /** The rows, one line each, numbered from 1. */
  function NumberedLines<T>(rows: seq<T>, show: T -> string): string
  {
    if rows == [] then ""
    else NumberedLines(rows[..|rows| - 1], show) + NumberedLine(|rows|, show(rows[|rows| - 1]))
  }

  /** The rows part of a digest, built one row at a time. */
  method AppendRows<T>(summary: string, rows: seq<T>, show: T -> string) returns (r: string)
    ensures r == summary + NumberedLines(rows, show)
  {
    r := summary;
    var i := 0;
    while i < |rows|
      invariant 0 <= i <= |rows|
      invariant r == summary + NumberedLines(rows[..i], show)
    {
      AppendRowsStep(summary, rows, show, i);
      r := r + NumberedLine(i + 1, show(rows[i]));
      i := i + 1;
    }
    assert rows[..i] == rows;
  }

  /** One more row adds its numbered line at the end. */
  lemma AppendRowsStep<T>(summary: string, rows: seq<T>, show: T -> string, i: nat)
    requires i < |rows|
    ensures summary + NumberedLines(rows[..i + 1], show)
         == (summary + NumberedLines(rows[..i], show)) + NumberedLine(i + 1, show(rows[i]))
  {
    assert rows[..i + 1][..i] == rows[..i];
    var a, b, c := summary, NumberedLines(rows[..i], show), NumberedLine(i + 1, show(rows[i]));
    assert NumberedLines(rows[..i + 1], show) == b + c;
    assert a + (b + c) == (a + b) + c;
  }

  lemma NoNewlineInNumber(i: int)
    ensures CountChar(IntToString(i), '\n') == 0
  {
  }

  /** Each numbered line holds exactly one line break when the row's text has none. */
  lemma {:induction false} NumberedLinesBreaks<T>(rows: seq<T>, show: T -> string)
    requires forall k :: 0 <= k < |rows| ==> CountChar(show(rows[k]), '\n') == 0
    ensures CountChar(NumberedLines(rows, show), '\n') == |rows|
    decreases |rows|
  {
    if rows != [] {
      var init := rows[..|rows| - 1];
      var last := rows[|rows| - 1];
      NumberedLinesBreaks(init, show);
      NoNewlineInNumber(|rows|);
      assert CountChar(". ", '\n') == 0;
      assert CountChar("\n", '\n') == 1;
      CountCharAppend(IntToString(|rows|), ". ", '\n');
      CountCharAppend(IntToString(|rows|) + ". ", show(last), '\n');
      CountCharAppend(IntToString(|rows|) + ". " + show(last), "\n", '\n');
      CountCharAppend(NumberedLines(init, show), NumberedLine(|rows|, show(last)), '\n');
    }
  }

  /** Only the rows listed change the lines: two lists that agree on them give the same text. */
  lemma NumberedLinesOfPrefix<T>(rows: seq<T>, other: seq<T>, n: nat, show: T -> string)
    requires n <= |rows| && n <= |other| && rows[..n] == other[..n]
    ensures NumberedLines(Take(rows, n), show) == NumberedLines(Take(other, n), show)
  {
  }

  // ---------------------------------------------------------------- generate_from_sql

  function MoreLine(n: int): string
  {
    if n > SqlRowCap then "... and " + IntToString(n - SqlRowCap) + " more results" else ""
  }

  /** The SQL digest: a count, the first ten rows numbered from 1, and a note of the rest. */
  function SqlDigest<T>(rows: seq<T>, show: T -> string): string
  {
    DigestHead(|rows|) + NumberedLines(Take(rows, SqlRowCap), show) + MoreLine(|rows|)
  }

  method SqlSummary<T>(rows: seq<T>, show: T -> string) returns (summary: string)
    ensures summary == SqlDigest(rows, show)
  {
    summary := DigestHead(|rows|);
    summary := AppendRows(summary, Take(rows, SqlRowCap), show);
    if |rows| > SqlRowCap {
      summary := summary + "... and " + IntToString(|rows| - SqlRowCap) + " more results";
    }
  }

  /**
   * The digest ends in a line break exactly when there are at most ten
   * rows; otherwise it ends with the "... and n more results" note.
   */
  lemma SqlDigestEnding<T>(rows: seq<T>, show: T -> string)
    ensures var d := SqlDigest(rows, show);
      |d| > 0 && (d[|d| - 1] == '\n' <==> |rows| <= SqlRowCap)
    ensures |rows| > SqlRowCap ==>
      EndsWith(SqlDigest(rows, show), "... and " + IntToString(|rows| - SqlRowCap) + " more results")
  {
    var head := DigestHead(|rows|);
    var lines := NumberedLines(Take(rows, SqlRowCap), show);
    assert SqlDigest(rows, show) == head + lines + MoreLine(|rows|);
    if |rows| <= SqlRowCap {
      if rows != [] {
        assert lines[|lines| - 1] == '\n';
      }
    }
  }

  function DigestHead(n: int): string
  {
    "Found " + IntToString(n) + " results:" + "\n"
  }

  lemma DigestHeadBreaks(n: int)
    ensures CountChar(DigestHead(n), '\n') == 1
  {
    var num := IntToString(n);
    NoNewlineInNumber(n);
    HeadLiteralBreaks();
    CountCharAppend("Found ", num, '\n');
    CountCharAppend("Found " + num, " results:", '\n');
    CountCharAppend("Found " + num + " results:", "\n", '\n');
  }

  lemma HeadLiteralBreaks()
    ensures CountChar("Found ", '\n') == 0 && CountChar(" results:", '\n') == 0
    ensures CountChar("\n", '\n') == 1
  {
    CountCharAbsent("Found ", '\n');
    CountCharAbsent(" results:", '\n');
    CountCharSingle('\n');
  }

  lemma MoreLineBreaks(n: int)
    ensures CountChar(MoreLine(n), '\n') == 0
  {
    if n > SqlRowCap {
      var num := IntToString(n - SqlRowCap);
      NoNewlineInNumber(n - SqlRowCap);
      MoreLiteralBreaks();
      CountCharAppend("... and ", num, '\n');
      CountCharAppend("... and " + num, " more results", '\n');
    }
  }

  lemma MoreLiteralBreaks()
    ensures CountChar("... and ", '\n') == 0 && CountChar(" more results", '\n') == 0
  {
    CountCharAbsent("... and ", '\n');
    CountCharAbsent(" more results", '\n');
  }

  /**
   * When no row's text holds a line break, the digest has one line for
   * the count and one per listed row: at most ten.
   */
  lemma SqlDigestLines<T>(rows: seq<T>, show: T -> string)
    requires forall k :: 0 <= k < |rows| ==> CountChar(show(rows[k]), '\n') == 0
    ensures CountChar(SqlDigest(rows, show), '\n') == 1 + Min(|rows|, SqlRowCap)
  {
    var shown := Take(rows, SqlRowCap);
    var lines := NumberedLines(shown, show);
    NumberedLinesBreaks(shown, show);
    DigestHeadBreaks(|rows|);
    MoreLineBreaks(|rows|);
    assert SqlDigest(rows, show) == DigestHead(|rows|) + lines + MoreLine(|rows|);
    CountCharAppend(DigestHead(|rows|), lines, '\n');
    CountCharAppend(DigestHead(|rows|) + lines, MoreLine(|rows|), '\n');
  }

  /** Rows after the tenth change only the count and the note, not what is listed. */
  lemma SqlDigestFirstTen<T>(rows: seq<T>, other: seq<T>, show: T -> string)
    requires |rows| == |other| && |rows| >= SqlRowCap && rows[..SqlRowCap] == other[..SqlRowCap]
    ensures SqlDigest(rows, show) == SqlDigest(other, show)
  {
    NumberedLinesOfPrefix(rows, other, SqlRowCap, show);
  }

  /** The model's answer, or the fixed error message when the call raised. */
  function Answered(reply: Option<string>): string
  {
    if reply.Some? then reply.value else GenerationError
  }

  /**
   * `generate_from_sql`: no rows gives the fixed message without asking the
   * model; otherwise the model answers from the digest. The SQL text is not used.
   */
  method GenerateFromSql<T>(answer: (string, string) -> Option<string>, userQuery: string,
                            rows: seq<T>, show: T -> string) returns (text: string)
    ensures rows == [] ==> text == NoSqlData
    ensures rows != [] ==> text == Answered(answer(userQuery, SqlDigest(rows, show)))
    ensures rows != [] && answer(userQuery, SqlDigest(rows, show)).None? ==> text == GenerationError
  {
    if rows == [] {
      return NoSqlData;
    }
    var summary := SqlSummary(rows, show);
    var reply := answer(userQuery, summary);
    text := Answered(reply);
  }

  // ---------------------------------------------------------------- chunk headings

  /** Python's `str(x)` of an optional value: `"None"` when it is missing or NULL. */
  function OptionalText(x: Option<string>): string
  {
    if x.Some? then x.value else "None"
  }

  function OptionalNumber(x: Option<int>): string
  {
    if x.Some? then IntToString(x.value) else "None"
  }

  /** A transcript result carries the `speaker` key, so only a NULL speaker reads "None". */
  predicate IsCall(c: Chunk)
  {
    c.sourceType == Some(VectorSearcher.EarningCall)
  }

  /**
   * How a result is introduced: period and speaker for an earnings call,
   * the section label (or "Section") for anything else, 10-K by default.
   */
  function Heading(c: Chunk): (h: string)
    ensures IsCall(c) ==> StartsWith(h, "Q")
    ensures !IsCall(c) ==> StartsWith(h, "10-K ")
  {
    if IsCall(c) then
      "Q" + OptionalNumber(c.fiscalQuarter) + " " + OptionalNumber(Get(c.fiscalYear)) +
      " Earnings Call - " + OptionalText(c.speaker)
    else
      "10-K " + (if c.itemLabel.Some? then c.itemLabel.value else "Section")
  }

  /** On a transcript result the heading's period is its `source_period` tag. */
  lemma CallHeadingPeriod(c: Chunk)
    requires IsCall(c) && c.fiscalQuarter.Some? && c.fiscalYear.Present?
    ensures StartsWith(Heading(c), VectorSearcher.PeriodText(VectorSearcher.Quarter(c.fiscalQuarter.value, c.fiscalYear.value)))
  {
    var p := "Q" + IntToString(c.fiscalQuarter.value) + " " + IntToString(c.fiscalYear.value);
    assert Heading(c) == p + " Earnings Call - " + OptionalText(c.speaker);
  }

  // ---------------------------------------------------------------- generate_from_vectors

  function SourceEntry(i: int, c: Chunk): string
  {
    "\n[Source " + IntToString(i) + ": " + c.companyName + " - " + Heading(c) + "]\n" + c.chunkText + "\n"
  }

  /** The results, each with its numbered source line and its full text. */
  function SourceEntries(chunks: seq<Chunk>): string
  {
    if chunks == [] then ""
    else SourceEntries(chunks[..|chunks| - 1]) + SourceEntry(|chunks|, chunks[|chunks| - 1])
  }

  /** The context of `generate_from_vectors`: the first five results. */
  function VectorContext(chunks: seq<Chunk>): string
  {
    SourceEntries(Take(chunks, ContextChunkCap))
  }

  method BuildVectorContext(chunks: seq<Chunk>) returns (context: string)
    ensures context == VectorContext(chunks)
  {
    var used := Take(chunks, ContextChunkCap);
    context := "";
    var i := 0;
    while i < |used|
      invariant 0 <= i <= |used|
      invariant context == SourceEntries(used[..i])
    {
      SourceEntriesStep(used, i);
      context := context + SourceEntry(i + 1, used[i]);
      i := i + 1;
    }
    assert used[..i] == used;
  }

  /** One more result adds its numbered entry at the end. */
  lemma SourceEntriesStep(used: seq<Chunk>, i: nat)
    requires i < |used|
    ensures SourceEntries(used[..i + 1]) == SourceEntries(used[..i]) + SourceEntry(i + 1, used[i])
  {
    assert used[..i + 1][..i] == used[..i];
  }

  /** Every listed result's entry, number included, is in the entries. */
  lemma {:induction false} SourceEntriesHold(chunks: seq<Chunk>, k: int)
    requires 0 <= k < |chunks|
    ensures Contains(SourceEntries(chunks), SourceEntry(k + 1, chunks[k]))
    decreases |chunks|
  {
    var init := chunks[..|chunks| - 1];
    var last := SourceEntry(|chunks|, chunks[|chunks| - 1]);
    if k == |chunks| - 1 {
      ContainsMiddle(SourceEntries(init), last, "");
      assert SourceEntries(init) + last + "" == SourceEntries(chunks);
    } else {
      assert init[k] == chunks[k];
      SourceEntriesHold(init, k);
      ContainsMiddle("", SourceEntries(init), last);
      assert "" + SourceEntries(init) + last == SourceEntries(chunks);
      ContainsTransitive(SourceEntries(chunks), SourceEntries(init), SourceEntry(k + 1, chunks[k]));
    }
  }

  /**
   * The context holds each of the first five results, numbered from 1,
   * and depends on nothing after the fifth.
   */
  lemma VectorContextShape(chunks: seq<Chunk>, other: seq<Chunk>)
    ensures forall k :: 0 <= k < Min(|chunks|, ContextChunkCap) ==>
      Contains(VectorContext(chunks), SourceEntry(k + 1, chunks[k]))
    ensures (|chunks| >= ContextChunkCap && |other| >= ContextChunkCap &&
             chunks[..ContextChunkCap] == other[..ContextChunkCap]) ==> VectorContext(chunks) == VectorContext(other)
  {
    var used := Take(chunks, ContextChunkCap);
    forall k | 0 <= k < Min(|chunks|, ContextChunkCap)
      ensures Contains(VectorContext(chunks), SourceEntry(k + 1, chunks[k]))
    {
      assert used[k] == chunks[k];
      SourceEntriesHold(used, k);
    }
  }

  /** `generate_from_vectors`: no results gives the fixed message; otherwise the model answers from the context. */
  method GenerateFromVectors(answer: (string, string) -> Option<string>, userQuery: string, chunks: seq<Chunk>)
    returns (text: string)
    ensures chunks == [] ==> text == NoChunks
    ensures chunks != [] ==> text == Answered(answer(userQuery, VectorContext(chunks)))
  {
    if chunks == [] {
      return NoChunks;
    }
    var context := BuildVectorContext(chunks);
    var reply := answer(userQuery, context);
    text := Answered(reply);
  }

  // ---------------------------------------------------------------- generate_hybrid_response

  /** `text[:300] + "..."` */
  function Excerpt(text: string): (r: string)
    ensures |r| == Min(|text|, ExcerptLength) + 3
    ensures r[..|r| - 3] == text[..|r| - 3]
    ensures EndsWith(r, "...")
  {
    Take(text, ExcerptLength) + "..."
  }

  function BriefEntry(c: Chunk): string
  {
    "\n[" + c.companyName + " - " + Heading(c) + "]\n" + Excerpt(c.chunkText) + "\n"
  }

  function BriefEntries(chunks: seq<Chunk>): string
  {
    if chunks == [] then "" else BriefEntries(chunks[..|chunks| - 1]) + BriefEntry(chunks[|chunks| - 1])
  }

  const SqlSectionHead := "SQL Results ("
  const ContextTitle := "Additional Context from Filings and Transcripts:\n"

  /** The hybrid SQL section: empty without rows, else a count and the first five rows. */
  function SqlSection<T>(rows: seq<T>, show: T -> string): string
  {
    if rows == [] then ""
    else SqlSectionHead + IntToString(|rows|) + " rows):\n" + NumberedLines(Take(rows, HybridRowCap), show)
  }

  /** The hybrid context section: empty without results, else the first three as excerpts. */
  function ContextSection(chunks: seq<Chunk>): string
  {
    if chunks == [] then "" else "\n" + ContextTitle + BriefEntries(Take(chunks, HybridChunkCap))
  }

  method BuildSqlSection<T>(rows: seq<T>, show: T -> string) returns (section: string)
    ensures section == SqlSection(rows, show)
  {
    section := "";
    if rows != [] {
      section := SqlSectionHead + IntToString(|rows|) + " rows):\n";
      section := AppendRows(section, Take(rows, HybridRowCap), show);
    }
  }

  method BuildContextSection(chunks: seq<Chunk>) returns (section: string)
    ensures section == ContextSection(chunks)
  {
    section := "";
    if chunks != [] {
      var used := Take(chunks, HybridChunkCap);
      var entries := "";
      var i := 0;
      while i < |used|
        invariant 0 <= i <= |used|
        invariant entries == BriefEntries(used[..i])
      {
        assert used[..i + 1][..i] == used[..i];
        assert BriefEntries(used[..i + 1]) == BriefEntries(used[..i]) + BriefEntry(used[i]);
        entries := entries + BriefEntry(used[i]);
        i := i + 1;
      }
      assert used[..i] == used;
      section := "\n" + ContextTitle + entries;
    }
  }

  /** Each section is omitted exactly when its input is empty. */
  lemma HybridSectionsEmpty<T>(rows: seq<T>, show: T -> string, chunks: seq<Chunk>)
    ensures SqlSection(rows, show) == "" <==> rows == []
    ensures ContextSection(chunks) == "" <==> chunks == []
  {
    if rows != [] {
      assert SqlSection(rows, show)[0] == 'S';
    }
    if chunks != [] {
      assert ContextSection(chunks)[0] == '\n';
    }
  }

  /** The hybrid SQL section lists at most five rows, one line each when no row's text breaks a line. */
  lemma HybridRowLines<T>(rows: seq<T>, show: T -> string)
    requires forall k :: 0 <= k < |rows| ==> CountChar(show(rows[k]), '\n') == 0
    ensures CountChar(NumberedLines(Take(rows, HybridRowCap), show), '\n') == Min(|rows|, HybridRowCap)
  {
    var used := Take(rows, HybridRowCap);
    assert forall k :: 0 <= k < |used| ==> used[k] == rows[k];
    NumberedLinesBreaks(used, show);
  }

  /** The hybrid context section depends on no result after the third. */
  lemma HybridContextPrefix(chunks: seq<Chunk>, other: seq<Chunk>)
    requires |chunks| >= HybridChunkCap && |other| >= HybridChunkCap
    requires chunks[..HybridChunkCap] == other[..HybridChunkCap]
    ensures ContextSection(chunks) == ContextSection(other)
  {
    assert Take(chunks, HybridChunkCap) == chunks[..HybridChunkCap];
    assert Take(other, HybridChunkCap) == other[..HybridChunkCap];
  }

  /**
   * `generate_hybrid_response`: the model is always asked, with the
   * question and both sections, even when both are empty.
   */
  method GenerateHybridResponse<T>(answer: (string, string, string) -> Option<string>, userQuery: string,
                                   rows: seq<T>, show: T -> string, chunks: seq<Chunk>) returns (text: string)
    ensures text == Answered(answer(userQuery, SqlSection(rows, show), ContextSection(chunks)))
  {
    var sqlSummary := BuildSqlSection(rows, show);
    var vectorSummary := BuildContextSection(chunks);
    var reply := answer(userQuery, sqlSummary, vectorSummary);
    text := Answered(reply);
  }
}
