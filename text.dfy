/**
 * The Python string operations the pipeline relies on, over `string`
 * (a sequence of characters): prefix and substring tests, `str.count`,
 * `str.upper` / `str.lower` on ASCII letters, `str.strip`, `str.replace`,
 * `str.join` and `str(int)`.
 */
module Text {

  /** Concatenation regroups freely; the solver often needs this step spelled out. */
  lemma Assoc<T>(a: seq<T>, b: seq<T>, c: seq<T>)
    ensures a + (b + c) == (a + b) + c
  {
  }

  predicate StartsWith(s: string, prefix: string)
  {
    |prefix| <= |s| && s[..|prefix|] == prefix
  }

  /** Python's `needle in s`: the left-to-right scan for `needle`. */
  predicate Contains(s: string, needle: string)
    decreases |s|
  {
    StartsWith(s, needle) || (|s| > 0 && Contains(s[1..], needle))
  }

  /** `needle` occurs in `s` starting at position `i`. */
  predicate OccursAt(s: string, needle: string, i: int)
  {
    0 <= i && i + |needle| <= |s| && s[i..i + |needle|] == needle
  }

  /** The scan finds `needle` exactly when it occurs at some position. */
  lemma {:induction false} ContainsIff(s: string, needle: string)
    ensures Contains(s, needle) <==> exists i :: OccursAt(s, needle, i)
    decreases |s|
  {
    if StartsWith(s, needle) {
      assert OccursAt(s, needle, 0);
    } else if |s| == 0 {
      assert !exists i :: OccursAt(s, needle, i);
    } else {
      ContainsIff(s[1..], needle);
      forall i | 0 < i && i + |needle| <= |s|
        ensures OccursAt(s, needle, i) <==> OccursAt(s[1..], needle, i - 1)
      {
        TailSlice(s, i, |needle|);
      }
      assert !OccursAt(s, needle, 0);
      if Contains(s[1..], needle) {
        var i :| OccursAt(s[1..], needle, i);
        assert OccursAt(s, needle, i + 1);
      }
    }
  }

  /** A stretch of `s[1..]` is the stretch of `s` one place further on. */
  lemma TailSlice(s: string, i: int, n: nat)
    requires 0 < i && i + n <= |s|
    ensures s[1..][i - 1..i - 1 + n] == s[i..i + n]
  {
    forall j | i <= j < i + n
      ensures s[1..][j - 1] == s[j]
    {
    }
  }

  /** A stretch of `a + b` that lies within `a`, or within `b`, is that stretch of it. */
  lemma AppendSlice(a: string, b: string, i: nat, n: nat)
    requires i + n <= |a + b|
    ensures i + n <= |a| ==> (a + b)[i..i + n] == a[i..i + n]
    ensures |a| <= i ==> (a + b)[i..i + n] == b[i - |a|..i - |a| + n]
  {
    if |a| <= i {
      forall j | |a| <= j < |a + b|
        ensures (a + b)[j] == b[j - |a|]
      {
      }
    }
  }

  lemma OccursAtContains(s: string, needle: string, i: int)
    requires OccursAt(s, needle, i)
    ensures Contains(s, needle)
  {
    ContainsIff(s, needle);
  }

  /** The middle of a concatenation is a substring of it. */
  lemma ContainsMiddle(a: string, b: string, c: string)
    ensures Contains(a + b + c, b)
  {
    assert (a + b + c)[|a|..|a| + |b|] == b;
    OccursAtContains(a + b + c, b, |a|);
  }

  /** A substring of a substring is a substring. */
  lemma ContainsTransitive(s: string, mid: string, needle: string)
    requires Contains(s, mid) && Contains(mid, needle)
    ensures Contains(s, needle)
  {
    ContainsIff(s, mid);
    ContainsIff(mid, needle);
    var i :| OccursAt(s, mid, i);
    var j :| OccursAt(mid, needle, j);
    assert mid == s[i..i + |mid|];
    assert forall k :: 0 <= k < |needle| ==> needle[k] == mid[j + k] == s[i + j + k];
    assert needle == s[i + j..i + j + |needle|];
    OccursAtContains(s, needle, i + j);
  }

  predicate EndsWith(s: string, suffix: string)
  {
    |suffix| <= |s| && s[|s| - |suffix|..] == suffix
  }

  /** A stretch of a string is a substring of it. */
  lemma ContainsSlice(s: string, lo: int, hi: int)
    requires 0 <= lo <= hi <= |s|
    ensures Contains(s, s[lo..hi])
  {
    OccursAtContains(s, s[lo..hi], lo);
  }

  /** Python's `s.count(c)` for a one-character argument. */
  function CountChar(s: string, c: char): (n: nat)
    ensures n <= |s|
    ensures n == 0 <==> forall i :: 0 <= i < |s| ==> s[i] != c
  {
    if s == [] then 0
    else (if s[0] == c then 1 else 0) + CountChar(s[1..], c)
  }

  /** A character that does not occur is counted zero times. */
  lemma CountCharAbsent(s: string, c: char)
    requires c !in s
    ensures CountChar(s, c) == 0
  {
  }

  lemma CountCharSingle(c: char)
    ensures CountChar([c], c) == 1
  {
    assert [c][1..] == [];
  }

  lemma {:induction false} CountCharAppend(a: string, b: string, c: char)
    ensures CountChar(a + b, c) == CountChar(a, c) + CountChar(b, c)
    decreases |a|
  {
    if a != [] {
      assert (a + b)[0] == a[0] && (a + b)[1..] == a[1..] + b;
      CountCharAppend(a[1..], b, c);
    } else {
      assert a + b == b;
    }
  }

  // ---------------------------------------------------------------- case mapping

  function UpperChar(c: char): char
  {
    if 'a' <= c <= 'z' then (c as int - 'a' as int + 'A' as int) as char else c
  }

  function LowerChar(c: char): char
  {
    if 'A' <= c <= 'Z' then (c as int - 'A' as int + 'a' as int) as char else c
  }

  /** `str.upper()` restricted to ASCII letters. */
  function Upper(s: string): (r: string)
    ensures |r| == |s|
    ensures forall i :: 0 <= i < |s| ==> r[i] == UpperChar(s[i])
  {
    if s == [] then [] else [UpperChar(s[0])] + Upper(s[1..])
  }

  /** `str.lower()` restricted to ASCII letters. */
  function Lower(s: string): (r: string)
    ensures |r| == |s|
    ensures forall i :: 0 <= i < |s| ==> r[i] == LowerChar(s[i])
  {
    if s == [] then [] else [LowerChar(s[0])] + Lower(s[1..])
  }

  /** Mapping every character commutes with taking a substring. */
  lemma UpperContains(s: string, needle: string)
    requires Contains(s, needle)
    ensures Contains(Upper(s), Upper(needle))
  {
    ContainsIff(s, needle);
    var i :| OccursAt(s, needle, i);
    var u := Upper(s)[i..i + |needle|];
    forall k | 0 <= k < |needle|
      ensures u[k] == Upper(needle)[k]
    {
      assert s[i..i + |needle|][k] == s[i + k];
    }
    assert u == Upper(needle);
    OccursAtContains(Upper(s), Upper(needle), i);
  }

  lemma LowerContains(s: string, needle: string)
    requires Contains(s, needle)
    ensures Contains(Lower(s), Lower(needle))
  {
    ContainsIff(s, needle);
    var i :| OccursAt(s, needle, i);
    var u := Lower(s)[i..i + |needle|];
    forall k | 0 <= k < |needle|
      ensures u[k] == Lower(needle)[k]
    {
      assert s[i..i + |needle|][k] == s[i + k];
    }
    assert u == Lower(needle);
    OccursAtContains(Lower(s), Lower(needle), i);
  }

  lemma UpperAppend(x: string, y: string)
    ensures Upper(x + y) == Upper(x) + Upper(y)
  {
    assert forall i :: 0 <= i < |x + y| ==> Upper(x + y)[i] == (Upper(x) + Upper(y))[i];
  }

  // ---------------------------------------------------------------- whitespace

  /** Python's `str.isspace()` for one character. */
  predicate IsSpace(c: char)
  {
    c == ' ' || ('\t' <= c <= '\r') || ('\U{1C}' <= c <= '\U{1F}') ||
    c == '\U{85}' || c == '\U{A0}' || c == '\U{1680}' ||
    ('\U{2000}' <= c <= '\U{200A}') || c == '\U{2028}' || c == '\U{2029}' ||
    c == '\U{202F}' || c == '\U{205F}' || c == '\U{3000}'
  }

  function LStrip(s: string): (r: string)
    ensures |r| <= |s| && r == s[|s| - |r|..]
    ensures r == [] || !IsSpace(r[0])
    ensures forall i :: 0 <= i < |s| - |r| ==> IsSpace(s[i])
  {
    if s != [] && IsSpace(s[0]) then LStrip(s[1..]) else s
  }

  function RStrip(s: string): (r: string)
    ensures |r| <= |s| && r == s[..|r|]
    ensures r == [] || !IsSpace(r[|r| - 1])
    ensures forall i :: |r| <= i < |s| ==> IsSpace(s[i])
  {
    if s != [] && IsSpace(s[|s| - 1]) then RStrip(s[..|s| - 1]) else s
  }

  /** Leading whitespace is all in the first part once that part has a non-space. */
  lemma {:induction false} LStripAppend(x: string, y: string)
    requires LStrip(x) != []
    ensures LStrip(x + y) == LStrip(x) + y
    decreases |x|
  {
    assert (x + y)[0] == x[0];
    if IsSpace(x[0]) {
      assert (x + y)[1..] == x[1..] + y;
      LStripAppend(x[1..], y);
    }
  }

  /** Trailing whitespace is all in the second part once that part has a non-space. */
  lemma {:induction false} RStripAppend(x: string, y: string)
    requires RStrip(y) != []
    ensures RStrip(x + y) == x + RStrip(y)
    decreases |y|
  {
    assert (x + y)[|x + y| - 1] == y[|y| - 1];
    if IsSpace(y[|y| - 1]) {
      assert (x + y)[..|x + y| - 1] == x + y[..|y| - 1];
      RStripAppend(x, y[..|y| - 1]);
    }
  }

  /** Python's `str.strip()` with no argument. */
  function Strip(s: string): (r: string)
  {
    LStrip(RStrip(s))
  }

  /** Stripping keeps a slice `s[lo..hi]` and drops only whitespace around it. */
  lemma StripSlice(s: string) returns (lo: nat, hi: nat)
    ensures lo <= hi <= |s| && Strip(s) == s[lo..hi]
    ensures forall i :: 0 <= i < lo ==> IsSpace(s[i])
    ensures forall i :: hi <= i < |s| ==> IsSpace(s[i])
  {
    var r := RStrip(s);
    var l := LStrip(r);
    hi := |r|;
    lo := |r| - |l|;
    assert r == s[..hi];
    assert l == r[lo..] == s[lo..hi];
    forall i | 0 <= i < lo ensures IsSpace(s[i]) {
      assert s[i] == r[i];
    }
  }

  lemma OccursInSlice(s: string, word: string, i: int, lo: int, hi: int)
    requires OccursAt(s, word, i) && 0 <= lo <= i && i + |word| <= hi <= |s|
    ensures Contains(s[lo..hi], word)
  {
    SliceOfSlice(s, lo, hi, i - lo, i - lo + |word|);
    OccursAtContains(s[lo..hi], word, i - lo);
  }

  /** A slice of a slice is a slice of the whole. */
  lemma SliceOfSlice(s: string, lo: int, hi: int, a: int, b: int)
    requires 0 <= lo <= hi <= |s| && 0 <= a <= b <= hi - lo
    ensures s[lo..hi][a..b] == s[lo + a..lo + b]
  {
    var x, y := s[lo..hi][a..b], s[lo + a..lo + b];
    forall k | 0 <= k < b - a
      ensures x[k] == y[k]
    {
      assert x[k] == s[lo + a + k];
    }
  }

  /** What the stripped string contains, the string contained. */
  lemma StripContained(s: string, needle: string)
    ensures Contains(Strip(s), needle) ==> Contains(s, needle)
  {
    var lo, hi := StripSlice(s);
    ContainsSlice(s, lo, hi);
    if Contains(Strip(s), needle) {
      ContainsTransitive(s, Strip(s), needle);
    }
  }

  /** Neither starts nor ends with whitespace. */
  predicate Trimmed(s: string)
  {
    s == [] || (!IsSpace(s[0]) && !IsSpace(s[|s| - 1]))
  }

  /** The result of stripping neither starts nor ends with whitespace. */
  lemma StripTrimmed(s: string)
    ensures Trimmed(Strip(s))
  {
    var r := RStrip(s);
    var l := LStrip(r);
    if l != [] {
      assert l == r[|r| - |l|..];
      assert l[|l| - 1] == r[|r| - 1];
    }
  }

  lemma OccursAtCovers(s: string, w: string, i: int, j: int)
    requires OccursAt(s, w, i) && 0 <= j < |s|
    ensures i <= j < i + |w| ==> s[j] in w
  {
    if i <= j < i + |w| {
      assert s[i..i + |w|][j - i] == s[j];
    }
  }

  /** A word without the character `c` found in `x + [c] + y` lies within `x` or within `y`. */
  lemma ContainsAcross(x: string, c: char, y: string, w: string)
    requires c !in w
    ensures Contains(x + [c] + y, w) ==> Contains(x, w) || Contains(y, w)
  {
    var s := x + [c] + y;
    ContainsIff(s, w);
    forall i | OccursAt(s, w, i) ensures Contains(x, w) || Contains(y, w) {
      OccursAtCovers(s, w, i, |x|);
      assert i + |w| <= |x| || i > |x|;
      AppendSlice(x + [c], y, i, |w|);
      if i + |w| <= |x| {
        AppendSlice(x, [c], i, |w|);
        OccursAtContains(x, w, i);
      } else {
        OccursAtContains(y, w, i - |x| - 1);
      }
    }
  }

  /** An occurrence of a word that neither starts nor ends with whitespace survives stripping. */
  lemma StripKeepsWord(s: string, word: string)
    requires Contains(s, word) && |word| > 0
    requires !IsSpace(word[0]) && !IsSpace(word[|word| - 1])
    ensures Contains(Strip(s), word)
  {
    ContainsIff(s, word);
    var i :| OccursAt(s, word, i);
    var lo, hi := StripSlice(s);
    assert s[i] == word[0] && s[i + |word| - 1] == word[|word| - 1];
    OccursInSlice(s, word, i, lo, hi);
  }

  /** A string that starts with a non-space keeps it through `RStrip`. */
  lemma RStripKeepsHead(s: string)
    requires s != [] && !IsSpace(s[0])
    ensures RStrip(s) != []
  {
  }

  /** Stripping `u + [c] + v` for a non-space `c` keeps what follows the stripped `u`. */
  lemma StripJoin(u: string, c: char, v: string) returns (tail: string)
    requires !IsSpace(c) && Strip(u) != []
    ensures Strip(u + [c] + v) == Strip(u) + tail
  {
    var rest := [c] + v;
    Assoc(u, [c], v);
    assert rest[0] == c;
    RStripKeepsHead(rest);
    var rr := RStrip(rest);
    RStripAppend(u, rest);
    var r := RStrip(u);
    var t := u[|r|..];
    assert u == r + t;
    Assoc(r, t, rr);
    LStripAppend(r, t + rr);
    tail := t + rr;
  }

  lemma StripKeepsWordIf(s: string, word: string)
    requires |word| > 0 && !IsSpace(word[0]) && !IsSpace(word[|word| - 1])
    ensures Contains(s, word) ==> Contains(Strip(s), word)
  {
    if Contains(s, word) {
      StripKeepsWord(s, word);
    }
  }

  /** A word without `c` that survives stripping `u + [c] + v` survives stripping `u` or `v`. */
  lemma StripAcross(u: string, c: char, v: string, w: string)
    requires c !in w && |w| > 0 && !IsSpace(w[0]) && !IsSpace(w[|w| - 1])
    ensures Contains(Strip(u + [c] + v), w) ==> Contains(Strip(u), w) || Contains(Strip(v), w)
  {
    StripContained(u + [c] + v, w);
    ContainsAcross(u, c, v, w);
    StripKeepsWordIf(u, w);
    StripKeepsWordIf(v, w);
  }

  lemma StartsWithAppend(x: string, y: string, prefix: string)
    requires StartsWith(x, prefix)
    ensures StartsWith(x + y, prefix)
  {
    assert (x + y)[..|prefix|] == x[..|prefix|];
  }

  // ---------------------------------------------------------------- replace

  /** Python's `s.replace(pat, rep)`: non-overlapping, leftmost first. */
  function ReplaceAll(s: string, pat: string, rep: string): string
    requires |pat| > 0
    decreases |s|
  {
    if |s| < |pat| then s
    else if s[..|pat|] == pat then rep + ReplaceAll(s[|pat|..], pat, rep)
    else [s[0]] + ReplaceAll(s[1..], pat, rep)
  }

  const Fence := "```"

  /** A string that does not start with a backtick keeps its first character. */
  lemma RemoveFenceHead(s: string)
    requires s != [] && s[0] != '`'
    ensures ReplaceAll(s, Fence, "") != [] && ReplaceAll(s, Fence, "")[0] == s[0]
  {
    if |s| >= 3 {
      assert s[..3] != Fence by { assert s[..3][0] == s[0]; }
    }
  }

  /**
   * Removing every fence leaves no fence behind: a run of backticks is
   * matched from its first character, so the pieces that are glued together
   * never meet on two sides of a backtick run.
   */
  lemma {:induction false} RemoveFenceComplete(s: string)
    ensures !Contains(ReplaceAll(s, Fence, ""), Fence)
    decreases |s|
  {
    var r := ReplaceAll(s, Fence, "");
    if |s| < 3 {
      assert r == s;
      ContainsIff(r, Fence);
    } else if s[..3] == Fence {
      assert r == ReplaceAll(s[3..], Fence, "");
      RemoveFenceComplete(s[3..]);
    } else {
      var t := s[1..];
      var rt := ReplaceAll(t, Fence, "");
      assert r == [s[0]] + rt;
      // No fence at position 0: among s[0], s[1], s[2] one is not a backtick,
      // and that character reaches r at the same position.
      assert s[..3] == [s[0], s[1], s[2]];
      if s[0] != '`' {
        assert r[0] != '`';
      } else if s[1] != '`' {
        RemoveFenceHead(t);
        assert |r| < 3 || r[1] != '`';
      } else {
        assert s[2] != '`';
        if |t| < 3 {
          assert rt == t;
          assert r[2] != '`';
        } else {
          assert t[..3] != Fence by { assert t[..3][1] == s[2]; }
          var u := t[1..];
          assert rt == [t[0]] + ReplaceAll(u, Fence, "");
          RemoveFenceHead(u);
          assert |r| < 3 || r[2] != '`';
        }
      }
      assert !OccursAt(r, Fence, 0);
      forall i | 0 < i && OccursAt(r, Fence, i) ensures OccursAt(rt, Fence, i - 1) {
        assert rt[i - 1..i + 2] == r[i..i + 3];
      }
      RemoveFenceComplete(t);
      ContainsIff(rt, Fence);
      ContainsIff(r, Fence);
    }
  }

  // ---------------------------------------------------------------- join, numbers

  /** Python's `sep.join(parts)`. */
  function Join(sep: string, parts: seq<string>): (r: string)
    ensures parts == [] ==> r == []
    ensures |parts| == 1 ==> r == parts[0]
  {
    if parts == [] then []
    else if |parts| == 1 then parts[0]
    else parts[0] + sep + Join(sep, parts[1..])
  }

  /** Python's `s.split(c)` for a one-character separator. */
  function Split(s: string, c: char): (r: seq<string>)
    ensures |r| > 0
  {
    if s == [] then [[]]
    else
      var rest := Split(s[1..], c);
      if s[0] == c then [[]] + rest else [[s[0]] + rest[0]] + rest[1..]
  }

  predicate Free(s: string, c: char)
  {
    forall i :: 0 <= i < |s| ==> s[i] != c
  }

  /** Splitting a string free of the separator gives it back whole. */
  lemma {:induction false} SplitFree(s: string, c: char)
    requires Free(s, c)
    ensures Split(s, c) == [s]
    decreases |s|
  {
    if s != [] {
      assert s[0] != c;
      SplitFree(s[1..], c);
      assert [s[0]] + s[1..] == s;
    }
  }

  /** Splitting at a separator after a separator-free head. */
  lemma {:induction false} SplitAt(a: string, c: char, rest: string)
    requires Free(a, c)
    ensures Split(a + [c] + rest, c) == [a] + Split(rest, c)
    decreases |a|
  {
    var s := a + [c] + rest;
    if a == [] {
      assert s[1..] == rest;
    } else {
      assert s[1..] == a[1..] + [c] + rest;
      SplitAt(a[1..], c, rest);
      assert [a[0]] + a[1..] == a;
    }
  }

  /** Joining separator-free parts and splitting again gives the parts back. */
  lemma {:induction false} SplitJoin(parts: seq<string>, c: char)
    requires |parts| > 0
    requires forall i :: 0 <= i < |parts| ==> Free(parts[i], c)
    ensures Split(Join([c], parts), c) == parts
    decreases |parts|
  {
    if |parts| == 1 {
      SplitFree(parts[0], c);
    } else {
      SplitJoin(parts[1..], c);
      SplitAt(parts[0], c, Join([c], parts[1..]));
      assert [parts[0]] + parts[1..] == parts;
    }
  }

  function DigitChar(d: nat): char
    requires d < 10
  {
    "0123456789"[d]
  }

  /** `str(n)` for a natural number: decimal digits, no leading zeros. */
  function NatToString(n: nat): (r: string)
    ensures |r| > 0
    ensures forall i :: 0 <= i < |r| ==> '0' <= r[i] <= '9'
    decreases n
  {
    if n < 10 then [DigitChar(n)] else NatToString(n / 10) + [DigitChar(n % 10)]
  }

  /** `str(i)` for any integer. */
  function IntToString(i: int): (r: string)
    ensures |r| > 0
    ensures forall k :: 0 <= k < |r| ==> r[k] == '-' || '0' <= r[k] <= '9'
  {
    if i < 0 then "-" + NatToString(-i) else NatToString(i)
  }
}
