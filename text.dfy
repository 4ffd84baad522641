/**
 * String helpers shared by the backend and frontend models: joining,
 * substring search, replace-all, ASCII case folding, whitespace trimming
 * and whitespace splitting. Strings are `seq<char>`; case folding covers
 * ASCII letters only.
 */
module Text {

  /** `sep.join(parts)` in Python, `parts.join(sep)` in JavaScript. */
  function Join(sep: string, parts: seq<string>): string
  {
    if |parts| == 0 then ""
    else if |parts| == 1 then parts[0]
    else parts[0] + sep + Join(sep, parts[1..])
  }

  /** `s.includes(t)` / `t in s`: t occurs somewhere in s. */
  predicate Contains(s: string, t: string)
    decreases |s|
  {
    t <= s || (s != [] && Contains(s[1..], t))
  }

  /** Python `s.replace(pat, rep)`: every occurrence, scanned left to right, without overlap. */
  function ReplaceAll(s: string, pat: string, rep: string): (r: string)
    requires pat != []
    decreases |s|
  {
    if |s| < |pat| then s
    else if s[..|pat|] == pat then rep + ReplaceAll(s[|pat|..], pat, rep)
    else [s[0]] + ReplaceAll(s[1..], pat, rep)
  }

  /** A string in which pat does not occur is left alone by ReplaceAll. */
  lemma {:induction false} ReplaceAllAbsent(s: string, pat: string, rep: string)
    requires pat != [] && !Contains(s, pat)
    ensures ReplaceAll(s, pat, rep) == s
    decreases |s|
  {
    if |s| >= |pat| {
      ReplaceAllAbsent(s[1..], pat, rep);
    }
  }

  /** A leading occurrence is replaced and the scan goes on after it. */
  lemma ReplaceAllPrefix(pat: string, rep: string, rest: string)
    requires pat != []
    ensures ReplaceAll(pat + rest, pat, rep) == rep + ReplaceAll(rest, pat, rep)
  {
    assert (pat + rest)[..|pat|] == pat;
    assert (pat + rest)[|pat|..] == rest;
  }

  // ---- ASCII case folding ----

  function LowerChar(c: char): char
  {
    if 'A' <= c <= 'Z' then (c as int - 'A' as int + 'a' as int) as char else c
  }

  /** `s.lower()` / `s.toLowerCase()` over ASCII letters. */
  function Lower(s: string): (r: string)
    ensures |r| == |s|
    ensures forall i :: 0 <= i < |s| ==> r[i] == LowerChar(s[i])
  {
    seq(|s|, i requires 0 <= i < |s| => LowerChar(s[i]))
  }

  /** Lower-casing twice is lower-casing once. */
  lemma LowerIdempotent(s: string)
    ensures Lower(Lower(s)) == Lower(s)
  {
  }

  // ---- whitespace ----

  /** Python's `str.isspace` for one character. */
  predicate PySpace(c: char)
  {
    c == ' ' || ('\t' <= c <= '\r') || ('\U{1c}' <= c <= '\U{1f}') || c == '\U{85}' || c == '\U{a0}'
    || c == '\U{1680}' || ('\U{2000}' <= c <= '\U{200a}') || c == '\U{2028}' || c == '\U{2029}'
    || c == '\U{202f}' || c == '\U{205f}' || c == '\U{3000}'
  }

  /** JavaScript's regular-expression class `\s` for one character. */
  predicate JsSpace(c: char)
  {
    c == ' ' || ('\t' <= c <= '\r') || c == '\U{a0}' || c == '\U{1680}' || ('\U{2000}' <= c <= '\U{200a}')
    || c == '\U{2028}' || c == '\U{2029}' || c == '\U{202f}' || c == '\U{205f}' || c == '\U{3000}' || c == '\U{feff}'
  }

  function TrimStart(s: string): (r: string)
    ensures |r| <= |s| && r == s[|s| - |r|..]
    ensures r != [] ==> !PySpace(r[0])
    ensures forall i :: 0 <= i < |s| - |r| ==> PySpace(s[i])
  {
    if s != [] && PySpace(s[0]) then TrimStart(s[1..]) else s
  }

  function TrimEnd(s: string): (r: string)
    ensures |r| <= |s| && r == s[..|r|]
    ensures r != [] ==> !PySpace(r[|r| - 1])
    ensures forall i :: |r| <= i < |s| ==> PySpace(s[i])
  {
    if s != [] && PySpace(s[|s| - 1]) then TrimEnd(s[..|s| - 1]) else s
  }

  /** Python `s.strip()`: leading and trailing whitespace removed. */
  function Strip(s: string): (r: string)
    ensures |r| <= |s|
    ensures r != [] ==> !PySpace(r[0]) && !PySpace(r[|r| - 1])
  {
    TrimEnd(TrimStart(s))
  }

  /** Stripping a string that is only whitespace leaves it empty. */
  lemma {:induction false} StripBlank(s: string)
    requires forall i :: 0 <= i < |s| ==> PySpace(s[i])
    ensures Strip(s) == ""
  {
  }

  // ---- splitting on whitespace runs ----

  /** Index of the first JavaScript whitespace character at or after `from`, or |s|. */
  function FirstSpace(s: string, from: nat): (i: nat)
    requires from <= |s|
    ensures from <= i <= |s|
    ensures i < |s| ==> JsSpace(s[i])
    ensures forall k :: from <= k < i ==> !JsSpace(s[k])
    decreases |s| - from
  {
    if from == |s| || JsSpace(s[from]) then from else FirstSpace(s, from + 1)
  }

  /** End of the whitespace run starting at `from`. */
  function RunEnd(s: string, from: nat): (j: nat)
    requires from <= |s|
    ensures from <= j <= |s|
    ensures j < |s| ==> !JsSpace(s[j])
    ensures forall k :: from <= k < j ==> JsSpace(s[k])
    decreases |s| - from
  {
    if from == |s| || !JsSpace(s[from]) then from else RunEnd(s, from + 1)
  }

  /** JavaScript `s.split(/\s+/)`: the pieces between maximal whitespace runs, empty pieces at the ends included. */
  function SplitWs(s: string): (r: seq<string>)
    ensures |r| >= 1
    decreases |s|
  {
    var i := FirstSpace(s, 0);
    if i == |s| then [s]
    else
      var j := RunEnd(s, i);
      [s[..i]] + SplitWs(s[j..])
  }

  /** No piece of a split holds whitespace. */
  lemma {:induction false} SplitPiecesHaveNoSpace(s: string)
    ensures forall p, k :: p in SplitWs(s) && 0 <= k < |p| ==> !JsSpace(p[k])
    decreases |s|
  {
    var i := FirstSpace(s, 0);
    if i < |s| {
      var j := RunEnd(s, i);
      SplitPiecesHaveNoSpace(s[j..]);
    }
  }

  /** A string without whitespace splits into itself alone. */
  lemma SplitWord(s: string)
    requires forall k :: 0 <= k < |s| ==> !JsSpace(s[k])
    ensures SplitWs(s) == [s]
  {
  }
}
