/**
 * String helpers shared by the Python scripts and the TypeScript pages:
 * ASCII lower-casing (Python's `str.lower` on host names and model answers),
 * prefix tests, and trimming by a whitespace predicate (Python's `str.strip()`,
 * JavaScript's `String.prototype.trim`).
 */
module Text {

  predicate IsUpper(c: char) {
    'A' <= c <= 'Z'
  }

  function LowerChar(c: char): (d: char)
    ensures !IsUpper(d)
    ensures IsUpper(c) ==> d as int == c as int + 32
    ensures !IsUpper(c) ==> d == c
  {
    if IsUpper(c) then (c as int + 32) as char else c
  }

  /** Lower-cases every ASCII letter and leaves every other character alone. */
  function Lower(s: string): (r: string)
    ensures |r| == |s|
    ensures forall i :: 0 <= i < |s| ==> r[i] == LowerChar(s[i])
  {
    seq(|s|, i requires 0 <= i < |s| => LowerChar(s[i]))
  }

  predicate NoUpper(s: string) {
    forall i :: 0 <= i < |s| ==> !IsUpper(s[i])
  }

  /** Lower-casing leaves no upper-case letter, and a string without one is its own lower case. */
  lemma LowerFixpoint(s: string)
    ensures NoUpper(Lower(s))
    ensures NoUpper(s) <==> Lower(s) == s
  {
    if NoUpper(s) {
      assert forall i :: 0 <= i < |s| ==> Lower(s)[i] == s[i];
    }
    if Lower(s) == s {
      assert forall i :: 0 <= i < |s| ==> !IsUpper(s[i]) by {
        forall i | 0 <= i < |s| ensures !IsUpper(s[i]) {
          assert s[i] == Lower(s)[i];
        }
      }
    }
  }

  /** The white space and line terminators JavaScript's `trim` and `parseInt` skip. */
  predicate IsJsSpace(c: char) {
    || c == ' ' || '\t' <= c <= '\r' || c == '\U{A0}' || c == '\U{1680}' || '\U{2000}' <= c <= '\U{200A}'
    || c == '\U{2028}' || c == '\U{2029}' || c == '\U{202F}' || c == '\U{205F}' || c == '\U{3000}' || c == '\U{FEFF}'
  }

  /** Python's `str.isspace()`, which decides what `str.strip()` removes. */
  predicate IsPySpace(c: char) {
    || c == ' ' || '\t' <= c <= '\r' || '\U{1C}' <= c <= '\U{1F}'
    || c == '\U{85}' || c == '\U{A0}' || c == '\U{1680}' || '\U{2000}' <= c <= '\U{200A}'
    || c == '\U{2028}' || c == '\U{2029}' || c == '\U{202F}' || c == '\U{205F}' || c == '\U{3000}'
  }

  /** The two white-space sets the program trims with: JavaScript's and Python's. */
  datatype Spaces = JsSpaces | PySpaces

  predicate IsSpace(ws: Spaces, c: char) {
    if ws.JsSpaces? then IsJsSpace(c) else IsPySpace(c)
  }

  predicate StartsWith(s: string, prefix: string) {
    |prefix| <= |s| && s[..|prefix|] == prefix
  }

  /** Drops the longest prefix of white space. */
  function TrimStart(s: string, ws: Spaces): (r: string)
    ensures |r| <= |s| && r == s[|s| - |r|..]
    ensures r == [] || !IsSpace(ws, r[0])
    ensures forall i :: 0 <= i < |s| - |r| ==> IsSpace(ws, s[i])
  {
    if s != [] && IsSpace(ws, s[0]) then TrimStart(s[1..], ws) else s
  }

  /** Drops the longest suffix of white space. */
  function TrimEnd(s: string, ws: Spaces): (r: string)
    ensures |r| <= |s| && r == s[..|r|]
    ensures r == [] || !IsSpace(ws, r[|r| - 1])
    ensures forall i :: |r| <= i < |s| ==> IsSpace(ws, s[i])
  {
    if s != [] && IsSpace(ws, s[|s| - 1]) then TrimEnd(s[..|s| - 1], ws) else s
  }

  /** Number of white-space characters that `Trim` removes from the front. */
  function TrimOffset(s: string, ws: Spaces): nat
  {
    |s| - |TrimStart(s, ws)|
  }

  /**
   * Removes white space from both ends: the result is the slice of `s` that
   * starts at the first and ends at the last non-space character.
   */
  function Trim(s: string, ws: Spaces): (r: string)
    ensures TrimOffset(s, ws) + |r| <= |s|
    ensures r == s[TrimOffset(s, ws)..TrimOffset(s, ws) + |r|]
    ensures r == [] || (!IsSpace(ws, r[0]) && !IsSpace(ws, r[|r| - 1]))
  {
    TrimBoth(s, TrimStart(s, ws), TrimEnd(TrimStart(s, ws), ws), ws);
    TrimEnd(TrimStart(s, ws), ws)
  }

  /**
   * Only white space is removed, and a string with non-space ends is left
   * as it is.
   */
  lemma TrimRemovesSpace(s: string, ws: Spaces)
    ensures forall i :: 0 <= i < TrimOffset(s, ws) ==> IsSpace(ws, s[i])
    ensures forall i :: TrimOffset(s, ws) + |Trim(s, ws)| <= i < |s| ==> IsSpace(ws, s[i])
    ensures (s == [] || (!IsSpace(ws, s[0]) && !IsSpace(ws, s[|s| - 1]))) ==> Trim(s, ws) == s
  {
    TrimBoth(s, TrimStart(s, ws), TrimEnd(TrimStart(s, ws), ws), ws);
  }

  /** Cutting white space from the front and then from the back leaves a slice with space around it. */
  lemma TrimBoth(s: string, t: string, r: string, ws: Spaces)
    requires |t| <= |s| && t == s[|s| - |t|..]
    requires |r| <= |t| && r == t[..|r|]
    requires forall i :: |r| <= i < |t| ==> IsSpace(ws, t[i])
    ensures r == s[|s| - |t|..|s| - |t| + |r|]
    ensures forall i :: |s| - |t| + |r| <= i < |s| ==> IsSpace(ws, s[i])
  {
    assert forall i :: |s| - |t| <= i < |s| ==> s[i] == t[i - (|s| - |t|)];
  }

  /** Trimming a trimmed string changes nothing. */
  lemma TrimIdempotent(s: string, ws: Spaces)
    ensures Trim(Trim(s, ws), ws) == Trim(s, ws)
  {
    TrimRemovesSpace(Trim(s, ws), ws);
  }

  /** White space wrapped around a core with non-space ends is exactly what `Trim` removes. */
  lemma TrimPadded(pre: string, core: string, post: string, ws: Spaces)
    requires forall i :: 0 <= i < |pre| ==> IsSpace(ws, pre[i])
    requires forall i :: 0 <= i < |post| ==> IsSpace(ws, post[i])
    requires core != [] && !IsSpace(ws, core[0]) && !IsSpace(ws, core[|core| - 1])
    ensures Trim(pre + core + post, ws) == core
  {
    assert pre + core + post == pre + (core + post);
    TrimStartPadded(pre, core + post, ws);
    TrimEndPadded(core, post, ws);
  }

  lemma {:induction false} TrimStartPadded(pre: string, rest: string, ws: Spaces)
    requires forall i :: 0 <= i < |pre| ==> IsSpace(ws, pre[i])
    requires rest == [] || !IsSpace(ws, rest[0])
    ensures TrimStart(pre + rest, ws) == rest
  {
    if pre == [] {
      assert pre + rest == rest;
    } else {
      assert (pre + rest)[0] == pre[0];
      assert (pre + rest)[1..] == pre[1..] + rest;
      TrimStartPadded(pre[1..], rest, ws);
    }
  }

  lemma {:induction false} TrimEndPadded(rest: string, post: string, ws: Spaces)
    requires forall i :: 0 <= i < |post| ==> IsSpace(ws, post[i])
    requires rest == [] || !IsSpace(ws, rest[|rest| - 1])
    ensures TrimEnd(rest + post, ws) == rest
  {
    if post == [] {
      assert rest + post == rest;
    } else {
      var n := |post| - 1;
      assert (rest + post)[|rest + post| - 1] == post[n];
      assert (rest + post)[..|rest + post| - 1] == rest + post[..n];
      TrimEndPadded(rest, post[..n], ws);
    }
  }
}
