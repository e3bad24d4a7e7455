/**
 * Cleaning of the language model's dashboard answer before `JSON.parse`:
 * every code fence is removed with a global regular-expression replace, then
 * the text is trimmed. page.tsx removes "```json" and then "```" in two
 * passes; FirstScreen/app/dashboard/page.tsx removes both in one pass with the
 * alternation /```json|```/g.
 */
module Fences {
  import opened Wrappers
  import opened Text

  const Fence: string := "```"
  const JsonFence: string := "```json"

  /** Every pattern of a replace: non-empty, so the scan always moves on. */
  predicate Patterns(pats: seq<string>) {
    forall p :: p in pats ==> p != []
  }

  /**
   * The length of the first alternative that matches at the front of `s`:
   * a regular-expression alternation tries its alternatives left to right.
   */
  function MatchLen(s: string, pats: seq<string>): (n: Option<nat>)
    requires Patterns(pats)
    ensures n.Some? ==> 0 < n.value <= |s| && exists p :: p in pats && |p| == n.value && StartsWith(s, p)
    ensures n.Some? ==> exists k :: FirstMatch(s, pats, k) && n.value == |pats[k]|
    ensures n.None? ==> forall p :: p in pats ==> !StartsWith(s, p)
  {
    if pats == [] then None
    else if StartsWith(s, pats[0]) then assert pats[0] in pats && FirstMatch(s, pats, 0); Some(|pats[0]|)
    else
      assert forall p :: p in pats[1..] ==> p in pats;
      var m := MatchLen(s, pats[1..]);
      assert forall p :: p in pats ==> p == pats[0] || p in pats[1..];
      FirstMatchTail(s, pats, m);
      m
  }

  /** Alternative `k` matches at the front of `s` and none before it does. */
  predicate FirstMatch(s: string, pats: seq<string>, k: int) {
    0 <= k < |pats| && StartsWith(s, pats[k]) && forall j :: 0 <= j < k ==> !StartsWith(s, pats[j])
  }

  /** A first match among all but the first alternative, which fails, is a first match among all. */
  lemma FirstMatchTail(s: string, pats: seq<string>, m: Option<nat>)
    requires pats != [] && !StartsWith(s, pats[0])
    requires m.Some? ==> exists k :: FirstMatch(s, pats[1..], k) && m.value == |pats[1..][k]|
    ensures m.Some? ==> exists k :: FirstMatch(s, pats, k) && m.value == |pats[k]|
  {
    if m.Some? {
      var k :| FirstMatch(s, pats[1..], k) && m.value == |pats[1..][k]|;
      assert forall j :: 1 <= j < k + 1 ==> pats[j] == pats[1..][j - 1];
      assert FirstMatch(s, pats, k + 1);
    }
  }

  /**
   * `s.replace(/p1|p2|.../g, "")` for literal alternatives: scanning from the
   * left, a match is dropped and the scan resumes after it; elsewhere one
   * character is kept.
   */
  function ReplaceAll(s: string, pats: seq<string>): (r: string)
    requires Patterns(pats)
    ensures |r| <= |s|
    decreases |s|
  {
    if s == [] then []
    else
      var m := MatchLen(s, pats);
      if m.Some? then ReplaceAll(s[m.value..], pats) else [s[0]] + ReplaceAll(s[1..], pats)
  }

  /** A fence starts at position `k`. */
  predicate FenceAt(t: string, k: int) {
    0 <= k <= |t| - 3 && t[k] == '`' && t[k + 1] == '`' && t[k + 2] == '`'
  }

  /** No "```" anywhere. */
  predicate FenceFree(t: string) {
    forall k :: 0 <= k < |t| ==> !FenceAt(t, k)
  }

  /** The number of backticks `t` starts with. */
  function Ticks(t: string): (n: nat)
    ensures n <= |t|
  {
    if t != [] && t[0] == '`' then 1 + Ticks(t[1..]) else 0
  }

  /** Every alternative starts with a fence, and the bare fence is one of them. */
  predicate FenceAlternatives(pats: seq<string>) {
    && Patterns(pats)
    && Fence in pats
    && (forall p :: p in pats ==> StartsWith(p, Fence))
  }

  lemma StartsWithFence(t: string)
    ensures StartsWith(t, Fence) <==> FenceAt(t, 0)
    ensures FenceAt(t, 0) <==> Ticks(t) >= 3
  {
    if |t| >= 3 && t[0] == '`' && t[1] == '`' {
      assert Ticks(t) == 2 + Ticks(t[2..]);
    }
    if FenceAt(t, 0) {
      assert t[..3] == Fence;
    }
  }

  /** A text that starts with a pattern that starts with a fence starts with a fence. */
  lemma PatternFence(s: string, p: string)
    requires StartsWith(s, p) && StartsWith(p, Fence)
    ensures FenceAt(s, 0)
  {
    assert s[..3] == p[..3];
    StartsWithFence(s);
  }

  /** A string with fewer than three leading backticks and no fence after the first character has none at all. */
  lemma FreeCons(c: char, r: string)
    requires FenceFree(r)
    requires Ticks([c] + r) < 3
    ensures FenceFree([c] + r)
  {
    var t := [c] + r;
    forall k | 0 <= k < |t| ensures !FenceAt(t, k) {
      if k == 0 {
        StartsWithFence(t);
      } else {
        assert FenceAt(t, k) ==> FenceAt(r, k - 1);
      }
    }
  }

  /**
   * Removing every fence leaves none: a run of backticks is consumed three at
   * a time from its start, so fewer than three of it are kept, and a run of
   * fewer than three is kept whole.
   */
  lemma {:induction false} ReplaceLeavesNoFence(s: string, pats: seq<string>)
    requires FenceAlternatives(pats)
    ensures FenceFree(ReplaceAll(s, pats))
    ensures Ticks(ReplaceAll(s, pats)) < 3
    ensures Ticks(s) < 3 ==> Ticks(ReplaceAll(s, pats)) == Ticks(s)
    decreases |s|
  {
    if s != [] {
      var m := MatchLen(s, pats);
      StartsWithFence(s);
      if m.Some? {
        ReplaceLeavesNoFence(s[m.value..], pats);
        var p :| p in pats && |p| == m.value && StartsWith(s, p);
        PatternFence(s, p);
      } else {
        assert !StartsWith(s, Fence);
        ReplaceLeavesNoFence(s[1..], pats);
        FreeCons(s[0], ReplaceAll(s[1..], pats));
      }
    }
  }

  /** A text without fences contains no match, so the replace changes nothing. */
  lemma {:induction false} ReplaceFreeUnchanged(s: string, pats: seq<string>)
    requires Patterns(pats) && forall p :: p in pats ==> StartsWith(p, Fence)
    requires FenceFree(s)
    ensures ReplaceAll(s, pats) == s
    decreases |s|
  {
    if s != [] {
      if MatchLen(s, pats).Some? {
        var p :| p in pats && |p| == MatchLen(s, pats).value && StartsWith(s, p);
        PatternFence(s, p);
        assert false;
      }
      assert FenceFree(s[1..]) by {
        forall k | 0 <= k < |s[1..]| ensures !FenceAt(s[1..], k) {
          assert FenceAt(s[1..], k) ==> FenceAt(s, k + 1);
        }
      }
      ReplaceFreeUnchanged(s[1..], pats);
    }
  }

  /** A slice of a text without fences has none. */
  lemma SliceFree(t: string, i: nat, r: string)
    requires i + |r| <= |t| && r == t[i..i + |r|] && FenceFree(t)
    ensures FenceFree(r)
  {
    forall k | 0 <= k < |r| ensures !FenceAt(r, k) {
      assert FenceAt(r, k) ==> FenceAt(t, i + k);
    }
  }

  /** Trimming a text without fences leaves none. */
  lemma TrimFree(t: string)
    requires FenceFree(t)
    ensures FenceFree(Trim(t, JsSpaces))
  {
    SliceFree(t, TrimOffset(t, JsSpaces), Trim(t, JsSpaces));
  }

  /** page.tsx: `.replace(/```json/g, "").replace(/```/g, "").trim()`. */
  function CleanTwoPass(s: string): (r: string)
    ensures |r| <= |s|
  {
    Trim(ReplaceAll(ReplaceAll(s, [JsonFence]), [Fence]), JsSpaces)
  }

  /** FirstScreen/app/dashboard/page.tsx: `.replace(/```json|```/g, "").trim()`. */
  function CleanOnePass(s: string): (r: string)
    ensures |r| <= |s|
  {
    Trim(ReplaceAll(s, [JsonFence, Fence]), JsSpaces)
  }

  /** The two-pass cleaning leaves no fence and no white space at either end. */
  lemma TwoPassClean(s: string)
    ensures FenceFree(CleanTwoPass(s))
    ensures var r := CleanTwoPass(s); r == [] || (!IsSpace(JsSpaces, r[0]) && !IsSpace(JsSpaces, r[|r| - 1]))
  {
    assert FenceFree(CleanTwoPass(s)) by {
      FenceLists();
      RemoveAndTrim(ReplaceAll(s, [JsonFence]), [Fence]);
    }
  }

  /** So does the one-pass cleaning. */
  lemma OnePassClean(s: string)
    ensures FenceFree(CleanOnePass(s))
    ensures var r := CleanOnePass(s); r == [] || (!IsSpace(JsSpaces, r[0]) && !IsSpace(JsSpaces, r[|r| - 1]))
  {
    assert FenceFree(CleanOnePass(s)) by {
      FenceLists();
      RemoveAndTrim(s, [JsonFence, Fence]);
    }
  }

  /** Both pattern lists the pages use consist of fences and include the bare one. */
  lemma FenceLists()
    ensures FenceAlternatives([Fence]) && FenceAlternatives([JsonFence, Fence])
    ensures Patterns([JsonFence]) && StartsWith(JsonFence, Fence)
  {
    assert Fence in [Fence] && Fence in [JsonFence, Fence];
    assert JsonFence[..3] == Fence;
  }

  /** Removing fences, then trimming, leaves no fence. */
  lemma RemoveAndTrim(s: string, pats: seq<string>)
    requires FenceAlternatives(pats)
    ensures FenceFree(Trim(ReplaceAll(s, pats), JsSpaces))
  {
    ReplaceLeavesNoFence(s, pats);
    TrimFree(ReplaceAll(s, pats));
  }

  /** Both cleanings only trim a text that has no fence, so cleaning is idempotent. */
  lemma CleanWithoutFences(s: string)
    requires FenceFree(s)
    ensures CleanTwoPass(s) == Trim(s, JsSpaces)
    ensures CleanOnePass(s) == Trim(s, JsSpaces)
  {
    ReplaceFreeUnchanged(s, [JsonFence]);
    ReplaceFreeUnchanged(s, [Fence]);
    ReplaceFreeUnchanged(s, [JsonFence, Fence]);
  }

  /** Cleaning a cleaned answer again changes nothing. */
  lemma TwoPassIdempotent(s: string)
    ensures CleanTwoPass(CleanTwoPass(s)) == CleanTwoPass(s)
  {
    TwoPassClean(s);
    CleanFixpoint(CleanTwoPass(s));
  }

  lemma OnePassIdempotent(s: string)
    ensures CleanOnePass(CleanOnePass(s)) == CleanOnePass(s)
  {
    OnePassClean(s);
    CleanFixpoint(CleanOnePass(s));
  }

  /** A text without fences and with non-space ends is left as it is by both cleanings. */
  lemma CleanFixpoint(c: string)
    requires FenceFree(c) && (c == [] || (!IsSpace(JsSpaces, c[0]) && !IsSpace(JsSpaces, c[|c| - 1])))
    ensures CleanTwoPass(c) == c && CleanOnePass(c) == c
  {
    CleanWithoutFences(c);
    TrimRemovesSpace(c, JsSpaces);
  }

  /**
   * The answer the pages expect, a body between "```json" and "```", cleans to
   * the trimmed body, as long as the body has no fence of its own.
   */
  lemma FencedAnswer(b: string)
    requires FenceFree(b)
    ensures CleanTwoPass(JsonFence + b + Fence) == Trim(b, JsSpaces)
    ensures CleanOnePass(JsonFence + b + Fence) == Trim(b, JsSpaces)
  {
    FenceLists();
    var s := JsonFence + b + Fence;
    assert s[..7] == JsonFence && s[7..] == b + Fence;
    assert ReplaceAll(s, [JsonFence]) == ReplaceAll(b + Fence, [JsonFence]);
    assert ReplaceAll(s, [JsonFence, Fence]) == ReplaceAll(b + Fence, [JsonFence, Fence]);
    NoTagBefore(b);
    ClosingFence(b, [Fence]);
    ClosingFence(b, [JsonFence, Fence]);
  }

  /**
   * A body between two bare fences cleans to the trimmed body too, unless it
   * starts with "json": then the opening fence and that word go together.
   * The two-pass cleaning also takes "```json" out of an opening fence
   * followed by one or two more backticks and "json".
   */
  lemma BareFencedAnswer(b: string)
    requires FenceFree(b) && !StartsWith(b, "json")
    ensures CleanOnePass(Fence + b + Fence) == Trim(b, JsSpaces)
    ensures !StartsWith(b, "`json") && !StartsWith(b, "``json") ==> CleanTwoPass(Fence + b + Fence) == Trim(b, JsSpaces)
  {
    BareFencePass(b, [JsonFence, Fence]);
    if !StartsWith(b, "`json") && !StartsWith(b, "``json") {
      BareTagPass(b);
      BareFencePass(b, [Fence]);
    }
  }

  /** The "```json" pass finds nothing in a body between bare fences. */
  lemma BareTagPass(b: string)
    requires FenceFree(b) && !StartsWith(b, "json") && !StartsWith(b, "`json") && !StartsWith(b, "``json")
    ensures ReplaceAll(Fence + b + Fence, [JsonFence]) == Fence + b + Fence
  {
    FenceLists();
    var s := Fence + b + Fence;
    assert Fence[..0] + "json" == "json" && Fence[..1] + "json" == "`json" && Fence[..2] + "json" == "``json";
    NoTag(0, b);
    NoTag(1, b);
    NoTag(2, b);
    assert s == Fence[0..] + b + Fence;
    assert s[1..] == Fence[1..] + b + Fence;
    assert s[2..] == Fence[2..] + b + Fence;
    assert s[3..] == b + Fence;
    NoTagBefore(b);
    KeepFirst(s[2..], s[3..]);
    KeepFirst(s[1..], s[2..]);
    KeepFirst(s, s[1..]);
  }

  /** Where "```json" does not start, the pass keeps the first character and goes on with the rest. */
  lemma KeepFirst(s: string, rest: string)
    requires s != [] && rest == s[1..] && !StartsWith(s, JsonFence)
    requires ReplaceAll(rest, [JsonFence]) == rest
    ensures ReplaceAll(s, [JsonFence]) == s
  {
    FenceLists();
    assert MatchLen(s, [JsonFence]).None?;
    assert s == [s[0]] + rest;
  }

  /** A fence pass removes both bare fences around the body. */
  lemma BareFencePass(b: string, pats: seq<string>)
    requires pats == [Fence] || pats == [JsonFence, Fence]
    requires FenceFree(b) && !StartsWith(b, "json")
    ensures ReplaceAll(Fence + b + Fence, pats) == b
  {
    FenceLists();
    var s := Fence + b + Fence;
    assert s[..3] == Fence && s[3..] == b + Fence;
    assert Fence[..0] + "json" == "json" && Fence[0..] == Fence;
    NoTag(0, b);
    assert MatchLen(s, pats) == Some(3) by {
      assert pats == [Fence] || pats[1..] == [Fence];
    }
    ClosingFence(b, pats);
  }

  /** No pattern that starts with a fence matches where no fence starts. */
  lemma NoFenceNoMatch(s: string, pats: seq<string>)
    requires Patterns(pats) && forall p :: p in pats ==> StartsWith(p, Fence)
    requires !FenceAt(s, 0)
    ensures MatchLen(s, pats).None?
  {
    forall p | p in pats
      ensures !StartsWith(s, p)
    {
      if StartsWith(s, p) {
        PatternFence(s, p);
      }
    }
  }

  /**
   * The text from the `k`-th backtick of an opening fence on starts with
   * "```json" only when the body starts with `k` backticks and "json".
   */
  lemma NoTag(k: nat, b: string)
    requires k <= 2 && !StartsWith(b, Fence[..k] + "json")
    ensures !StartsWith(Fence[k..] + b + Fence, JsonFence)
  {
    var s, t := Fence[k..] + b + Fence, Fence[..k] + "json";
    assert |t| == k + 4;
    if k <= |b| < k + 4 {
      assert s[3 + |b| - k] == '`' != JsonFence[3 + |b| - k];
    } else if k + 4 <= |b| {
      assert forall j :: 0 <= j < k + 4 ==> s[3 - k + j] == b[j];
      assert s[3 - k..7] == b[..k + 4] != t;
      assert JsonFence[3 - k..] == t;
    }
  }

  /**
   * Removing "```json" from a fence-free text followed by a fence changes
   * nothing: no "```" in it is followed by a letter.
   */
  lemma {:induction false} NoTagBefore(b: string)
    requires FenceFree(b)
    ensures ReplaceAll(b + Fence, [JsonFence]) == b + Fence
    decreases |b|
  {
    FenceLists();
    var s := b + Fence;
    if |s| < |JsonFence| {
      ShortUnchanged(s);
    } else {
      assert s[..3] == b[..3];
      assert !FenceAt(b, 0);
      NoFenceNoMatch(s, [JsonFence]);
      assert s[1..] == b[1..] + Fence;
      SliceFree(b, 1, b[1..]);
      NoTagBefore(b[1..]);
    }
  }

  /** A text shorter than "```json" does not contain it. */
  lemma {:induction false} ShortUnchanged(t: string)
    requires |t| < |JsonFence|
    ensures ReplaceAll(t, [JsonFence]) == t
  {
    if t != [] {
      ShortUnchanged(t[1..]);
    }
  }

  /**
   * A fence-free text followed by a fence loses exactly that fence: a run of
   * backticks at its end plus the fence is consumed three at a time from the
   * start of the run, leaving as many as the text had.
   */
  lemma {:induction false} ClosingFence(b: string, pats: seq<string>)
    requires pats == [Fence] || pats == [JsonFence, Fence]
    requires FenceFree(b)
    ensures ReplaceAll(b + Fence, pats) == b
    decreases |b|
  {
    FenceLists();
    var s := b + Fence;
    if |b| <= 2 && forall k :: 0 <= k < |b| ==> b[k] == '`' {
      assert forall k :: 0 <= k < |s| ==> s[k] == '`';
      assert s[..3] == Fence && s[3..] == b;
      assert MatchLen(s, pats) == Some(3) by {
        assert pats == [Fence] || pats[1..] == [Fence];
      }
      ReplaceFreeUnchanged(b, pats);
    } else {
      assert forall k :: 0 <= k < |b| ==> s[k] == b[k];
      assert !FenceAt(b, 0);
      assert !FenceAt(s, 0);
      NoFenceNoMatch(s, pats);
      assert s[1..] == b[1..] + Fence;
      SliceFree(b, 1, b[1..]);
      ClosingFence(b[1..], pats);
      assert b == [b[0]] + b[1..];
    }
  }
}
