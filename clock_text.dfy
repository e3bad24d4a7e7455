/**
 * `formatTime` of both dashboard pages: a number of seconds shown as
 * minutes and seconds, each padded to two digits and joined by a colon.
 */
module ClockText {
  import opened Wrappers
  import opened Numerals

  /**
   * JavaScript's `a % b` for a positive divisor: the remainder takes the
   * sign of the dividend (Dafny's `%` never is negative).
   */
  function JsRem(a: int, b: int): (r: int)
    requires b > 0
    ensures a >= 0 ==> 0 <= r < b
    ensures a < 0 ==> -b < r <= 0
  {
    if a >= 0 then a % b else -((-a) % b)
  }

  /** `Math.floor(seconds / 60)` and `seconds % 60`. */
  function Split(seconds: int): (parts: (int, int))
    ensures seconds >= 0 ==> parts.0 >= 0 && 0 <= parts.1 < 60 && parts.0 * 60 + parts.1 == seconds
    ensures seconds < 0 ==> parts.0 < 0 && -60 < parts.1 <= 0
  {
    (seconds / 60, JsRem(seconds, 60))
  }

  /**
   * The text both dashboards show for a time left. For a time that is not
   * negative it reads back as that number of seconds.
   */
  function FormatTime(seconds: int): (t: string)
    ensures seconds >= 0 ==> ParseClock(t) == Some(seconds)
  {
    var (mins, secs) := Split(seconds);
    if seconds >= 0 then
      ClockValue(mins, secs);
      PadStart2(IntText(mins)) + ":" + PadStart2(IntText(secs))
    else
      PadStart2(IntText(mins)) + ":" + PadStart2(IntText(secs))
  }

  /** Reads "MM:SS" text back: two digit strings around the first colon, seconds below 60. */
  function ParseClock(t: string): (r: Option<int>)
    ensures r.Some? ==> r.value >= 0
  {
    var i := ColonAt(t);
    if i.None? then None
    else
      var (m, s) := (t[..i.value], t[i.value + 1..]);
      if m != [] && s != [] && AllDigits(m) && AllDigits(s) && Value(s) < 60 then Some(Value(m) * 60 + Value(s))
      else None
  }

  /** The position of the first colon. */
  function ColonAt(t: string): (i: Option<nat>)
    ensures i.Some? ==> i.value < |t| && t[i.value] == ':'
  {
    if t == [] then None
    else if t[0] == ':' then Some(0)
    else
      var j := ColonAt(t[1..]);
      if j.None? then None else Some(j.value + 1)
  }

  /** Two digit strings around a colon read back as minutes and seconds. */
  lemma ParseJoined(a: string, b: string)
    requires a != [] && b != [] && AllDigits(a) && AllDigits(b) && Value(b) < 60
    ensures ParseClock(a + ":" + b) == Some(Value(a) * 60 + Value(b))
  {
    JoinedParts(a, b);
    ParseAround(a + ":" + b, |a|);
  }

  /** Where the colon of `a + ":" + b` is and what lies around it. */
  lemma JoinedParts(a: string, b: string)
    requires AllDigits(a)
    ensures var t := a + ":" + b;
      && |a| < |t| && t[|a|] == ':' && (forall k :: 0 <= k < |a| ==> t[k] != ':')
      && t[..|a|] == a && t[|a| + 1..] == b
  {
    var t := a + ":" + b;
    assert forall k :: 0 <= k < |a| ==> t[k] == a[k];
    assert t[..|a|] == a;
    assert t[|a| + 1..] == b;
  }

  /** Text whose first colon is at `i` reads as the numbers on either side of it. */
  lemma ParseAround(t: string, i: nat)
    requires i < |t| && t[i] == ':' && forall k :: 0 <= k < i ==> t[k] != ':'
    requires t[..i] != [] && t[i + 1..] != [] && AllDigits(t[..i]) && AllDigits(t[i + 1..]) && Value(t[i + 1..]) < 60
    ensures ParseClock(t) == Some(Value(t[..i]) * 60 + Value(t[i + 1..]))
  {
    ColonFirst(t, i);
  }

  /** The colon `ColonAt` finds is the first one. */
  lemma {:induction false} ColonFirst(t: string, i: nat)
    requires i < |t| && t[i] == ':' && forall k :: 0 <= k < i ==> t[k] != ':'
    ensures ColonAt(t) == Some(i)
  {
    if i > 0 {
      ColonFirst(t[1..], i - 1);
    }
  }

  /** Padded minutes and seconds around a colon read back as their total in seconds. */
  lemma ClockValue(mins: nat, secs: nat)
    requires secs < 60
    ensures ParseClock(PadStart2(IntText(mins)) + ":" + PadStart2(IntText(secs))) == Some(mins * 60 + secs)
  {
    PaddedText(mins);
    PaddedText(secs);
    ClockFrom(PadStart2(IntText(mins)), PadStart2(IntText(secs)), mins, secs);
  }

  lemma ClockFrom(a: string, b: string, mins: nat, secs: nat)
    requires a != [] && b != [] && AllDigits(a) && AllDigits(b)
    requires Value(a) == mins && Value(b) == secs && secs < 60
    ensures ParseClock(a + ":" + b) == Some(mins * 60 + secs)
  {
    ParseJoined(a, b);
  }

  /** The padded text of a number that is not negative is a digit string of its value. */
  lemma PaddedText(n: nat)
    ensures PadStart2(IntText(n)) != [] && AllDigits(PadStart2(IntText(n)))
    ensures Value(PadStart2(IntText(n))) == n
  {
    PadKeepsValue(IntText(n));
    ValueOfText(n);
  }

  /** Below 100 minutes the text is exactly "MM:SS". */
  lemma FormatIsFiveLong(seconds: int)
    requires 0 <= seconds < 6000
    ensures |FormatTime(seconds)| == 5
    ensures FormatTime(seconds)[2] == ':'
  {
  }
}
