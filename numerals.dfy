/**
 * Decimal text of integers as the TypeScript pages produce and read it:
 * `Number.prototype.toString` on integers, `padStart(2, "0")`, and
 * `parseInt` on decimal text.
 */
module Numerals {
  import opened Wrappers
  import opened Text

  predicate IsDigit(c: char) {
    '0' <= c <= '9'
  }

  predicate AllDigits(s: string) {
    forall i :: 0 <= i < |s| ==> IsDigit(s[i])
  }

  function DigitChar(d: nat): (c: char)
    requires d < 10
    ensures IsDigit(c) && c as int - '0' as int == d
  {
    ('0' as int + d) as char
  }

  /** The value of a digit string, most significant digit first; the empty string is 0. */
  function Value(s: string): nat
    requires AllDigits(s)
  {
    if s == [] then 0 else Value(s[..|s| - 1]) * 10 + (s[|s| - 1] as int - '0' as int)
  }

  /** The shortest decimal text of `n`. */
  function DecimalText(n: nat): (t: string)
    ensures t != [] && AllDigits(t)
    ensures n < 10 ==> |t| == 1
    ensures n < 100 ==> |t| <= 2
    ensures |t| > 1 ==> t[0] != '0'
  {
    if n < 10 then [DigitChar(n)] else DecimalText(n / 10) + [DigitChar(n % 10)]
  }

  /** Reading back the decimal text of a number gives the number. */
  lemma {:induction false} ValueOfText(n: nat)
    ensures Value(DecimalText(n)) == n
  {
    if n >= 10 {
      var t := DecimalText(n);
      assert t[..|t| - 1] == DecimalText(n / 10);
      ValueOfText(n / 10);
    }
  }

  /** A leading zero does not change the value. */
  lemma {:induction false} ValueLeadingZero(t: string)
    requires AllDigits(t)
    ensures AllDigits("0" + t) && Value("0" + t) == Value(t)
  {
    if t != [] {
      var z := "0" + t;
      assert z[..|z| - 1] == "0" + t[..|t| - 1];
      ValueLeadingZero(t[..|t| - 1]);
    }
  }

  /** `n.toString()` for an integer `n`. */
  function IntText(n: int): (t: string)
    ensures n >= 0 ==> t == DecimalText(n)
    ensures n < 0 ==> t == "-" + DecimalText(-n)
  {
    if n < 0 then "-" + DecimalText(-n) else DecimalText(n)
  }

  /** `t.padStart(2, "0")`: zeros in front up to a length of 2. */
  function PadStart2(t: string): (r: string)
    ensures |r| == if |t| < 2 then 2 else |t|
    ensures r[|r| - |t|..] == t
    ensures forall i :: 0 <= i < |r| - |t| ==> r[i] == '0'
  {
    if |t| >= 2 then t else if |t| == 1 then "0" + t else "00"
  }

  /** Padding a digit string keeps it a digit string with the same value. */
  lemma PadKeepsValue(t: string)
    requires AllDigits(t)
    ensures AllDigits(PadStart2(t)) && Value(PadStart2(t)) == Value(t)
  {
    if |t| == 1 {
      ValueLeadingZero(t);
    } else if |t| == 0 {
      ValueLeadingZero("0");
    }
  }

  /** The longest run of digits at the front of `s`. */
  function DigitPrefix(s: string): (d: string)
    ensures AllDigits(d) && |d| <= |s| && d == s[..|d|]
    ensures |d| < |s| ==> !IsDigit(s[|d|])
  {
    if s != [] && IsDigit(s[0]) then [s[0]] + DigitPrefix(s[1..]) else []
  }

  /** The value of the digits at the front of `u`; None (NaN) when there are none. */
  function LeadingValue(u: string): (r: Option<nat>)
    ensures r.None? <==> u == [] || !IsDigit(u[0])
  {
    var d := DigitPrefix(u);
    if d == [] then None else Some(Value(d))
  }

  /**
   * `parseInt(s)` on decimal text: leading white space is skipped, one sign
   * is read, then the longest run of digits; no digit at all gives NaN (None).
   */
  function ParseInt(s: string): (r: Option<int>)
    ensures r.None? <==>
      var t := TrimStart(s, JsSpaces);
      var u := if t != [] && (t[0] == '-' || t[0] == '+') then t[1..] else t;
      u == [] || !IsDigit(u[0])
  {
    var t := TrimStart(s, JsSpaces);
    var u := if t != [] && (t[0] == '-' || t[0] == '+') then t[1..] else t;
    var v := LeadingValue(u);
    if v.None? then None
    else if t[0] == '-' then Some(-(v.value as int))
    else Some(v.value)
  }

  /** `parseInt` reads back what `toString` wrote. */
  lemma ParseIntOfText(n: int)
    ensures ParseInt(IntText(n)) == Some(n)
  {
    if n < 0 {
      NegativeText(n);
      ParseNegative(IntText(n), -n);
    } else {
      ValueOfText(n);
      ParseUnsigned(DecimalText(n));
    }
  }

  /** A digit string reads as its value. */
  lemma ParseUnsigned(d: string)
    requires d != [] && AllDigits(d)
    ensures ParseInt(d) == Some(Value(d))
  {
    assert IsDigit(d[0]);
    NoLeadingSpace(d);
    AllDigitsPrefix(d);
  }

  /** `parseInt` skips nothing in front of text that starts with a non-space. */
  lemma NoLeadingSpace(t: string)
    requires t != [] && !IsJsSpace(t[0])
    ensures TrimStart(t, JsSpaces) == t
  {
  }

  /** A minus sign before digits reads as their value negated. */
  lemma ParseNegative(t: string, v: nat)
    requires t != [] && t[0] == '-' && LeadingValue(t[1..]) == Some(v)
    ensures ParseInt(t) == Some(-(v as int))
  {
    NoLeadingSpace(t);
  }

  /** The text of a negative number is a minus sign before the digits of its magnitude. */
  lemma NegativeText(n: int)
    requires n < 0
    ensures IntText(n) != [] && IntText(n)[0] == '-'
    ensures LeadingValue(IntText(n)[1..]) == Some(-n)
  {
    ValueOfText(-n);
    DigitsLead(DecimalText(-n), -n);
    SignSlice(DecimalText(-n));
  }

  /** A digit string leads with all of its digits. */
  lemma DigitsLead(d: string, v: nat)
    requires d != [] && AllDigits(d) && Value(d) == v
    ensures LeadingValue(d) == Some(v)
  {
    AllDigitsPrefix(d);
  }

  lemma SignSlice(d: string)
    ensures ("-" + d)[0] == '-' && ("-" + d)[1..] == d
  {
  }

  lemma {:induction false} AllDigitsPrefix(d: string)
    requires AllDigits(d)
    ensures DigitPrefix(d) == d
  {
    if d != [] {
      AllDigitsPrefix(d[1..]);
    }
  }
}
