/**
 * The calculator reads its entry string as a number with JavaScript's
 * `parseFloat`. This module models that reading for the decimal literals the
 * entry editor produces: an optional leading '-', digits, and optionally a '.'
 * followed by digits, read as the longest such prefix of the string.
 */
module Numerals {

  predicate IsDigit(c: char) {
    '0' <= c <= '9'
  }

  predicate AllDigits(s: string) {
    forall i :: 0 <= i < |s| ==> IsDigit(s[i])
  }

  function DigitValue(c: char): (d: nat)
    requires IsDigit(c)
    ensures d <= 9
  {
    (c as int) - ('0' as int)
  }

  /** The number of leading digits of `s`. */
  function DigitRun(s: string): (k: nat)
    ensures k <= |s|
    ensures AllDigits(s[..k])
    ensures k < |s| ==> !IsDigit(s[k])
  {
    if s != [] && IsDigit(s[0]) then
      var k := 1 + DigitRun(s[1..]);
      assert s[..k] == [s[0]] + s[1..][..k - 1];
      k
    else 0
  }

  /** The value of a digit string, most significant digit first. */
  function Natural(s: string): nat
    requires AllDigits(s)
  {
    if s == [] then 0 else 10 * Natural(s[..|s| - 1]) + DigitValue(s[|s| - 1])
  }

  function Power10(n: nat): (p: nat)
    ensures p >= 1
  {
    if n == 0 then 1 else 10 * Power10(n - 1)
  }

  /** The value of the longest unsigned decimal prefix `digits(.digits)?` of `s`. */
  function Unsigned(s: string): (r: real)
    ensures r >= 0.0
  {
    var k := DigitRun(s);
    var whole := Natural(s[..k]) as real;
    if k < |s| && s[k] == '.' then
      var fraction := s[k + 1..];
      var m := DigitRun(fraction);
      whole + (Natural(fraction[..m]) as real) / (Power10(m) as real)
    else
      whole
  }

  /** `parseFloat` on the strings the calculator edits; no number at all reads as 0. */
  function ParseFloat(s: string): (r: real)
    ensures s != [] && s[0] == '-' ==> r <= 0.0
    ensures s != [] && s[0] == '-' && (|s| == 1 || s[1] != '-') ==> r == -ParseFloat(s[1..])
    ensures s == [] || s[0] != '-' ==> r >= 0.0
    ensures s == [] || !(IsDigit(s[0]) || s[0] == '-' || s[0] == '.') ==> r == 0.0
  {
    if s != [] && s[0] == '-' then -Unsigned(s[1..]) else Unsigned(s)
  }

  /** `Number.isInteger` on a finite value. */
  predicate IsInteger(x: real) {
    x.Floor as real == x
  }

  /** `Number.isInteger` holds of every whole number and of nothing strictly between two consecutive ones. */
  lemma IntegerValues(n: int, x: real)
    ensures IsInteger(n as real)
    ensures n as real < x < n as real + 1.0 ==> !IsInteger(x)
  {
    if n as real < x < n as real + 1.0 {
      var f := x.Floor;
      assert n < f + 1 by { assert n as real < x < f as real + 1.0; }
      assert f < n + 1 by { assert f as real <= x < n as real + 1.0; }
    }
  }

  /** A string of digits reads as its natural value. */
  lemma ParseDigits(s: string)
    requires AllDigits(s)
    ensures ParseFloat(s) == Natural(s) as real
  {
    assert s[..DigitRun(s)] == s;
  }

  /** A single digit reads as its value. */
  lemma ParseDigit(c: char)
    requires IsDigit(c)
    ensures ParseFloat([c]) == DigitValue(c) as real
  {
    ParseDigits([c]);
    assert [c][..0] == [];
  }

  /** Appending one more digit to a digit string shifts its value one decimal place. */
  lemma AppendDigitValue(s: string, c: char)
    requires AllDigits(s) && IsDigit(c)
    ensures ParseFloat(s + [c]) == 10.0 * ParseFloat(s) + DigitValue(c) as real
  {
    var t := s + [c];
    assert AllDigits(t);
    assert t[..|t| - 1] == s;
    ParseDigits(s);
    ParseDigits(t);
  }

  /** A digit run is not lengthened by appending a character that is not a digit. */
  lemma {:induction false} DigitRunAppend(s: string, c: char)
    requires !IsDigit(c)
    ensures DigitRun(s + [c]) == DigitRun(s)
  {
    if s != [] {
      assert (s + [c])[1..] == s[1..] + [c];
      if IsDigit(s[0]) {
        DigitRunAppend(s[1..], c);
      }
    }
  }

  /** The digit run of a digit string followed by a non-digit ends where the digit string does. */
  lemma {:induction false} DigitRunStops(w: string, rest: string)
    requires AllDigits(w) && rest != [] && !IsDigit(rest[0])
    ensures DigitRun(w + rest) == |w|
  {
    if w != [] {
      assert (w + rest)[1..] == w[1..] + rest;
      DigitRunStops(w[1..], rest);
    }
  }

  /** The value of `w.f`, for digit strings `w` and `f`. */
  function Decimal(w: string, f: string): real
    requires AllDigits(w) && AllDigits(f)
  {
    Natural(w) as real + Natural(f) as real / Power10(|f|) as real
  }

  lemma UnsignedFraction(w: string, f: string)
    requires AllDigits(w) && AllDigits(f)
    ensures Unsigned(w + "." + f) == Decimal(w, f)
  {
    var t := w + "." + f;
    assert t == w + ("." + f);
    DigitRunStops(w, "." + f);
    var k := DigitRun(t);
    assert t[..k] == w;
    assert k < |t| && t[k] == '.';
    var fraction := t[k + 1..];
    assert fraction == f;
    assert fraction[..DigitRun(fraction)] == f;
  }

  /** A literal with a fraction, `w.f`, reads as its whole part plus its fraction digits scaled by the power of ten of their count. */
  lemma FractionValue(w: string, f: string)
    requires AllDigits(w) && AllDigits(f)
    ensures ParseFloat(w + "." + f) == Decimal(w, f)
  {
    var t := w + "." + f;
    UnsignedFraction(w, f);
    assert t[0] != '-' by {
      assert t == w + ("." + f);
      if w != [] { assert t[0] == w[0]; } else { assert t[0] == '.'; }
    }
    assert ParseFloat(t) == Unsigned(t);
  }

  /** The same literal with a leading '-' reads as the negated value. */
  lemma NegativeFractionValue(w: string, f: string)
    requires AllDigits(w) && AllDigits(f)
    ensures ParseFloat("-" + w + "." + f) == -Decimal(w, f)
  {
    var t := w + "." + f;
    var u := "-" + w + "." + f;
    UnsignedFraction(w, f);
    assert u == "-" + t;
    assert u[0] == '-' && u[1..] == t;
    assert ParseFloat(u) == -Unsigned(t);
  }

  /** Appending a decimal point to a string that has none keeps the value it reads as. */
  lemma AppendPointValue(s: string)
    requires '.' !in s
    ensures ParseFloat(s + ".") == ParseFloat(s)
  {
    if s != [] && s[0] == '-' {
      assert (s + ".")[1..] == s[1..] + ".";
      UnsignedAppendPoint(s[1..]);
    } else {
      UnsignedAppendPoint(s);
    }
  }

  lemma UnsignedAppendPoint(t: string)
    requires '.' !in t
    ensures Unsigned(t + ".") == Unsigned(t)
  {
    var u := t + ".";
    DigitRunAppend(t, '.');
    var k := DigitRun(t);
    assert u[..k] == t[..k];
    if k == |t| {
      assert u[k + 1..] == [];
    } else {
      assert u[k] == t[k];
    }
  }
}
