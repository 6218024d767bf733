/** JavaScript's global `parseFloat`, with numbers kept exact: the result is
    NaN, a real number, or one of the two infinities. */
module JsNumber {
  import Digits

  datatype Num = NaN | Finite(value: real) | Infinite(negative: bool) {

    /** `x <= 0` on a JavaScript number; every comparison with NaN is false. */
    predicate AtMostZero() {
      (Finite? && value <= 0.0) || (Infinite? && negative)
    }

    /** `x > 0`. */
    predicate Positive() {
      (Finite? && value > 0.0) || (Infinite? && !negative)
    }

    /** Unary minus. */
    function Negated(): Num {
      match this
      case NaN => NaN
      case Finite(v) => Finite(-v)
      case Infinite(neg) => Infinite(!neg)
    }
  }

  /** White space and line terminators, which `parseFloat` skips at the start. */
  predicate IsJsWhitespace(c: char) {
    ('\t' <= c <= '\r') || c == ' ' || c == '\U{a0}' || c == '\U{feff}'
    || c == '\U{1680}' || ('\U{2000}' <= c <= '\U{200a}') || c == '\U{2028}' || c == '\U{2029}'
    || c == '\U{202f}' || c == '\U{205f}' || c == '\U{3000}'
  }

  function TrimStart(s: string): (r: string)
    ensures |r| <= |s| && r == s[|s| - |r|..]
    ensures r == [] || !IsJsWhitespace(r[0])
  {
    if s != [] && IsJsWhitespace(s[0]) then TrimStart(s[1..]) else s
  }

  function Pow10Nat(n: nat): (r: nat)
    ensures r >= 1
  {
    if n == 0 then 1 else 10 * Pow10Nat(n - 1)
  }

  /** 10 raised to an integer power, exactly. */
  function Pow10(e: int): (r: real)
    ensures r > 0.0
    ensures e == 0 ==> r == 1.0
  {
    if e >= 0 then Pow10Nat(e) as real else 1.0 / (Pow10Nat(-e) as real)
  }

  /** The exponent of an `e`/`E` part at the start of `s`: the letter, an
      optional sign and at least one digit; 0 when `s` does not start with one. */
  function Exponent(s: string): int {
    if |s| >= 2 && (s[0] == 'e' || s[0] == 'E') then
      var neg := s[1] == '-';
      var d := if s[1] == '-' || s[1] == '+' then s[2..] else s[1..];
      var k := Digits.LeadingDigits(d);
      if k == 0 then 0
      else
        var v: int := Digits.DigitsValue(d[..k]);
        if neg then -v else v
    else 0
  }

  /** The text after an optional leading sign. */
  function Unsigned(t: string): (u: string)
    ensures |u| <= |t|
  {
    if |t| > 0 && (t[0] == '-' || t[0] == '+') then t[1..] else t
  }

  /** `u` starts with a numeral `parseFloat` reads: `Infinity`, a digit, or
      a point followed by a digit. */
  predicate HasNumeral(u: string) {
    StartsInfinity(u)
    || (|u| >= 1 && Digits.IsDigit(u[0]))
    || (|u| >= 2 && u[0] == '.' && Digits.IsDigit(u[1]))
  }

  /** `parseFloat(s)`: skip leading white space, read the longest prefix that
      is a decimal literal (sign, `Infinity`, digits with an optional point
      and fraction, an optional exponent) and ignore the rest; NaN when no
      prefix is one. */
  function ParseFloat(s: string): (r: Num)
  {
    ParseTrimmed(TrimStart(s))
  }

  /** `parseFloat` on a text that does not start with white space: an
      optional sign, then an unsigned literal. */
  function ParseTrimmed(t: string): (r: Num)
  {
    var m := ParseUnsigned(Unsigned(t));
    if |t| > 0 && t[0] == '-' then m.Negated() else m
  }

  predicate StartsInfinity(u: string) {
    |u| >= 8 && u[..8] == "Infinity"
  }

  /** The unsigned decimal literal at the start of `u`. */
  function ParseUnsigned(u: string): (r: Num)
  {
    if StartsInfinity(u) then Infinite(false) else ParseDecimal(u)
  }

  /** Digits with an optional point and fraction, then an optional exponent. */
  function ParseDecimal(u: string): (r: Num)
  {
    var ip := Digits.LeadingDigits(u);
    if ip < |u| && u[ip] == '.' then ParseFraction(u[..ip], u[ip + 1..])
    else if ip == 0 then NaN
    else Finite(Scaled(u[..ip], Exponent(u[ip..])))
  }

  /** The part after the point, given the integer digits before it. */
  function ParseFraction(intPart: string, t: string): (r: Num)
    requires Digits.AllDigits(intPart)
  {
    var fp := Digits.LeadingDigits(t);
    if |intPart| == 0 && fp == 0 then NaN
    else
      var digits := intPart + t[..fp];
      assert Digits.AllDigits(digits) by {
        assert forall i :: 0 <= i < |digits| ==> digits[i] == if i < |intPart| then intPart[i] else t[..fp][i - |intPart|];
      }
      Finite(Scaled(digits, Exponent(t[fp..]) - fp))
  }

  /** The value of a digit string times a power of ten. */
  function Scaled(digits: string, e: int): real
    requires Digits.AllDigits(digits)
  {
    Digits.DigitsValue(digits) as real * Pow10(e)
  }

  /** Leading white space does not change the result. */
  lemma {:induction false} ParseSkipsWhitespace(w: string, s: string)
    requires forall i :: 0 <= i < |w| ==> IsJsWhitespace(w[i])
    ensures ParseFloat(w + s) == ParseFloat(s)
  {
    TrimStartSkips(w, s);
  }

  lemma {:induction false} TrimStartSkips(w: string, s: string)
    requires forall i :: 0 <= i < |w| ==> IsJsWhitespace(w[i])
    ensures TrimStart(w + s) == TrimStart(s)
  {
    if w != [] {
      assert (w + s)[1..] == w[1..] + s;
      TrimStartSkips(w[1..], s);
    } else {
      assert w + s == s;
    }
  }

  /** A text starting with a digit is read as an unsigned literal. */
  lemma {:induction false} ParseDigitStart(u: string)
    requires |u| > 0 && Digits.IsDigit(u[0])
    ensures ParseFloat(u) == ParseUnsigned(u)
  {
    NoTrimBefore(u);
    assert Unsigned(u) == u;
  }

  /** A minus sign followed by a digit negates the unsigned literal. */
  lemma {:induction false} ParseMinusStart(u: string, v: real)
    requires |u| > 0 && Digits.IsDigit(u[0])
    requires ParseUnsigned(u) == Finite(v)
    ensures ParseFloat("-" + u) == Finite(-v)
  {
    var s := "-" + u;
    NoTrimBefore(s);
    assert Unsigned(s) == u;
  }

  /** The decimal rendering of a natural number reads as that number. */
  lemma {:induction false} ParseNatText(n: nat)
    ensures ParseFloat(Digits.NatText(n)) == Finite(n as real)
  {
    var u := Digits.NatText(n);
    assert |u| > 0 && Digits.IsDigit(u[0]);
    assert ParseUnsigned(u) == Finite(n as real) by {
      ParseUnsignedDigits(u);
      Digits.NatTextValue(n);
    }
    ParseDigitStart(u);
  }

  /** A minus sign before the rendering of `n` reads as `-n`. */
  lemma {:induction false} ParseNegatedNatText(n: nat)
    ensures ParseFloat("-" + Digits.NatText(n)) == Finite(-(n as real))
  {
    var u := Digits.NatText(n);
    assert |u| > 0 && Digits.IsDigit(u[0]);
    assert ParseUnsigned(u) == Finite(n as real) by {
      ParseUnsignedDigits(u);
      Digits.NatTextValue(n);
    }
    ParseMinusStart(u, n as real);
  }

  /** A text starting with a sign, a point or a digit has no white space to skip. */
  lemma {:induction false} NoTrimBefore(s: string)
    requires |s| > 0 && (s[0] == '-' || s[0] == '.' || Digits.IsDigit(s[0]))
    ensures TrimStart(s) == s
  {
  }

  /** A run of digits reads as its decimal value. */
  lemma {:induction false} ParseUnsignedDigits(d: string)
    requires |d| >= 1 && Digits.AllDigits(d)
    ensures ParseUnsigned(d) == Finite(Digits.DigitsValue(d) as real)
  {
    assert !StartsInfinity(d) by {
      assert |d| >= 8 ==> d[..8][0] == d[0];
    }
    assert Digits.LeadingDigits(d) == |d|;
    assert d[..|d|] == d;
    assert Exponent(d[|d|..]) == 0;
    assert ParseDecimal(d) == Finite(Scaled(d, 0));
  }

  /** An unsigned literal is NaN exactly when no numeral starts it. */
  lemma {:induction false} ParseUnsignedNaNIff(u: string)
    ensures ParseUnsigned(u).NaN? <==> !HasNumeral(u)
  {
    if !StartsInfinity(u) {
      var ip := Digits.LeadingDigits(u);
      assert ip > 0 <==> |u| >= 1 && Digits.IsDigit(u[0]);
      if ip == 0 && ip < |u| && u[ip] == '.' {
        var t := u[1..];
        assert Digits.LeadingDigits(t) > 0 <==> |t| >= 1 && Digits.IsDigit(t[0]);
      }
    }
  }

  /** `parseFloat` gives NaN exactly when, after white space and sign, no
      numeral starts. */
  lemma {:induction false} ParseNaNIff(s: string)
    ensures ParseFloat(s).NaN? <==> !HasNumeral(Unsigned(TrimStart(s)))
  {
    ParseUnsignedNaNIff(Unsigned(TrimStart(s)));
  }

  /** A text with no digit and no `I` is not a number at all. */
  lemma {:induction false} ParseNoDigitIsNaN(s: string)
    requires forall i :: 0 <= i < |s| ==> !Digits.IsDigit(s[i]) && s[i] != 'I'
    ensures ParseFloat(s).NaN?
  {
    var t := TrimStart(s);
    var u := Unsigned(t);
    assert forall i :: 0 <= i < |u| ==> u[i] == s[|s| - |u| + i];
    assert !StartsInfinity(u) by {
      assert |u| >= 8 ==> u[..8][0] == u[0];
    }
    assert !HasNumeral(u);
    ParseNaNIff(s);
  }
}
