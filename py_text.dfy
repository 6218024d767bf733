/** The Python string operations the serverless handlers rely on:
    `str.split(sep)` with a one-character separator, `"sep".join`,
    `s.replace("'", "''")` (quote doubling before a value is spliced into an
    SQL string literal), how PostgreSQL reads such a literal back, and
    `int(s)` in base 10. */
module PyText {
  import opened Wrappers
  import Digits

  /** Number of occurrences of `c` in `s`. */
  function Count(s: string, c: char): nat {
    if s == [] then 0 else (if s[0] == c then 1 else 0) + Count(s[1..], c)
  }

  /** A character occurs nowhere exactly when its count is zero. */
  lemma {:induction false} CountZeroIff(s: string, c: char)
    ensures Count(s, c) == 0 <==> c !in s
  {
    if s != [] {
      CountZeroIff(s[1..], c);
      assert c in s <==> s[0] == c || c in s[1..];
    }
  }

  /** `sep.join(parts)`. */
  function Join(parts: seq<string>, sep: char): string
    requires |parts| >= 1
  {
    if |parts| == 1 then parts[0] else parts[0] + [sep] + Join(parts[1..], sep)
  }

  /** Five pieces joined: each followed by the separator but the last. */
  lemma {:induction false} JoinFive(a: string, b: string, c: string, d: string, e: string, sep: char)
    ensures Join([a, b, c, d, e], sep) == a + [sep] + b + [sep] + c + [sep] + d + [sep] + e
  {
    assert [d, e][1..] == [e];
    assert Join([d, e], sep) == d + [sep] + e;
    assert [c, d, e][1..] == [d, e];
    assert Join([c, d, e], sep) == c + [sep] + d + [sep] + e;
    assert [b, c, d, e][1..] == [c, d, e];
    assert Join([b, c, d, e], sep) == b + [sep] + c + [sep] + d + [sep] + e;
    assert [a, b, c, d, e][1..] == [b, c, d, e];
  }

  /** `s.split(sep)`: the pieces between occurrences of `sep`, empty pieces
      included, so there is always one more piece than separators. */
  function Split(s: string, sep: char): (parts: seq<string>)
    ensures |parts| == Count(s, sep) + 1
    ensures forall i :: 0 <= i < |parts| ==> sep !in parts[i]
  {
    if s == [] then [[]]
    else
      var rest := Split(s[1..], sep);
      if s[0] == sep then [[]] + rest
      else [[s[0]] + rest[0]] + rest[1..]
  }

  /** Joining the pieces of a split with the same separator gives back the string. */
  lemma {:induction false} JoinSplit(s: string, sep: char)
    ensures Join(Split(s, sep), sep) == s
  {
    if s != [] {
      var rest := Split(s[1..], sep);
      JoinSplit(s[1..], sep);
      if s[0] != sep && |rest| > 1 {
        assert Split(s, sep)[1..] == rest[1..];
      }
    }
  }

  /** Splitting a string that starts with a separator-free piece `a`. */
  lemma {:induction false} SplitAfterPiece(a: string, t: string, sep: char)
    requires sep !in a
    ensures Split(a + t, sep) == [a + Split(t, sep)[0]] + Split(t, sep)[1..]
  {
    if a != [] {
      assert (a + t)[1..] == a[1..] + t;
      SplitAfterPiece(a[1..], t, sep);
      assert [a[0]] + (a[1..] + Split(t, sep)[0]) == a + Split(t, sep)[0];
    } else {
      var parts := Split(t, sep);
      assert a + t == t && a + parts[0] == parts[0];
      assert parts == [parts[0]] + parts[1..];
    }
  }

  /** Splitting the join of separator-free pieces gives back the pieces. */
  lemma {:induction false} SplitJoin(parts: seq<string>, sep: char)
    requires |parts| >= 1
    requires forall i :: 0 <= i < |parts| ==> sep !in parts[i]
    ensures Split(Join(parts, sep), sep) == parts
  {
    if |parts| == 1 {
      SplitAfterPiece(parts[0], [], sep);
      assert parts[0] + [] == parts[0];
    } else {
      var tail := Join(parts[1..], sep);
      SplitJoin(parts[1..], sep);
      SplitAfterPiece(parts[0], [sep] + tail, sep);
      assert parts[0] + [sep] + tail == parts[0] + ([sep] + tail);
      assert ([sep] + tail)[1..] == tail;
      assert Split([sep] + tail, sep) == [[]] + parts[1..];
      assert parts[0] + [] == parts[0];
      assert parts == [parts[0]] + parts[1..];
    }
  }

  /** `s.replace("'", "''")`: every single quote doubled, nothing else changed. */
  function EscapeQuotes(s: string): (r: string)
    ensures |r| == |s| + Count(s, '\'')
  {
    if s == [] then []
    else (if s[0] == '\'' then "''" else [s[0]]) + EscapeQuotes(s[1..])
  }

  /** A text that can stand between the quotes of an SQL string literal
      without ending it: every quote in it is one of a doubled pair. */
  predicate QuotesPaired(t: string)
    decreases |t|
  {
    if t == [] then true
    else if t[0] == '\'' then |t| >= 2 && t[1] == '\'' && QuotesPaired(t[2..])
    else QuotesPaired(t[1..])
  }

  /** The value PostgreSQL reads from the text between the quotes of a
      string literal: each doubled quote stands for one quote. */
  function SqlLiteralValue(t: string): string
    decreases |t|
  {
    if t == [] then []
    else if |t| >= 2 && t[0] == '\'' && t[1] == '\'' then "'" + SqlLiteralValue(t[2..])
    else [t[0]] + SqlLiteralValue(t[1..])
  }

  /** An escaped value can always be spliced into a string literal. */
  lemma {:induction false} EscapedIsPaired(s: string)
    ensures QuotesPaired(EscapeQuotes(s))
  {
    if s != [] {
      EscapedIsPaired(s[1..]);
      var h := if s[0] == '\'' then "''" else [s[0]];
      assert (h + EscapeQuotes(s[1..]))[|h|..] == EscapeQuotes(s[1..]);
    }
  }

  /** Reading back an escaped value gives the original value (undoubling inverts doubling). */
  lemma {:induction false} ReadEscaped(s: string)
    ensures SqlLiteralValue(EscapeQuotes(s)) == s
  {
    if s != [] {
      ReadEscaped(s[1..]);
      var h := if s[0] == '\'' then "''" else [s[0]];
      assert (h + EscapeQuotes(s[1..]))[|h|..] == EscapeQuotes(s[1..]);
    }
  }

  /** Conversely, a literal text with paired quotes is the escape of what it reads as. */
  lemma {:induction false} EscapeRead(t: string)
    requires QuotesPaired(t)
    ensures EscapeQuotes(SqlLiteralValue(t)) == t
    decreases |t|
  {
    if t != [] {
      if t[0] == '\'' {
        EscapeRead(t[2..]);
        assert t == "''" + t[2..];
      } else {
        EscapeRead(t[1..]);
        assert t == [t[0]] + t[1..];
      }
    }
  }

  /** Two values are equal exactly when their escapes are. */
  lemma {:induction false} EscapeInjective(a: string, b: string)
    ensures EscapeQuotes(a) == EscapeQuotes(b) <==> a == b
  {
    ReadEscaped(a);
    ReadEscaped(b);
  }

  /** Characters Python's `str.strip()` and `int()` treat as white space. */
  predicate IsPyWhitespace(c: char) {
    c == ' ' || ('\t' <= c <= '\r') || ('\U{1c}' <= c <= '\U{1f}') || c == '\U{85}'
    || c == '\U{a0}' || c == '\U{1680}' || ('\U{2000}' <= c <= '\U{200a}')
    || c == '\U{2028}' || c == '\U{2029}' || c == '\U{202f}' || c == '\U{205f}' || c == '\U{3000}'
  }

  function StripStart(s: string): (r: string)
    ensures |r| <= |s| && r == s[|s| - |r|..]
    ensures r == [] || !IsPyWhitespace(r[0])
  {
    if s != [] && IsPyWhitespace(s[0]) then StripStart(s[1..]) else s
  }

  function StripEnd(s: string): (r: string)
    ensures |r| <= |s| && r == s[..|r|]
    ensures r == [] || !IsPyWhitespace(r[|r| - 1])
  {
    if s != [] && IsPyWhitespace(s[|s| - 1]) then StripEnd(s[..|s| - 1]) else s
  }

  /** `int(s)` in base 10 for ASCII digits: surrounding white space, an
      optional sign, then one or more digits; `None` where Python raises
      `ValueError`. */
  function PyInt(s: string): Option<int>
  {
    var t := StripEnd(StripStart(s));
    var neg := |t| > 0 && t[0] == '-';
    var u := if |t| > 0 && (t[0] == '-' || t[0] == '+') then t[1..] else t;
    if |u| >= 1 && Digits.AllDigits(u) then
      Some(if neg then -(Digits.DigitsValue(u) as int) else Digits.DigitsValue(u))
    else None
  }

  /** A digit string has no white space to strip. */
  lemma {:induction false} StripDigits(s: string)
    requires |s| >= 1 && Digits.AllDigits(s)
    ensures StripStart(s) == s && StripEnd(s) == s
  {
    DigitNotSpace(s[0]);
    DigitNotSpace(s[|s| - 1]);
  }

  lemma {:induction false} DigitNotSpace(c: char)
    requires Digits.IsDigit(c)
    ensures !IsPyWhitespace(c)
  {
  }

  /** `int()` of a digit string is its decimal value. */
  lemma {:induction false} PyIntDigits(s: string)
    requires |s| >= 1 && Digits.AllDigits(s)
    ensures PyInt(s) == Some(Digits.DigitsValue(s) as int)
  {
    StripDigits(s);
    assert Digits.IsDigit(s[0]);
  }

  /** `int(str(n))` is `n`. */
  lemma {:induction false} PyIntNatText(n: nat)
    ensures PyInt(Digits.NatText(n)) == Some(n)
  {
    PyIntDigits(Digits.NatText(n));
    Digits.NatTextValue(n);
  }
}
