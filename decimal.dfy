/**
 * Decimal digit strings, as read by `parseInt` and written by template
 * interpolation of a non-negative integer.
 */
module Decimal {

  /** The characters matched by the regular-expression class `\d`. */
  predicate IsDigit(c: char) {
    '0' <= c <= '9'
  }

  predicate AllDigits(s: string) {
    forall i :: 0 <= i < |s| ==> IsDigit(s[i])
  }

  /** A slice is all digits exactly when each of its positions in the whole string is. */
  lemma AllDigitsSlice(s: string, a: nat, b: nat)
    requires a <= b <= |s|
    ensures AllDigits(s[a..b]) <==> forall t :: a <= t < b ==> IsDigit(s[t])
  {
    assert forall t :: a <= t < b ==> s[a..b][t - a] == s[t];
  }

  /** A digit string in canonical form: non-empty, and no leading zero unless it is "0". */
  predicate Canonical(s: string) {
    |s| > 0 && AllDigits(s) && (s[0] == '0' ==> |s| == 1)
  }

  function DigitValue(c: char): (d: nat)
    requires IsDigit(c)
    ensures d < 10
  {
    c as int - '0' as int
  }

  function DigitChar(d: nat): (c: char)
    requires d < 10
    ensures IsDigit(c) && DigitValue(c) == d
  {
    ('0' as int + d) as char
  }

  /** The value `parseInt` gives a string of decimal digits (leading zeros are ignored). */
  function Parse(s: string): nat
    requires AllDigits(s)
  {
    if s == [] then 0 else 10 * Parse(s[..|s| - 1]) + DigitValue(s[|s| - 1])
  }

  /** Appending a digit multiplies the value by ten and adds the digit. */
  lemma ParseAppend(s: string, c: char)
    requires AllDigits(s) && IsDigit(c)
    ensures Parse(s + [c]) == 10 * Parse(s) + DigitValue(c)
  {
    assert (s + [c])[..|s|] == s;
  }

  /** The value of a three-digit string. */
  lemma Parse3(a: char, b: char, c: char)
    requires IsDigit(a) && IsDigit(b) && IsDigit(c)
    ensures Parse([a, b, c]) == 100 * DigitValue(a) + 10 * DigitValue(b) + DigitValue(c)
  {
    ParseAppend([], a);
    ParseAppend([a], b);
    ParseAppend([a, b], c);
    assert [] + [a] == [a] && [a] + [b] == [a, b] && [a, b] + [c] == [a, b, c];
  }

  /** The canonical decimal text of `n`, as `${n}` produces it. */
  function Show(n: nat): (s: string)
    ensures Canonical(s)
    ensures |s| == 1 <==> n < 10
  {
    if n < 10 then [DigitChar(n)] else Show(n / 10) + [DigitChar(n % 10)]
  }

  /** Reading back what was written gives the number. */
  lemma {:induction false} ParseShow(n: nat)
    ensures Parse(Show(n)) == n
  {
    if n >= 10 {
      var s := Show(n);
      assert s[..|s| - 1] == Show(n / 10);
      ParseShow(n / 10);
    }
  }

  /** A string of zeros only (possibly none) reads as 0, and only such strings do. */
  lemma {:induction false} ParseZero(s: string)
    requires AllDigits(s)
    ensures Parse(s) == 0 <==> forall i :: 0 <= i < |s| ==> s[i] == '0'
  {
    if s != [] {
      var t := s[..|s| - 1];
      ParseZero(t);
      assert forall i :: 0 <= i < |t| ==> t[i] == s[i];
    }
  }

  /** Writing what was read gives the text back exactly when the text is canonical. */
  lemma {:induction false} ShowParse(s: string)
    requires Canonical(s)
    ensures Show(Parse(s)) == s
  {
    if |s| > 1 {
      var t := s[..|s| - 1];
      var d := DigitValue(s[|s| - 1]);
      assert Canonical(t) && t[0] == s[0] != '0';
      ParseZero(t);
      assert Parse(t) != 0;
      ShowParse(t);
      var n := Parse(s);
      assert n == 10 * Parse(t) + d;
      assert n / 10 == Parse(t) && n % 10 == d;
      assert DigitChar(d) == s[|s| - 1];
      assert s == t + [s[|s| - 1]];
    }
  }

  /** Leading zeros are dropped: the text read back need not be the text written. */
  lemma LeadingZerosDropped()
    ensures Show(Parse("007")) == "7"
  {
    assert Parse("007") == 7 by {
      assert "007"[..2] == "00" && "00"[..1] == "0" && "0"[..0] == "";
    }
  }
}
