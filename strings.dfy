/**
 * The small part of Python's string built-ins the dashboard relies on:
 * list repetition (`['?'] * n`), `str.join`, and `str(i)` for an integer,
 * together with a decimal parser that inverts `str(i)`.
 */
module Strings {

  /** Number of occurrences of `c` in `s`. */
  function Count(s: string, c: char): (n: nat)
    ensures n <= |s|
  {
    if s == [] then 0 else (if s[0] == c then 1 else 0) + Count(s[1..], c)
  }

  lemma {:induction false} CountAppend(a: string, b: string, c: char)
    ensures Count(a + b, c) == Count(a, c) + Count(b, c)
  {
    if a == [] {
      assert a + b == b;
    } else {
      assert (a + b)[1..] == a[1..] + b;
      CountAppend(a[1..], b, c);
    }
  }

  lemma {:induction false} CountAbsent(s: string, c: char)
    requires c !in s
    ensures Count(s, c) == 0
  {
    if s != [] {
      CountAbsent(s[1..], c);
    }
  }

  /** Python's `[x] * n`: the list holding `n` copies of `x`. */
  function Repeat<T>(x: T, n: nat): (r: seq<T>)
    ensures |r| == n
    ensures forall i :: 0 <= i < |r| ==> r[i] == x
  {
    if n == 0 then [] else [x] + Repeat(x, n - 1)
  }

  /** Python's `sep.join(parts)`: the parts with `sep` between each neighbouring pair. */
  function Join(parts: seq<string>, sep: string): string
  {
    if |parts| == 0 then ""
    else if |parts| == 1 then parts[0]
    else parts[0] + sep + Join(parts[1..], sep)
  }

  // ---------------------------------------------------------------------------
  // Decimal notation of integers, as Python's `str(i)` writes it.

  predicate IsDigit(c: char) { '0' <= c <= '9' }

  function DigitChar(d: nat): (c: char)
    requires d < 10
    ensures IsDigit(c) && DigitValue(c) == d
  {
    "0123456789"[d]
  }

  function DigitValue(c: char): (d: nat)
    requires IsDigit(c)
    ensures d < 10
  {
    (c as int - '0' as int) as nat
  }

  /** A canonical unsigned decimal: digits only, at least one, no leading zero unless it is "0". */
  predicate CanonicalDigits(s: string)
  {
    && |s| > 0
    && (forall i :: 0 <= i < |s| ==> IsDigit(s[i]))
    && (s[0] == '0' ==> s == "0")
  }

  /** `str(n)` for a natural number. */
  function NatToDecimal(n: nat): (s: string)
    ensures CanonicalDigits(s)
  {
    if n < 10 then [DigitChar(n)] else NatToDecimal(n / 10) + [DigitChar(n % 10)]
  }

  /** `str(i)`: a minus sign for negative numbers, then the canonical digits of `|i|`. */
  function IntToDecimal(i: int): string
  {
    if i < 0 then "-" + NatToDecimal(-i) else NatToDecimal(i)
  }

  /** The value of a string of digits, most significant first. */
  function DigitsValue(s: string): nat
    requires forall i :: 0 <= i < |s| ==> IsDigit(s[i])
  {
    if s == [] then 0 else 10 * DigitsValue(s[..|s| - 1]) + DigitValue(s[|s| - 1])
  }

  /** Python's `int(s)` restricted to what `str` produces; anything else reads as 0. */
  function ParseDecimal(s: string): int
  {
    if |s| > 0 && s[0] == '-' && CanonicalDigits(s[1..]) then -(DigitsValue(s[1..]) as int)
    else if CanonicalDigits(s) then DigitsValue(s)
    else 0
  }

  lemma {:induction false} NatDecimalRoundTrip(n: nat)
    ensures DigitsValue(NatToDecimal(n)) == n
  {
    var s := NatToDecimal(n);
    if n < 10 {
      assert s[..|s| - 1] == [];
    } else {
      assert s[..|s| - 1] == NatToDecimal(n / 10);
      NatDecimalRoundTrip(n / 10);
    }
  }

  /** `int(str(i)) == i`: decimal notation loses nothing. */
  lemma {:induction false} DecimalRoundTrip(i: int)
    ensures ParseDecimal(IntToDecimal(i)) == i
  {
    if i < 0 {
      NegativeRoundTrip(i);
    } else {
      var s := NatToDecimal(i);
      assert IsDigit(s[0]);
      NatDecimalRoundTrip(i);
    }
  }

  lemma {:induction false} NegativeRoundTrip(i: int)
    requires i < 0
    ensures ParseDecimal(IntToDecimal(i)) == i
  {
    NatDecimalRoundTrip(-i);
    ParseSigned(NatToDecimal(-i));
  }

  /** A minus sign followed by canonical digits parses as the negated digits. */
  lemma ParseSigned(digits: string)
    requires CanonicalDigits(digits)
    ensures ParseDecimal("-" + digits) == -(DigitsValue(digits) as int)
  {
    var s := "-" + digits;
    assert s[1..] == digits;
  }

  /** Distinct integers have distinct decimal strings. */
  lemma DecimalInjective(i: int, j: int)
    ensures IntToDecimal(i) == IntToDecimal(j) ==> i == j
  {
    DecimalRoundTrip(i);
    DecimalRoundTrip(j);
  }
}
