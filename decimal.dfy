/**
 * Decimal rendering of natural numbers, as JavaScript's `String(n)` does it
 * for the non-negative integers the store issues, and its inverse.
 */
module Decimal {

  predicate IsDigit(c: char) {
    '0' <= c <= '9'
  }

  /** A non-empty string of decimal digits. */
  predicate IsDecimal(s: string) {
    |s| > 0 && forall i :: 0 <= i < |s| ==> IsDigit(s[i])
  }

  function DigitChar(d: nat): (c: char)
    requires d < 10
    ensures IsDigit(c) && DigitValue(c) == d
  {
    ('0' as int + d) as char
  }

  function DigitValue(c: char): (d: nat)
    requires IsDigit(c)
    ensures d < 10
  {
    c as int - '0' as int
  }

  /** A numeral without leading zeros: only `"0"` itself starts with `'0'`. */
  predicate IsCanonical(s: string) {
    IsDecimal(s) && (s[0] == '0' ==> |s| == 1)
  }

  /** `String(n)`: the canonical decimal numeral of `n`, with no leading zero. */
  function NatToString(n: nat): (s: string)
    ensures IsDecimal(s)
    ensures n < 10 <==> |s| == 1
    ensures s[0] == '0' ==> n == 0
    decreases n
  {
    if n < 10 then [DigitChar(n)] else NatToString(n / 10) + [DigitChar(n % 10)]
  }

  /** The number a decimal numeral denotes (leading zeros allowed). */
  function DecimalValue(s: string): (n: nat)
    requires IsDecimal(s)
    ensures s[0] != '0' ==> n > 0
    ensures |s| > 1 && s[0] != '0' ==> n >= 10
    decreases |s|
  {
    if |s| == 1 then DigitValue(s[0])
    else DecimalValue(s[..|s| - 1]) * 10 + DigitValue(s[|s| - 1])
  }

  /** Reading back a rendered number gives the number. */
  lemma {:induction false} DecimalValueOfNatToString(n: nat)
    ensures DecimalValue(NatToString(n)) == n
  {
    if n >= 10 {
      var s := NatToString(n);
      assert s[..|s| - 1] == NatToString(n / 10);
      DecimalValueOfNatToString(n / 10);
    }
  }

  /** Distinct numbers render as distinct strings. */
  lemma NatToStringInjective(a: nat, b: nat)
    ensures NatToString(a) == NatToString(b) ==> a == b
  {
    DecimalValueOfNatToString(a);
    DecimalValueOfNatToString(b);
  }

  /** Rendering the value of a canonical numeral gives the numeral back. */
  lemma {:induction false} NatToStringOfDecimalValue(s: string)
    requires IsCanonical(s)
    ensures NatToString(DecimalValue(s)) == s
    decreases |s|
  {
    if |s| > 1 {
      var p := s[..|s| - 1];
      assert p[0] == s[0];
      NatToStringOfDecimalValue(p);
      assert s == p + [s[|s| - 1]];
    }
  }
}
