/**
 * Decimal rendering of integers, as Ruby's `Integer#to_s` produces it when an
 * integer is interpolated into a string (`"#{port}"`, `"Status #{status}"`),
 * together with the parser that inverts it.
 */
module Decimal {

  predicate IsDigit(c: char) {
    '0' <= c <= '9'
  }

  predicate AllDigits(s: string) {
    forall i :: 0 <= i < |s| ==> IsDigit(s[i])
  }

  function DigitChar(d: nat): (c: char)
    requires d < 10
    ensures IsDigit(c)
  {
    ('0' as int + d) as char
  }

  function DigitValue(c: char): (d: nat)
    requires IsDigit(c)
    ensures d < 10
  {
    c as int - '0' as int
  }

  /** The decimal digits of `n`: never empty, digits only, no leading zero. */
  function FromNat(n: nat): (s: string)
    ensures |s| > 0 && AllDigits(s)
    ensures s[0] == '0' <==> n == 0
    ensures n == 0 ==> s == "0"
    decreases n
  {
    if n < 10 then [DigitChar(n)] else FromNat(n / 10) + [DigitChar(n % 10)]
  }

  /**
   * `Integer#to_s`: a minus sign in front of the digits of a negative number.
   * Zero is written `0`; no other number starts with a zero digit, and there is
   * no `-0`.
   */
  function FromInt(i: int): (s: string)
    ensures |s| > 0
    ensures forall k :: 0 <= k < |s| ==> IsDigit(s[k]) || s[k] == '-'
    ensures (s[0] == '-') == (i < 0)
    ensures s[0] == '0' ==> s == "0"
    ensures s[0] == '-' ==> |s| > 1 && s[1] != '0'
  {
    if i < 0 then "-" + FromNat(-i) else FromNat(i)
  }

  /** The value of a string of decimal digits (the empty string reads as 0). */
  function ParseNat(s: string): nat
    requires AllDigits(s)
  {
    if s == [] then 0 else ParseNat(s[..|s| - 1]) * 10 + DigitValue(s[|s| - 1])
  }

  /** The text `FromInt` can produce: optional minus, then at least one digit. */
  predicate IsIntText(s: string) {
    if |s| > 0 && s[0] == '-' then |s| > 1 && AllDigits(s[1..]) else |s| > 0 && AllDigits(s)
  }

  function ParseInt(s: string): (r: int)
    requires IsIntText(s)
  {
    if s[0] == '-' then 0 - ParseNat(s[1..]) as int else ParseNat(s)
  }

  /** Reading back the digits of `n` gives `n`. */
  lemma {:induction false} ParseFromNat(n: nat)
    ensures ParseNat(FromNat(n)) == n
    decreases n
  {
    var s := FromNat(n);
    if n < 10 {
      assert s[..|s| - 1] == [];
    } else {
      assert s[..|s| - 1] == FromNat(n / 10);
      ParseFromNat(n / 10);
    }
  }

  /** Reading back `Integer#to_s` gives the integer: the rendering loses nothing. */
  lemma ParseFromInt(i: int)
    ensures IsIntText(FromInt(i)) && ParseInt(FromInt(i)) == i
  {
    var s := FromInt(i);
    if i < 0 {
      assert s[1..] == FromNat(-i);
      ParseFromNat(-i);
    } else {
      ParseFromNat(i);
    }
  }

  /** Distinct integers render differently. */
  lemma FromIntInjective(i: int, j: int)
    requires FromInt(i) == FromInt(j)
    ensures i == j
  {
    ParseFromInt(i);
    ParseFromInt(j);
  }
}
