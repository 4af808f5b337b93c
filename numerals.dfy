/** Decimal spelling of integers: what Python's int() reads from a string of
    digits and what str() writes for an int. */
module Numerals {

  predicate IsDigit(ch: char) {
    '0' <= ch <= '9'
  }

  predicate AllDigits(s: string) {
    forall i :: 0 <= i < |s| ==> IsDigit(s[i])
  }

  /** A non-empty run of decimal digits. */
  predicate IsDigits(s: string) {
    |s| > 0 && AllDigits(s)
  }

  function DigitValue(ch: char): (d: nat)
    requires IsDigit(ch)
    ensures d < 10
  {
    (ch as int) - ('0' as int)
  }

  function DigitChar(d: nat): (ch: char)
    requires d < 10
    ensures IsDigit(ch) && DigitValue(ch) == d
  {
    ('0' as int + d) as char
  }

  /** The number a string of digits denotes, most significant digit first;
      leading zeros are allowed, as int() allows them. */
  function DigitsValue(s: string): nat
    requires AllDigits(s)
  {
    if s == [] then 0 else 10 * DigitsValue(s[..|s| - 1]) + DigitValue(s[|s| - 1])
  }

  /** str() of a natural number: its shortest decimal spelling. */
  function ShowNat(n: nat): (s: string)
    ensures IsDigits(s)
    ensures |s| > 1 ==> s[0] != '0'
  {
    if n < 10 then [DigitChar(n)] else ShowNat(n / 10) + [DigitChar(n % 10)]
  }

  /** str() of an int: a minus sign in front of the spelling of a negative number. */
  function ShowInt(i: int): (s: string)
    ensures |s| > 0
    ensures i < 0 <==> s[0] == '-'
  {
    if i < 0 then "-" + ShowNat(-i) else ShowNat(i)
  }

  /** Reading back what str() writes gives the number again. */
  lemma {:induction false} DigitsValueOfShowNat(n: nat)
    ensures DigitsValue(ShowNat(n)) == n
  {
    if n >= 10 {
      var s := ShowNat(n);
      assert s[..|s| - 1] == ShowNat(n / 10);
      DigitsValueOfShowNat(n / 10);
    }
  }

  /** Distinct ints have distinct spellings. */
  lemma ShowIntInjective(i: int, j: int)
    requires ShowInt(i) == ShowInt(j)
    ensures i == j
  {
    if i < 0 {
      assert ShowInt(i)[1..] == ShowNat(-i);
      assert ShowInt(j)[1..] == ShowNat(-j);
      DigitsValueOfShowNat(-i);
      DigitsValueOfShowNat(-j);
    } else {
      DigitsValueOfShowNat(i);
      DigitsValueOfShowNat(j);
    }
  }
}
