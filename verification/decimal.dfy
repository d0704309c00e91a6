/** Decimal rendering of integers, as Python's `str(int)` and f-string interpolation produce it. */
module Decimal {

  predicate IsDigit(ch: char) {
    '0' <= ch <= '9'
  }

  predicate AllDigits(s: string) {
    forall i :: 0 <= i < |s| ==> IsDigit(s[i])
  }

  function DigitChar(d: nat): (ch: char)
    requires d < 10
    ensures IsDigit(ch)
  {
    (('0' as int) + d) as char
  }

  function DigitValue(ch: char): nat
    requires IsDigit(ch)
  {
    (ch as int) - ('0' as int)
  }

  /** The decimal numeral of `n`, without leading zeros. */
  function Show(n: nat): (s: string)
    ensures |s| > 0 && AllDigits(s)
    ensures |s| > 1 ==> s[0] != '0'
    decreases n
  {
    if n < 10 then [DigitChar(n)] else Show(n / 10) + [DigitChar(n % 10)]
  }

  /** The number a string of decimal digits denotes. */
  function Value(s: string): nat
    requires AllDigits(s)
  {
    if s == [] then 0 else Value(s[..|s| - 1]) * 10 + DigitValue(s[|s| - 1])
  }

  /** Reading back a rendered numeral gives the number: `Show` loses nothing. */
  lemma {:induction false} ValueOfShow(n: nat)
    ensures Value(Show(n)) == n
    decreases n
  {
    if n >= 10 {
      ValueOfShow(n / 10);
      var s := Show(n);
      assert s[..|s| - 1] == Show(n / 10);
    }
  }

  /** Python's `str(i)` for an int, with a leading minus for negatives. */
  function ShowInt(i: int): (s: string)
    ensures |s| > 0
    ensures s[0] == '-' <==> i < 0
  {
    if i < 0 then "-" + Show(-i) else Show(i)
  }
}
