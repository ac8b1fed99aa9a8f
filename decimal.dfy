/** Decimal numerals: the `[0-9]+` character class of the grammar, the value
    `parseInt(digits, 10)` gives a digit run, and the numeral a template
    literal such as `${sides}` writes for a natural number. */
module Decimal {

  predicate IsDigit(c: char) {
    '0' <= c <= '9'
  }

  predicate AllDigits(t: seq<char>) {
    forall i :: 0 <= i < |t| ==> IsDigit(t[i])
  }

  function DigitValue(c: char): (d: nat)
    requires IsDigit(c)
    ensures d < 10
  {
    c as int - '0' as int
  }

  function DigitChar(d: nat): (c: char)
    requires d < 10
    ensures IsDigit(c) && DigitValue(c) == d
  {
    ('0' as int + d) as char
  }

  /** The value of a run of decimal digits, most significant first. */
  function Value(t: seq<char>): nat
    requires AllDigits(t)
  {
    if t == [] then 0 else Value(t[..|t| - 1]) * 10 + DigitValue(t[|t| - 1])
  }

  /** The shortest decimal numeral of `n` (no leading zeros, "0" for zero). */
  function Numeral(n: nat): (t: seq<char>)
    ensures |t| >= 1 && AllDigits(t)
    ensures |t| > 1 ==> t[0] != '0'
  {
    if n < 10 then [DigitChar(n)] else Numeral(n / 10) + [DigitChar(n % 10)]
  }

  /** Reading back a numeral gives the number that was written. */
  lemma {:induction false} ValueOfNumeral(n: nat)
    ensures Value(Numeral(n)) == n
  {
    if n >= 10 {
      var t := Numeral(n);
      assert t[..|t| - 1] == Numeral(n / 10);
      ValueOfNumeral(n / 10);
    }
  }

  /** Writing the value of a digit run with no leading zero gives the run back. */
  lemma {:induction false} NumeralOfValue(t: seq<char>)
    requires AllDigits(t) && |t| >= 1
    requires |t| > 1 ==> t[0] != '0'
    ensures Numeral(Value(t)) == t
  {
    var init := t[..|t| - 1];
    if |t| == 1 {
    } else {
      NumeralOfValue(init);
      ValuePositive(init);
      assert Value(t) / 10 == Value(init);
      assert Value(t) % 10 == DigitValue(t[|t| - 1]);
    }
  }

  /** A digit run that does not start with '0' has a positive value. */
  lemma {:induction false} ValuePositive(t: seq<char>)
    requires AllDigits(t) && |t| >= 1 && t[0] != '0'
    ensures Value(t) >= 1
  {
    if |t| > 1 {
      ValuePositive(t[..|t| - 1]);
    }
  }

}
