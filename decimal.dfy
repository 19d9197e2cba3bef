/**
 * `Number.prototype.toString()` on the non-negative integer millisecond
 * counts that `Date.now()` returns: the chat window uses these strings as
 * message ids.
 */
module Decimal {

  predicate IsDigit(c: char)
  {
    '0' <= c <= '9'
  }

  function DigitChar(d: nat): (c: char)
    requires d < 10
    ensures IsDigit(c) && c as int - '0' as int == d
  {
    ('0' as int + d) as char
  }

  function DigitValue(c: char): (d: nat)
    requires IsDigit(c)
    ensures d < 10
  {
    c as int - '0' as int
  }

  /** Decimal notation without leading zeros. */
  function ToDecimal(n: nat): (s: string)
    ensures |s| >= 1
    ensures forall i :: 0 <= i < |s| ==> IsDigit(s[i])
    ensures |s| > 1 ==> s[0] != '0'
    ensures (n < 10) == (|s| == 1)
  {
    if n < 10 then [DigitChar(n)] else ToDecimal(n / 10) + [DigitChar(n % 10)]
  }

  /** Reads a string of digits back as a number; the inverse of ToDecimal. */
  function ParseDecimal(s: string): nat
    requires forall i :: 0 <= i < |s| ==> IsDigit(s[i])
  {
    if s == [] then 0
    else ParseDecimal(s[..|s| - 1]) * 10 + DigitValue(s[|s| - 1])
  }

  lemma {:induction false} ParseToDecimal(n: nat)
    ensures ParseDecimal(ToDecimal(n)) == n
  {
    var s := ToDecimal(n);
    if n >= 10 {
      ParseToDecimal(n / 10);
      assert s[..|s| - 1] == ToDecimal(n / 10);
    } else {
      assert s[..|s| - 1] == [];
    }
  }

  /** Distinct clock readings give distinct ids. */
  lemma ToDecimalInjective(a: nat, b: nat)
    ensures ToDecimal(a) == ToDecimal(b) <==> a == b
  {
    if ToDecimal(a) == ToDecimal(b) {
      ParseToDecimal(a);
      ParseToDecimal(b);
    }
  }
}
