/** Decimal rendering of an unsigned integer, the form that Rust's `{}`
    formatting gives an integer: the digits in base ten, most significant
    first, with no sign and no leading zero (zero itself is "0").

    `ValueOf` reads a string of digits back as a number; it is the inverse
    against which `ToDecimal` is proved. */
module Decimal {

  /** The character that spells one decimal digit. */
  function DigitChar(d: nat): (ch: char)
    requires d < 10
    ensures '0' <= ch <= '9'
    ensures ch as int - '0' as int == d
  {
    ['0', '1', '2', '3', '4', '5', '6', '7', '8', '9'][d]
  }

  predicate IsDigit(ch: char) {
    '0' <= ch <= '9'
  }

  predicate AllDigits(s: string) {
    forall i :: 0 <= i < |s| ==> IsDigit(s[i])
  }

  /** The number a string of decimal digits spells, most significant first. */
  function ValueOf(s: string): (v: nat)
    requires AllDigits(s)
  {
    if s == [] then 0
    else ValueOf(s[..|s| - 1]) * 10 + (s[|s| - 1] as int - '0' as int)
  }

  /** The decimal spelling of `n`. */
  function ToDecimal(n: nat): (s: string)
    ensures |s| >= 1 && AllDigits(s)
    ensures n < 10 <==> |s| == 1
    ensures s[0] == '0' ==> n == 0
  {
    if n < 10 then [DigitChar(n)]
    else ToDecimal(n / 10) + [DigitChar(n % 10)]
  }

  /** Reading the rendered digits back gives the number that was rendered. */
  lemma {:induction false} ValueOfToDecimal(n: nat)
    ensures ValueOf(ToDecimal(n)) == n
  {
    var s := ToDecimal(n);
    if n < 10 {
      assert s[..0] == [];
    } else {
      var hi := ToDecimal(n / 10);
      assert s[..|s| - 1] == hi;
      ValueOfToDecimal(n / 10);
    }
  }

  /** Distinct numbers are rendered differently. */
  lemma ToDecimalInjective(m: nat, n: nat)
    ensures ToDecimal(m) == ToDecimal(n) ==> m == n
  {
    ValueOfToDecimal(m);
    ValueOfToDecimal(n);
  }
}
