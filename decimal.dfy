/** Decimal text of whole numbers, as Swift's string interpolation of an `Int`
    and `String(format: "%02d", …)` write it, and the reader that turns such
    text back into the number. */
module Decimal {

  predicate IsDigit(c: char) {
    '0' <= c <= '9'
  }

  predicate AllDigits(s: string) {
    forall i :: 0 <= i < |s| ==> IsDigit(s[i])
  }

  function DigitValue(c: char): (d: nat)
    requires IsDigit(c)
    ensures d < 10
  {
    (c as int) - ('0' as int)
  }

  function DigitChar(d: nat): (c: char)
    requires d < 10
    ensures IsDigit(c) && DigitValue(c) == d
  {
    (('0' as int) + d) as char
  }

  /** The unpadded decimal numeral of `n`: at least one digit, and no leading
      zero unless the number is zero itself. */
  function NatToString(n: nat): (s: string)
    ensures |s| >= 1 && AllDigits(s)
    ensures |s| == 1 <==> n < 10
    ensures |s| > 1 ==> s[0] != '0'
    decreases n
  {
    if n < 10 then [DigitChar(n)] else NatToString(n / 10) + [DigitChar(n % 10)]
  }

  /** Reads a string of digits as a decimal number (the empty string reads as 0). */
  function ParseDigits(s: string): nat
    requires AllDigits(s)
    decreases |s|
  {
    if s == [] then 0 else ParseDigits(s[..|s| - 1]) * 10 + DigitValue(s[|s| - 1])
  }

  lemma {:induction false} ParseNatToString(n: nat)
    ensures ParseDigits(NatToString(n)) == n
    decreases n
  {
    var s := NatToString(n);
    if n < 10 {
      assert s[..0] == [];
    } else {
      assert s[..|s| - 1] == NatToString(n / 10);
      ParseNatToString(n / 10);
    }
  }

  /** `%02d` for a value below one hundred: exactly two digits, zero-padded. */
  function Pad2(n: nat): (s: string)
    requires n < 100
    ensures |s| == 2 && AllDigits(s)
    ensures ParseDigits(s) == n
    ensures s[0] == '0' <==> n < 10
  {
    var s := [DigitChar(n / 10), DigitChar(n % 10)];
    assert s[..1][..0] == [];
    assert s[..1] == [DigitChar(n / 10)];
    assert ParseDigits(s[..1]) == n / 10;
    assert ParseDigits(s) == (n / 10) * 10 + n % 10;
    s
  }
}
