/**
 * Decimal text: the digit strings behind the "yyyy-MM-dd" day keys and the points shown in the
 * status line, and the number a digit string stands for.
 */
module Text {
  function Pow10(n: nat): (p: nat)
    ensures p >= 1
  {
    if n == 0 then 1 else 10 * Pow10(n - 1)
  }

  /** The decimal digit for `n`. */
  function Digit(n: nat): (c: char)
    requires n < 10
    ensures '0' <= c <= '9' && c as int - '0' as int == n
  {
    ('0' as int + n) as char
  }

  predicate IsDigits(s: string)
  {
    forall i :: 0 <= i < |s| ==> '0' <= s[i] <= '9'
  }

  /** The number a string of decimal digits stands for, most significant digit first. */
  function DecimalValue(s: string): (v: nat)
    requires IsDigits(s)
    ensures v < Pow10(|s|)
  {
    if s == [] then 0
    else
      var init := s[..|s| - 1];
      assert IsDigits(init) by { assert forall i :: 0 <= i < |init| ==> init[i] == s[i]; }
      var high := DecimalValue(init);
      var low := s[|s| - 1] as int - '0' as int;
      assert high * 10 + low <= (Pow10(|init|) - 1) * 10 + 9;
      high * 10 + low
  }

  /** `n` written in decimal with exactly `width` digits, padded with leading zeros. */
  function Padded(n: nat, width: nat): (s: string)
    ensures |s| == width && IsDigits(s)
  {
    if width == 0 then [] else Padded(n / 10, width - 1) + [Digit(n % 10)]
  }

  /** Below 10^width the padded digits read back as the number itself; in particular two
   *  numbers below 10^width have the same padding only when they are equal. */
  lemma {:induction false} PaddedValue(n: nat, width: nat)
    requires n < Pow10(width)
    ensures DecimalValue(Padded(n, width)) == n
  {
    if width > 0 {
      var s := Padded(n, width);
      var high := Padded(n / 10, width - 1);
      assert s[..width - 1] == high && s[width - 1] == Digit(n % 10);
      assert n / 10 < Pow10(width - 1);
      PaddedValue(n / 10, width - 1);
      assert DecimalValue(s) == DecimalValue(high) * 10 + n % 10;
    }
  }

  /** `n.ToString()`: the decimal digits of `n`. */
  function Decimal(n: nat): (s: string)
    ensures |s| >= 1
  {
    if n < 10 then [Digit(n)] else Decimal(n / 10) + [Digit(n % 10)]
  }

  /** The digits of `n.ToString()` read back as `n`, with no leading zero. */
  lemma {:induction false} DecimalValueOf(n: nat)
    ensures IsDigits(Decimal(n)) && DecimalValue(Decimal(n)) == n
    ensures Decimal(n)[0] == '0' ==> Decimal(n) == "0"
  {
    if n >= 10 {
      DecimalValueOf(n / 10);
      var s := Decimal(n);
      assert s[..|s| - 1] == Decimal(n / 10);
    }
  }
}
