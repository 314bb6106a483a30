/**
 * Decimal text for numbers, as produced by `%zu` / `str(n)` and read back by
 * `base::StringToInt`: digit strings without sign, and the signed, range-checked
 * parse used when a URL suffix is turned back into an index.
 */
module Decimal {
  import opened Wrappers

  predicate IsDigit(c: char) {
    '0' <= c <= '9'
  }

  predicate AllDigits(s: string) {
    forall i :: 0 <= i < |s| ==> IsDigit(s[i])
  }

  function DigitChar(d: nat): (c: char)
    requires d < 10
    ensures IsDigit(c) && c as int - '0' as int == d
  {
    ('0' as int + d) as char
  }

  function DigitValue(c: char): (d: nat)
    requires IsDigit(c)
    ensures d < 10 && DigitChar(d) == c
  {
    c as int - '0' as int
  }

  /** The decimal form of `n`: at least one digit, and no leading zero unless `n` is 0. */
  function NatToString(n: nat): (s: string)
    ensures |s| >= 1 && AllDigits(s)
    ensures |s| > 1 ==> s[0] != '0'
    ensures n < 10 <==> |s| == 1
  {
    if n < 10 then [DigitChar(n)] else NatToString(n / 10) + [DigitChar(n % 10)]
  }

  /** The number a digit string denotes (the empty string denotes 0). */
  function DigitsValue(s: string): nat
    requires AllDigits(s)
  {
    if |s| == 0 then 0 else DigitsValue(s[..|s| - 1]) * 10 + DigitValue(s[|s| - 1])
  }

  /** Reading back the decimal form of `n` gives `n`. */
  lemma {:induction false} DigitsValueOfNatToString(n: nat)
    ensures DigitsValue(NatToString(n)) == n
  {
    if n >= 10 {
      var s := NatToString(n);
      assert s[..|s| - 1] == NatToString(n / 10);
      DigitsValueOfNatToString(n / 10);
    }
  }

  /** Distinct numbers have distinct decimal forms. */
  lemma NatToStringInjective(a: nat, b: nat)
    ensures NatToString(a) == NatToString(b) ==> a == b
  {
    DigitsValueOfNatToString(a);
    DigitsValueOfNatToString(b);
  }

  const IntMax: int := 0x7fff_ffff
  const IntMin: int := -0x8000_0000

  /**
   * `base::StringToInt` on the whole of `s`: an optional '-' followed by one or
   * more decimal digits whose value fits a 32-bit `int`; anything else fails.
   */
  function StringToInt(s: string): (r: Option<int>)
    ensures r.Some? ==> IntMin <= r.value <= IntMax
    ensures r.Some? ==> |s| >= 1
    ensures r.Some? && s[0] != '-' ==> AllDigits(s) && r.value == DigitsValue(s)
    ensures r.Some? && s[0] == '-' ==> AllDigits(s[1..]) && r.value == -(DigitsValue(s[1..]) as int)
    ensures r.Some? <==>
      || (|s| >= 1 && AllDigits(s) && DigitsValue(s) <= IntMax)
      || (|s| >= 2 && s[0] == '-' && AllDigits(s[1..]) && DigitsValue(s[1..]) <= -IntMin)
  {
    if |s| >= 1 && AllDigits(s) then
      (if DigitsValue(s) <= IntMax then Some(DigitsValue(s) as int) else None)
    else if |s| >= 2 && s[0] == '-' && AllDigits(s[1..]) then
      (if DigitsValue(s[1..]) <= -IntMin then Some(-(DigitsValue(s[1..]) as int)) else None)
    else
      None
  }

  /** The parse reads back the decimal form of every non-negative 32-bit value. */
  lemma StringToIntOfNatToString(n: nat)
    requires n <= IntMax
    ensures StringToInt(NatToString(n)) == Some(n)
  {
    DigitsValueOfNatToString(n);
  }

  /** The parse reads back '-' followed by the decimal form of every magnitude down to the 32-bit minimum. */
  lemma StringToIntOfNegative(n: nat)
    requires n <= -IntMin
    ensures StringToInt("-" + NatToString(n)) == Some(-(n as int))
  {
    var s := "-" + NatToString(n);
    assert s[1..] == NatToString(n);
    DigitsValueOfNatToString(n);
  }
}
