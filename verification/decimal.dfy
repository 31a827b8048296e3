/** Decimal text for natural numbers and integers: the `%d` of Go's formatting and
    scanning, and Python's `str.isdigit`, `int()` and `str()` on integers. */
module Decimal {
  import opened Wrappers

  predicate IsDigit(c: char) {
    '0' <= c <= '9'
  }

  /** Python's `str.isdigit()` restricted to ASCII: non-empty and only digits. */
  predicate IsDigits(s: string) {
    |s| > 0 && forall i :: 0 <= i < |s| ==> IsDigit(s[i])
  }

  predicate AllDigits(s: string) {
    forall i :: 0 <= i < |s| ==> IsDigit(s[i])
  }

  function DigitChar(d: nat): (c: char)
    requires d < 10
    ensures IsDigit(c)
  {
    ['0', '1', '2', '3', '4', '5', '6', '7', '8', '9'][d]
  }

  function DigitValue(c: char): (d: nat)
    requires IsDigit(c)
    ensures d < 10
  {
    (c as int) - ('0' as int)
  }

  lemma DigitCharValue(d: nat)
    requires d < 10
    ensures DigitValue(DigitChar(d)) == d
  {
  }

  /** The number a run of digits denotes (the empty run denotes 0). */
  function DigitsValue(s: string): nat
    requires AllDigits(s)
  {
    if |s| == 0 then 0 else DigitsValue(s[..|s| - 1]) * 10 + DigitValue(s[|s| - 1])
  }

  /** Shortest decimal text of `n`; the recursive calls' contracts carry the
      round trip through each appended digit. */
  function NatToString(n: nat): (s: string)
    ensures IsDigits(s)
    ensures DigitsValue(s) == n
    ensures s[0] != '0' || n == 0
    ensures n < 10 <==> |s| == 1
  {
    if n < 10 then
      DigitCharValue(n);
      [DigitChar(n)]
    else
      var prefix := NatToString(n / 10);
      DigitCharValue(n % 10);
      var s := prefix + [DigitChar(n % 10)];
      assert s[..|s| - 1] == prefix;
      s
  }

  /** Python `str(i)` / Go `%d` on a signed integer. */
  function IntToString(i: int): (s: string)
    ensures |s| > 0
    ensures i < 0 <==> s[0] == '-'
  {
    if i < 0 then "-" + NatToString(-i) else NatToString(i)
  }

  /** Python `int(text)` on the forms the model admits: an optional `+` or `-`
      followed by one or more ASCII digits. Anything else is a `ValueError`. */
  function ParseInt(text: string): (r: Option<int>)
    ensures r.Some? <==> IsDigits(text) || (|text| > 0 && (text[0] == '+' || text[0] == '-') && IsDigits(text[1..]))
    ensures IsDigits(text) ==> r == Some(DigitsValue(text))
    ensures |text| > 0 && text[0] == '+' && IsDigits(text[1..]) ==> r == Some(DigitsValue(text[1..]))
    ensures |text| > 0 && text[0] == '-' && IsDigits(text[1..]) ==> r == Some(-(DigitsValue(text[1..]) as int))
  {
    if |text| > 0 && (text[0] == '+' || text[0] == '-') then
      var digits := text[1..];
      if IsDigits(digits) then
        var magnitude: int := DigitsValue(digits);
        Some(if text[0] == '-' then -magnitude else magnitude)
      else
        None
    else if IsDigits(text) then
      Some(DigitsValue(text))
    else
      None
  }

  /** `int(str(i)) == i`. */
  lemma ParseIntToString(i: int)
    ensures ParseInt(IntToString(i)) == Some(i)
  {
    if i < 0 {
      var s := IntToString(i);
      assert s[1..] == NatToString(-i);
    }
  }
}
