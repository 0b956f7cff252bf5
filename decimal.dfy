/*
 * Decimal text of integers as the Rust standard library reads and writes it
 * for `i128`: `to_string` and `str::parse::<i128>()`. The lexer, the
 * `to_string` of the payloads and the builtin `str.__int__` and
 * `int.__str__` all go through these.
 */
module Decimal {

  import opened Wrappers

  const I128Min: int := -0x8000_0000_0000_0000_0000_0000_0000_0000
  const I128Max: int := 0x7fff_ffff_ffff_ffff_ffff_ffff_ffff_ffff

  predicate InI128(x: int)
  {
    I128Min <= x <= I128Max
  }

  predicate IsDigit(c: char)
  {
    '0' <= c <= '9'
  }

  predicate AllDigits(s: string)
  {
    forall k :: 0 <= k < |s| ==> IsDigit(s[k])
  }

  function DigitValue(c: char): nat
    requires IsDigit(c)
  {
    c as int - '0' as int
  }

  function DigitChar(d: nat): char
    requires d < 10
  {
    ('0' as int + d) as char
  }

  /** The value of a string of decimal digits, most significant first. */
  function DigitsValue(s: string): nat
    requires AllDigits(s)
    decreases |s|
  {
    if s == [] then 0 else DigitsValue(s[..|s| - 1]) * 10 + DigitValue(s[|s| - 1])
  }

  /** The shortest decimal text of a natural number. */
  function NatText(n: nat): string
    decreases n
  {
    if n < 10 then [DigitChar(n)] else NatText(n / 10) + [DigitChar(n % 10)]
  }

  /** `i.to_string()`: a minus sign for negatives, then the digits. */
  function IntText(i: int): string
  {
    if i < 0 then "-" + NatText(-i) else NatText(i)
  }

  /** `s.parse::<i128>()`: an optional sign, at least one digit, nothing
      else, and a value that fits in 128 bits. */
  function ParseI128(s: string): Option<int>
  {
    if |s| > 0 && (s[0] == '+' || s[0] == '-') then
      if |s| > 1 && AllDigits(s[1..]) then
        var v: int := if s[0] == '-' then -(DigitsValue(s[1..]) as int) else DigitsValue(s[1..]);
        if InI128(v) then Some(v) else None
      else None
    else if |s| > 0 && AllDigits(s) && InI128(DigitsValue(s)) then Some(DigitsValue(s))
    else None
  }

  lemma {:induction false} NatTextSpec(n: nat)
    ensures |NatText(n)| > 0 && AllDigits(NatText(n))
    ensures DigitsValue(NatText(n)) == n
    ensures NatText(n)[0] == '0' ==> n == 0
    decreases n
  {
    if n >= 10 {
      NatTextSpec(n / 10);
      var s := NatText(n);
      assert s[..|s| - 1] == NatText(n / 10);
    }
  }

  /** Writing an `i128` and reading it back gives the same number. */
  lemma ParseIntText(i: int)
    requires InI128(i)
    ensures ParseI128(IntText(i)) == Some(i)
  {
    if i < 0 {
      NatTextSpec(-i);
      assert IntText(i)[1..] == NatText(-i);
    } else {
      NatTextSpec(i);
    }
  }
}
