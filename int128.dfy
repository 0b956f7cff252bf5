/*
 * Rust's `i128` arithmetic as the interpreters use it: `+`, `-`, `*`
 * panic on overflow, `/` and `%` truncate toward zero and panic on a
 * zero divisor or on `i128::MIN / -1`. A panic is `None`.
 */
module Int128 {

  import opened Wrappers
  import opened Decimal

  /** `/` on integers, rounding toward zero. */
  function TruncDiv(a: int, b: int): int
    requires b != 0
  {
    var q := Abs(a) / Abs(b);
    if (a < 0) != (b < 0) then -q else q
  }

  /** `%` on integers: the remainder of TruncDiv. */
  function TruncRem(a: int, b: int): int
    requires b != 0
  {
    a - b * TruncDiv(a, b)
  }

  function Abs(x: int): nat
  {
    if x < 0 then -x else x
  }

  /** The remainder is smaller than the divisor and takes the sign of the
      dividend; with `a == b * q + r` this fixes `q` and `r`. */
  lemma TruncRemSpec(a: int, b: int)
    requires b != 0
    ensures a == b * TruncDiv(a, b) + TruncRem(a, b)
    ensures Abs(TruncRem(a, b)) < Abs(b)
    ensures TruncRem(a, b) == 0 || (TruncRem(a, b) < 0 <==> a < 0)
  {
    var q := Abs(a) / Abs(b);
    var r := Abs(a) % Abs(b);
    assert Abs(a) == Abs(b) * q + r;
    if a < 0 && b < 0 {
      assert TruncRem(a, b) == a - b * q == -r;
    } else if a < 0 {
      assert TruncRem(a, b) == a + b * q == -r;
    } else if b < 0 {
      assert TruncRem(a, b) == a + b * q == r;
    } else {
      assert TruncRem(a, b) == a - b * q == r;
    }
  }

  /** Where the truncating remainder and Dafny's `%` part ways. */
  lemma TruncRemNegativeDividend()
    ensures TruncRem(-7, 2) == -1 && -7 % 2 == 1
  {
  }

  function CheckedAdd(a: int, b: int): (r: Option<int>)
    ensures r.Some? <==> InI128(a + b)
    ensures r.Some? ==> r.value == a + b
  {
    if InI128(a + b) then Some(a + b) else None
  }

  function CheckedSub(a: int, b: int): (r: Option<int>)
    ensures r.Some? <==> InI128(a - b)
    ensures r.Some? ==> r.value == a - b
  {
    if InI128(a - b) then Some(a - b) else None
  }

  function CheckedMul(a: int, b: int): (r: Option<int>)
    ensures r.Some? <==> InI128(a * b)
    ensures r.Some? ==> r.value == a * b
  {
    if InI128(a * b) then Some(a * b) else None
  }

  /** `a / b` on `i128`: None for a zero divisor and for a quotient out
      of range. */
  function CheckedDiv(a: int, b: int): (r: Option<int>)
    ensures r.Some? ==> b != 0 && InI128(r.value) && a == b * r.value + TruncRem(a, b)
  {
    if b == 0 then None
    else
      TruncRemSpec(a, b);
      if InI128(TruncDiv(a, b)) then Some(TruncDiv(a, b)) else None
  }

  /** Between `i128` operands only `i128::MIN / -1` overflows. */
  lemma CheckedDivPanics(a: int, b: int)
    requires InI128(a) && InI128(b)
    ensures CheckedDiv(a, b).None? <==> b == 0 || (a == I128Min && b == -1)
  {
    if b != 0 && !(a == I128Min && b == -1) {
      TruncDivBound(a, b);
    }
  }

  /** `a % b` on `i128`: None where CheckedDiv is. */
  function CheckedRem(a: int, b: int): (r: Option<int>)
    ensures r.Some? <==> b != 0 && !(a == I128Min && b == -1)
    ensures r.Some? ==> Abs(r.value) < Abs(b) && (r.value == 0 || (r.value < 0 <==> a < 0))
  {
    if b == 0 || (a == I128Min && b == -1) then None
    else
      TruncRemSpec(a, b);
      Some(TruncRem(a, b))
  }

  lemma TruncDivBound(a: int, b: int)
    requires InI128(a) && InI128(b) && b != 0 && !(a == I128Min && b == -1)
    ensures InI128(TruncDiv(a, b))
  {
    var x, y := Abs(a), Abs(b);
    var q := x / y;
    assert TruncDiv(a, b) == if (a < 0) != (b < 0) then -q else q;
    assert x <= -I128Min;
    QuotientBound(x, y);
    if a < 0 && b < 0 {
      if y == 1 {
        assert x < -I128Min;
      } else {
        MulAtLeast(y, 2, q);
        assert 2 * q <= x;
      }
    }
  }

  /** The quotient times the divisor does not exceed the dividend, nor
      does the quotient. */
  lemma QuotientBound(x: nat, y: nat)
    requires y > 0
    ensures y * (x / y) <= x && x / y <= x
  {
    var d := x / y;
    assert x == y * d + x % y;
    MulAtLeast(y, 1, d);
  }

  lemma {:induction false} MulAtLeast(y: nat, k: nat, d: nat)
    requires y >= k
    ensures y * d >= k * d
    decreases y - k
  {
    if y > k {
      MulAtLeast(y, k + 1, d);
      assert (k + 1) * d == k * d + d;
    }
  }
}
