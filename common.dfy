/**
 * C arithmetic the firmware relies on, written out explicitly:
 * the `(int)` cast of a float (truncation toward zero), unsigned 32-bit
 * tick subtraction, C's truncating integer division, and the clamps the
 * menu applies after every edit.
 */
module CArith {

  const TwoTo32: int := 0x1_0000_0000

  /** A `uint32_t` value, such as a millisecond tick count. */
  type U32 = x: int | 0 <= x < TwoTo32

  /** C's `(int)` conversion of a floating value: truncation toward zero. */
  function Trunc(r: real): int {
    if r >= 0.0 then r.Floor else -((-r).Floor)
  }

  /**
   * Truncation drops the fraction toward zero: the result is within one
   * of `r`, on the side of zero, with the sign of `r`.
   */
  lemma TruncBounds(r: real)
    ensures r >= 0.0 ==> Trunc(r) as real <= r < Trunc(r) as real + 1.0
    ensures r <= 0.0 ==> Trunc(r) as real - 1.0 < r <= Trunc(r) as real
    ensures r >= 0.0 ==> Trunc(r) >= 0
    ensures r <= 0.0 ==> Trunc(r) <= 0
  {
  }

  /** Truncation is odd: a negated distance gives the negated step count. */
  lemma TruncNeg(r: real)
    ensures Trunc(-r) == -Trunc(r)
  {
    if r > 0.0 {
      assert Trunc(-r) == -(r.Floor);
    } else if r < 0.0 {
      assert Trunc(r) == -((-r).Floor);
    }
  }

  /** `a - b` on two `uint32_t` values: wraps modulo 2^32. */
  function Elapsed(now: U32, last: U32): (d: U32)
    ensures now >= last ==> d == now - last
    ensures now < last ==> d == now - last + TwoTo32
  {
    (now - last) % TwoTo32
  }

  /** C's `/` on `int`: the quotient is truncated toward zero. */
  function CDiv(a: int, b: int): (q: int)
    requires b != 0
    ensures a >= 0 && b > 0 ==> q == a / b
    ensures (a >= 0 && b > 0) || (a <= 0 && b < 0) ==> 0 <= q
  {
    if (a >= 0) == (b > 0) then
      (if a >= 0 then a / b else (-a) / (-b))
    else
      -((if a >= 0 then a else -a) / (if b > 0 then b else -b))
  }

  /**
   * For a positive divisor, C's quotient is the largest multiple of `b`
   * not above a non-negative dividend, and the smallest not below a
   * non-positive one.
   */
  lemma CDivBounds(a: int, b: int)
    requires b > 0
    ensures a >= 0 ==> CDiv(a, b) * b <= a < (CDiv(a, b) + 1) * b
    ensures a <= 0 ==> (CDiv(a, b) - 1) * b < a <= CDiv(a, b) * b
  {
    var n := if a >= 0 then a else -a;
    var q, r := n / b, n % b;
    assert n == b * q + r && 0 <= r < b;
    assert (q + 1) * b == q * b + b;
    if a < 0 {
      assert CDiv(a, b) == -q;
      assert (-q - 1) * b == -(q * b) - b;
      assert -q * b == -(q * b);
    }
  }

  /** C's `%` on `int`: the remainder has the sign of the dividend. */
  function CMod(a: int, b: int): (m: int)
    requires b != 0
    ensures a == CDiv(a, b) * b + m
  {
    a - CDiv(a, b) * b
  }

  function Abs(r: real): (a: real)
    ensures a >= 0.0 && (a == r || a == -r)
  {
    if r < 0.0 then -r else r
  }

  function AbsInt(n: int): (a: nat)
    ensures a == n || a == -n
  {
    if n < 0 then -n else n
  }

  /** `v` raised to `lo` when below it, then lowered to `hi` when above it. */
  function ClampInt(v: int, lo: int, hi: int): (c: int)
    requires lo <= hi
    ensures lo <= c <= hi
    ensures lo <= v <= hi ==> c == v
    ensures v < lo ==> c == lo
    ensures v > hi ==> c == hi
  {
    if v < lo then lo else if v > hi then hi else v
  }

  /** `v` raised to `lo` when below it (an edit with only a floor). */
  function FloorAt(v: int, lo: int): (c: int)
    ensures c >= lo
    ensures v >= lo ==> c == v
    ensures v < lo ==> c == lo
  {
    if v < lo then lo else v
  }

  function FloorAtReal(v: real, lo: real): (c: real)
    ensures c >= lo
    ensures v >= lo ==> c == v
    ensures v < lo ==> c == lo
  {
    if v < lo then lo else v
  }
}
