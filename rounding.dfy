/**
  Integer rounding used by the slider callbacks of the tuner window.

  C++ `%` truncates toward zero, so `-7 % 2 == -1` and `-20 % 16 == -4`,
  while Dafny's `%` is Euclidean and never negative. `CppRem` gives the C++
  remainder for the positive divisors used here; the two rounding functions
  are written with it, exactly as the callbacks test and adjust their value.
*/
module Rounding {

  const INT32_MIN: int := -0x8000_0000
  const INT32_MAX: int := 0x7FFF_FFFF

  /** The value fits in a C++ `int` (32 bits on the platforms the tool targets). */
  predicate InInt32(x: int) {
    INT32_MIN <= x <= INT32_MAX
  }

  /** C++ `a / b` for a positive divisor: the quotient truncated toward zero. */
  function CppDiv(a: int, b: int): int
    requires b > 0
  {
    if a >= 0 then a / b else -((-a) / b)
  }

  /** C++ `a % b` for a positive divisor: what truncating division leaves, which takes the sign of `a`. */
  function CppRem(a: int, b: int): (r: int)
    requires b > 0
    ensures a == b * CppDiv(a, b) + r
    ensures a >= 0 ==> 0 <= r < b
    ensures a < 0 ==> -b < r <= 0
  {
    if a >= 0 then a % b else -((-a) % b)
  }

  /** Oddness, independent of the sign of `v`. */
  predicate IsOdd(v: int) {
    v % 2 == 1
  }

  /** Odd rounding of the pre-filter size and block size sliders: an even value is decremented. */
  function RoundToOdd(v: int): (r: int)
    ensures IsOdd(r)
    ensures r <= v < r + 2
    ensures IsOdd(v) ==> r == v
  {
    if CppRem(v, 2) == 0 then v - 1 else v
  }

  /** Rounding of the number-of-disparities slider: `value - value % 16` in C++ arithmetic. */
  function TruncateToMultipleOf16(v: int): (r: int)
    ensures r % 16 == 0
    ensures v >= 0 ==> 0 <= r <= v < r + 16
    ensures v < 0 ==> r - 16 < v <= r <= 0
    ensures v % 16 == 0 ==> r == v
  {
    if CppRem(v, 16) != 0 then v - CppRem(v, 16) else v
  }

  /** A positive multiple of a positive number is at least that number. */
  lemma {:induction false} MultipleAtLeast(b: int, k: int)
    requires b > 0 && k >= 1
    ensures b * k >= b
  {
    if k > 1 {
      MultipleAtLeast(b, k - 1);
      assert b * k == b * (k - 1) + b;
    }
  }

  /**
    The C++ rule `a == b * (a / b) + a % b` with a remainder of `a`'s sign and
    smaller than `b` fixes both: any such pair is truncating division.
  */
  lemma CppDivRemUnique(a: int, b: int, q: int, r: int)
    requires b > 0
    requires a == b * q + r
    requires a >= 0 ==> 0 <= r < b
    requires a < 0 ==> -b < r <= 0
    ensures q == CppDiv(a, b) && r == CppRem(a, b)
  {
    var q', s := CppDiv(a, b), CppRem(a, b);
    assert b * q - b * q' == s - r;
    assert b * (q - q') == s - r;
    if q - q' >= 1 {
      MultipleAtLeast(b, q - q');
    } else if q' - q >= 1 {
      MultipleAtLeast(b, q' - q);
    }
  }

  /** Rounding an already rounded pre-filter or block size changes nothing. */
  lemma RoundToOddIdempotent(v: int)
    ensures RoundToOdd(RoundToOdd(v)) == RoundToOdd(v)
  {
  }

  /** Rounding an already rounded number of disparities changes nothing. */
  lemma TruncateToMultipleOf16Idempotent(v: int)
    ensures TruncateToMultipleOf16(TruncateToMultipleOf16(v)) == TruncateToMultipleOf16(v)
  {
  }

  /** The odd rounding stays within `int` except for the most negative `int`, which is even. */
  lemma RoundToOddInInt32(v: int)
    requires InInt32(v)
    ensures InInt32(RoundToOdd(v)) <==> v != INT32_MIN
  {
  }

  /** Rounding toward zero never leaves the range of `int`. */
  lemma TruncateToMultipleOf16InInt32(v: int)
    requires InInt32(v)
    ensures InInt32(TruncateToMultipleOf16(v))
  {
  }
}
