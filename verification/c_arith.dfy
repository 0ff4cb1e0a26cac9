/**
 * The C++ arithmetic the component relies on, written out: integer division
 * truncates toward zero, and std::floor, std::ceil and std::fmod on doubles
 * (modelled on exact reals).
 */
module CArith {

  /** C++ `a / b` on ints for a positive divisor: the quotient is truncated toward zero. */
  function TruncDiv(a: int, b: int): (q: int)
    requires b > 0
    ensures 0 <= a ==> q * b <= a < q * b + b
    ensures a < 0 ==> q * b - b < a <= q * b
  {
    if a >= 0 then a / b else -((-a) / b)
  }

  /** Truncation is symmetric about zero. */
  lemma TruncDivNegate(a: int, b: int)
    requires b > 0
    ensures TruncDiv(-a, b) == -TruncDiv(a, b)
  {
  }

  /**
   * Truncating division agrees with Dafny's (flooring, for b > 0) division
   * exactly when the dividend is non-negative or divisible.
   */
  lemma TruncDivVersusFloorDiv(a: int, b: int)
    requires b > 0
    ensures TruncDiv(a, b) == a / b <==> (a >= 0 || a % b == 0)
  {
    if a < 0 {
      var k, m := (-a) / b, (-a) % b;
      assert a == b * -k - m;
      if m == 0 {
        DivUnique(a, b, -k, 0);
      } else {
        assert a == b * (-k - 1) + (b - m);
        DivUnique(a, b, -k - 1, b - m);
      }
    }
  }

  /** Quotient and remainder are determined by `a == b * q + r` with `0 <= r < b`. */
  lemma DivUnique(a: int, b: int, q: int, r: int)
    requires b > 0 && 0 <= r < b && a == b * q + r
    ensures a / b == q && a % b == r
  {
    var q', r' := a / b, a % b;
    assert a == b * q' + r';
    assert b * (q - q') == r' - r by {
      assert b * (q - q') == b * q - b * q';
    }
    if q > q' {
      MulAtLeast(b, q - q');
    } else if q < q' {
      MulAtLeast(b, q' - q);
    }
  }

  lemma {:induction false} MulAtLeast(b: int, d: int)
    requires b > 0 && d >= 1
    ensures b * d >= b
  {
    if d > 1 {
      MulAtLeast(b, d - 1);
      assert b * d == b * (d - 1) + b;
    }
  }

  /** std::floor. */
  function Floor(x: real): (n: int)
    ensures n as real <= x < n as real + 1.0
  {
    x.Floor
  }

  /** std::ceil. */
  function Ceil(x: real): (n: int)
    ensures n as real - 1.0 < x <= n as real
  {
    if x.Floor as real == x then x.Floor else x.Floor + 1
  }

  /** std::trunc: the integer part, rounded toward zero. */
  function Trunc(x: real): (n: int)
    ensures 0.0 <= x ==> n as real <= x < n as real + 1.0
    ensures x < 0.0 ==> n as real - 1.0 < x <= n as real
  {
    if x >= 0.0 then x.Floor else -((-x).Floor)
  }

  /**
   * std::fmod(x, 60.0): the remainder of x after removing a whole number of
   * 60s, taking the sign of x.
   */
  function Fmod60(x: real): (r: real)
    ensures 0.0 <= x ==> 0.0 <= r < 60.0
    ensures x < 0.0 ==> -60.0 < r <= 0.0
    ensures ((x - r) / 60.0).Floor as real == (x - r) / 60.0
  {
    x - Trunc(x / 60.0) as real * 60.0
  }
}
