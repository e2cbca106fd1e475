/** Java's fixed-width `int` and `long`, their wrap-around and their truncating division. */
module JavaInts {

  const TWO_TO_THE_32: int := 0x1_0000_0000
  const INT_MIN: int := -0x8000_0000
  const INT_MAX: int := 0x7fff_ffff

  /** The values of a Java `int`. */
  type Int32 = x: int | INT_MIN <= x <= INT_MAX

  /** The `int` that Java's two's-complement arithmetic produces for the exact result `x`. */
  function Wrap(x: int): (r: Int32)
    ensures INT_MIN <= x <= INT_MAX ==> r == x
    ensures (r - x) % TWO_TO_THE_32 == 0
  {
    var m := (x - INT_MIN) % TWO_TO_THE_32;
    assert (m + INT_MIN - x) % TWO_TO_THE_32 == 0;
    m + INT_MIN
  }

  /** `Math.max(0, w)`. */
  function Clamp(w: int): (r: nat)
    ensures r >= w && (w >= 0 ==> r == w) && (w < 0 ==> r == 0)
  {
    if w < 0 then 0 else w
  }

  const TWO_TO_THE_64: int := 0x1_0000_0000_0000_0000
  const LONG_MIN: int := -0x8000_0000_0000_0000
  const LONG_MAX: int := 0x7fff_ffff_ffff_ffff

  /** The values of a Java `long`. */
  type Int64 = x: int | LONG_MIN <= x <= LONG_MAX

  /** The `long` that Java's two's-complement arithmetic produces for the exact result `x`. */
  function WrapLong(x: int): (r: Int64)
    ensures LONG_MIN <= x <= LONG_MAX ==> r == x
    ensures (r - x) % TWO_TO_THE_64 == 0
  {
    var m := (x - LONG_MIN) % TWO_TO_THE_64;
    assert (m + LONG_MIN - x) % TWO_TO_THE_64 == 0;
    m + LONG_MIN
  }

  /** Java's integer `/`: the exact quotient rounded toward zero, so the remainder takes the dividend's sign. */
  function TruncDiv(a: int, b: int): (q: int)
    requires b != 0
    ensures var rem := a - q * b;
      (rem == 0 || (rem > 0 <==> a > 0)) && (b > 0 ==> -b < rem < b) && (b < 0 ==> b < rem < -b)
    ensures a >= 0 && b > 0 ==> q == a / b
  {
    var n := if a >= 0 then a else -a;
    var d := if a >= 0 || b > 0 then b else -b;
    EuclideanDivision(n, d);
    var q := if a >= 0 || b < 0 then n / d else -(n / d);
    assert a - q * b == (if a >= 0 then n % d else -(n % d)) by {
      if a >= 0 {
        assert q * b == (n / d) * d;
      } else if b > 0 {
        assert q * b == -((n / d) * d);
      } else {
        assert q * b == (n / d) * (-d);
      }
    }
    q
  }

  /** Dafny's `/` and `%` on a non-negative dividend: a quotient and a remainder below the divisor's magnitude. */
  lemma EuclideanDivision(a: int, b: int)
    requires a >= 0 && b != 0
    ensures a == (a / b) * b + a % b
    ensures 0 <= a % b < (if b > 0 then b else -b)
  {
  }
}
