/** Java's fixed-width integer arithmetic, written out over Dafny's unbounded `int`. */
module JavaInt {

  const TWO_32: int := 0x1_0000_0000
  const INT32_MIN: int := -0x8000_0000
  const INT32_MAX: int := 0x7fff_ffff
  const INT64_MIN: int := -0x8000_0000_0000_0000
  const INT64_MAX: int := 0x7fff_ffff_ffff_ffff

  /** A Java `int`. */
  type Int32 = x: int | INT32_MIN <= x <= INT32_MAX

  /** A Java `long`. */
  type Int64 = x: int | INT64_MIN <= x <= INT64_MAX

  /** The `int` that Java's two's-complement arithmetic leaves when the exact result is `x`. */
  function Wrap32(x: int): (r: Int32)
    ensures (x - r) % TWO_32 == 0
    ensures INT32_MIN <= x <= INT32_MAX ==> r == x
  {
    (x - INT32_MIN) % TWO_32 + INT32_MIN
  }

  /** Two ints congruent modulo 2^32 wrap to the same Java `int`. */
  lemma Wrap32Congruent(x: int, y: int)
    requires (x - y) % TWO_32 == 0
    ensures Wrap32(x) == Wrap32(y)
  {
    var q := (x - y) / TWO_32;
    assert x - INT32_MIN == (y - INT32_MIN) + q * TWO_32;
  }

  /** Wrapping an intermediate sum does not change the wrapped total: a chain of Java
      `+=` on ints ends where one wrap of the exact sum does. */
  lemma {:induction false} Wrap32Absorbs(x: int, y: int)
    ensures Wrap32(Wrap32(x) + y) == Wrap32(x + y)
  {
    assert (Wrap32(x) + y - (x + y)) % TWO_32 == 0 by {
      assert Wrap32(x) + y - (x + y) == -(x - Wrap32(x));
    }
    Wrap32Congruent(Wrap32(x) + y, x + y);
  }

  /** Java's `a % b` on ints: it truncates toward zero, so the remainder takes the sign
      of the dividend. */
  function JavaRem(a: int, b: int): (r: int)
    requires b > 0
    ensures a >= 0 ==> 0 <= r < b
    ensures a < 0 ==> -b < r <= 0
    ensures (a - r) % b == 0
  {
    if a >= 0 then
      DivModOf(a - a % b, b, a / b, 0);
      a % b
    else JavaRemNegative(a, b)
  }

  /** Java's `%` of a negative dividend: minus the remainder of its magnitude. */
  function JavaRemNegative(a: int, b: int): (r: int)
    requires a < 0 && b > 0
    ensures -b < r <= 0 && (a - r) % b == 0
  {
    var q := (-a) / b;
    var r := -((-a) % b);
    assert a - r == (-q) * b;
    DivModOf((-q) * b, b, -q, 0);
    r
  }

  /** Division with remainder is unique. */
  lemma DivModOf(m: int, n: int, q: int, s: int)
    requires n > 0 && 0 <= s < n && m == q * n + s
    ensures m / n == q && m % n == s
  {
    var q', s' := m / n, m % n;
    assert (q - q') * n == s' - s;
    if q > q' {
      MulAtLeast(q - q', n);
    } else if q < q' {
      MulAtLeast(q' - q, n);
    }
  }

  lemma MulAtLeast(a: int, n: int)
    requires a >= 1 && n > 0
    ensures a * n >= n
  {
    assert a * n == (a - 1) * n + n;
  }
}
