/** The conversion of density-independent units to pixels, `(int)(dp * density)`,
    with the host's display density as a positive rational `num / den`. Java's
    cast of a floating-point value to `int` truncates toward zero and
    saturates at the bounds of `int`. */
module Density {
  import opened JavaInt

  datatype Ratio = Ratio(num: nat, den: nat)

  /** A display density: a positive scale factor. */
  type Scale = r: Ratio | r.num > 0 && r.den > 0 witness Ratio(1, 1)

  /** Division of an integer by a positive one, truncated toward zero as
      Java's float-to-int cast truncates. */
  function TruncDiv(a: int, d: int): (q: int)
    requires d > 0
    ensures a >= 0 ==> 0 <= a - d * q < d
    ensures a < 0 ==> -d < a - d * q <= 0
  {
    if a >= 0 then a / d else -((-a) / d)
  }

  /** Java's cast to `int` of a value too large or too small for it gives
      the largest or smallest `int`. */
  function Saturate(x: int): (r: int32)
    ensures InRange(x) ==> r as int == x
    ensures x > MaxInt ==> r as int == MaxInt
    ensures x < MinInt ==> r as int == MinInt
  {
    if x > MaxInt then MaxInt as int32 else if x < MinInt then MinInt as int32 else x as int32
  }

  /** `(int)(dp * density)`. The pixel offset keeps the sign of the offset:
      no offset gives no shift, and a positive offset never shifts backwards. */
  function ToPixels(dp: int32, s: Scale): (r: int32)
    ensures dp == 0 ==> r == 0
    ensures dp >= 0 ==> r >= 0
    ensures dp <= 0 ==> r <= 0
  {
    Saturate(TruncDiv(dp as int * s.num, s.den))
  }

  lemma MulMonotone(a: int, b: int, n: nat)
    ensures a <= b ==> n * a <= n * b
  {
  }

  /** The quotient is the one `q` with `d * q <= x < d * q + d`. */
  lemma DivUnique(x: int, d: int, q: int)
    requires d > 0 && d * q <= x < d * q + d
    ensures x / d == q
  {
    var r := x / d;
    assert d * r <= x < d * r + d;
    assert d * (r + 1) == d * r + d;
    assert d * (q + 1) == d * q + d;
    MulMonotone(r + 1, q, d);
    MulMonotone(q + 1, r, d);
  }

  lemma FloorDivMonotone(x: int, y: int, d: int)
    requires d > 0 && x <= y
    ensures x / d <= y / d
  {
    var p, q := x / d, y / d;
    assert d * p <= x && y < d * q + d;
    assert d * (q + 1) == d * q + d;
    MulMonotone(q + 1, p, d);
  }

  lemma TruncDivMonotone(a: int, b: int, d: int)
    requires d > 0 && a <= b
    ensures TruncDiv(a, d) <= TruncDiv(b, d)
  {
    if 0 <= a {
      FloorDivMonotone(a, b, d);
    } else if b < 0 {
      FloorDivMonotone(-b, -a, d);
    } else {
      FloorDivMonotone(0, -a, d);
      FloorDivMonotone(0, b, d);
    }
  }

  /** A larger offset in density-independent units never gives a smaller
      one in pixels. */
  lemma ToPixelsMonotone(a: int32, b: int32, s: Scale)
    requires a <= b
    ensures ToPixels(a, s) <= ToPixels(b, s)
  {
    MulMonotone(a as int, b as int, s.num);
    TruncDivMonotone(a as int * s.num, b as int * s.num, s.den);
  }

  /** At density 1 (num == den) units are pixels. */
  lemma ToPixelsUnitDensity(dp: int32, s: Scale)
    requires s.num == s.den
    ensures ToPixels(dp, s) == dp
  {
    var n := s.den;
    if dp >= 0 {
      DivUnique(dp as int * n, n, dp as int);
    } else {
      DivUnique(-(dp as int * n), n, -(dp as int));
    }
  }

  /** At density 2, an offset of 10 is 20 pixels and one of 5 is 10. */
  lemma DoubleDensityExample()
    ensures ToPixels(10, Ratio(2, 1)) == 20 && ToPixels(5, Ratio(2, 1)) == 10
  {
  }
}
