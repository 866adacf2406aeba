/** Java's 32-bit `int`: the value range, two's-complement wrap-around of
    `+` and `-`, and the truncating division `/` (rounds toward zero). */
module JavaInt {

  const Modulus: int := 0x1_0000_0000
  const MinInt: int := -0x8000_0000
  const MaxInt: int := 0x7fff_ffff

  newtype int32 = x: int | -0x8000_0000 <= x < 0x8000_0000

  predicate InRange(x: int) {
    MinInt <= x <= MaxInt
  }

  /** The 32-bit value Java keeps of the mathematical integer `x`. */
  function Wrap(x: int): (r: int32)
    ensures (r as int - x) % Modulus == 0
    ensures InRange(x) ==> r as int == x
  {
    ((x - MinInt) % Modulus + MinInt) as int32
  }

  /** Java `a + b` on `int`. */
  function Add(a: int32, b: int32): (r: int32)
    ensures InRange(a as int + b as int) ==> r as int == a as int + b as int
    ensures a as int + b as int > MaxInt ==> r as int == a as int + b as int - Modulus
    ensures a as int + b as int < MinInt ==> r as int == a as int + b as int + Modulus
  {
    Wrap(a as int + b as int)
  }

  /** Java `a - b` on `int`. */
  function Sub(a: int32, b: int32): (r: int32)
    ensures InRange(a as int - b as int) ==> r as int == a as int - b as int
    ensures a as int - b as int > MaxInt ==> r as int == a as int - b as int - Modulus
    ensures a as int - b as int < MinInt ==> r as int == a as int - b as int + Modulus
  {
    Wrap(a as int - b as int)
  }

  /** Java `a / 2` on `int`: the quotient is truncated toward zero, so the
      remainder has the sign of `a` (Dafny's own `/` would floor it). */
  function Half(a: int32): (r: int32)
    ensures a >= 0 ==> 0 <= a as int - 2 * r as int <= 1
    ensures a < 0 ==> -1 <= a as int - 2 * r as int <= 0
  {
    if a >= 0 then a / 2 else -((-(a as int)) / 2) as int32
  }

  /** Two integers that differ by a multiple of 2^32 wrap to the same value. */
  lemma WrapCongruent(x: int, y: int)
    requires (x - y) % Modulus == 0
    ensures Wrap(x) == Wrap(y)
  {
    var qx, qy, q := (x - MinInt) / Modulus, (y - MinInt) / Modulus, (x - y) / Modulus;
    assert x - MinInt == qx * Modulus + (x - MinInt) % Modulus;
    assert y - MinInt == qy * Modulus + (y - MinInt) % Modulus;
    assert x - y == q * Modulus;
  }

  /** Wrapping an intermediate sum early does not change the final value:
      Java's `(a + b) + c` agrees with the exact sum taken modulo 2^32. */
  lemma WrapAbsorbs(x: int, y: int)
    ensures Wrap(Wrap(x) as int + y) == Wrap(x + y)
  {
    WrapCongruent(Wrap(x) as int + y, x + y);
  }

  /** Java's `+` and `-` on `int` form a group: subtracting then adding the
      same value restores the original, overflow or not. */
  lemma SubAddCancel(a: int32, b: int32)
    ensures Add(Sub(a, b), b) == a
  {
    WrapAbsorbs(a as int - b as int, b as int);
  }

  /** Adding then subtracting the same value likewise restores it. */
  lemma AddSubCancel(a: int32, b: int32)
    ensures Sub(Add(a, b), b) == a
  {
    WrapAbsorbs(a as int + b as int, -(b as int));
  }

  /** Java `int` addition and subtraction by independent amounts commute,
      even when an intermediate result wraps. */
  lemma AddSubCommute(a: int32, b: int32, c: int32)
    ensures Sub(Add(a, b), c) == Add(Sub(a, c), b)
  {
    WrapAbsorbs(a as int + b as int, -(c as int));
    WrapAbsorbs(a as int - c as int, b as int);
  }
}
