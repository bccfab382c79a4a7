/** Go's fixed-width integers: 64-bit wrap-around, and division that truncates toward zero. */
module GoInt {
  const TWO63: int := 0x8000_0000_0000_0000
  const TWO64: int := 0x1_0000_0000_0000_0000

  type int64 = x: int | -0x8000_0000_0000_0000 <= x < 0x8000_0000_0000_0000
  type uint64 = x: int | 0 <= x < 0x1_0000_0000_0000_0000

  predicate FitsInt64(x: int) {
    -TWO63 <= x < TWO63
  }

  /** The int64 that a Go expression with the mathematical value `x` evaluates to. */
  function Wrap(x: int): int64 {
    (x + TWO63) % TWO64 - TWO63
  }

  /** The uint64 that a Go expression with the mathematical value `x` evaluates to. */
  function WrapU(x: int): uint64 {
    x % TWO64
  }

  /** Go's `/`: truncates toward zero. */
  function Quo(a: int, b: int): int
    requires b > 0
  {
    if a >= 0 then a / b else -((-a) / b)
  }

  /** Go's `%`: takes the sign of the dividend. */
  function Rem(a: int, b: int): int
    requires b > 0
  {
    a - b * Quo(a, b)
  }

  /** Whole turns do not change the wrapped value. */
  lemma WrapShift(x: int, q: int)
    ensures Wrap(x + q * TWO64) == Wrap(x)
  {
    var y := x + TWO63;
    assert (y + q * TWO64) % TWO64 == y % TWO64;
  }

  /** Wrapping a term before scaling and adding changes nothing once the result is wrapped. */
  lemma WrapLinear(c: int, a: int, b: int)
    ensures Wrap(c * Wrap(a) + b) == Wrap(c * a + b)
  {
    var q := (a + TWO63) / TWO64;
    assert Wrap(a) == a - q * TWO64;
    assert c * Wrap(a) + b == c * a + b + (-(c * q)) * TWO64 by {
      assert c * (a - q * TWO64) == c * a - c * q * TWO64;
    }
    WrapShift(c * a + b, -(c * q));
  }
}
