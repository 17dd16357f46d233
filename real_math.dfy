/** Arithmetic of Java doubles and ints as the model uses it: doubles are reals, `Math.round`
  * and the `(int)` cast are written out, and the library's transcendental functions are
  * supplied by the caller as a `Trig` value (the model does not fix their numerics). */
module RealMath {
  /** `Math.PI`. */
  const PI: real := 3.141592653589793

  /** `Math.cos`, `Math.sin` and `Math.hypot` (sqrt(a^2 + b^2)). */
  datatype Trig = Trig(cos: real -> real, sin: real -> real, hypot: (real, real) -> real)

  /** The product of two doubles (kept as a named operation so that products of samples are
    * compared as terms). */
  function Times(a: real, b: real): real { a * b }

  function Abs(x: real): (r: real)
    ensures r >= 0.0 && (r == x || r == -x)
  {
    if x < 0.0 then -x else x
  }

  function MaxInt(a: int, b: int): (r: int)
    ensures r >= a && r >= b && (r == a || r == b)
  {
    if a >= b then a else b
  }

  function MinInt(a: int, b: int): (r: int)
    ensures r <= a && r <= b && (r == a || r == b)
  {
    if a <= b then a else b
  }

  /** `Math.round(x)`: the nearest integer, halves rounded up. */
  function JavaRound(x: real): (r: int)
    ensures r as real - 0.5 <= x < r as real + 0.5
  {
    (x + 0.5).Floor
  }

  /** The `(int)` / `(long)` cast of a double: truncation toward zero. */
  function Truncate(x: real): (r: int)
    ensures x >= 0.0 ==> 0 <= r && r as real <= x < r as real + 1.0
    ensures x < 0.0 ==> r <= 0 && r as real - 1.0 < x <= r as real
  {
    if x >= 0.0 then x.Floor else -((-x).Floor)
  }

  /** Java `int` arithmetic: the value reduced into [-2^31, 2^31) modulo 2^32. */
  function Wrap32(x: int): (r: int)
    ensures -0x8000_0000 <= r < 0x8000_0000
    ensures (r - x) % 0x1_0000_0000 == 0
  {
    (x + 0x8000_0000) % 0x1_0000_0000 - 0x8000_0000
  }

  /** `n` is 2^k for some k >= 0. */
  predicate IsPow2(n: int)
    decreases if n > 0 then n else 0
  {
    n == 1 || (n > 1 && n % 2 == 0 && IsPow2(n / 2))
  }

  /** Degrees to radians as `Math.toRadians` computes them. */
  function ToRadians(deg: real): real { deg * (PI / 180.0) }

  /** Radians to degrees as `Math.toDegrees` computes them. */
  function ToDegrees(rad: real): real { rad * (180.0 / PI) }

  lemma DegreesRoundTrip(deg: real)
    ensures ToDegrees(ToRadians(deg)) == deg
  {
    assert (PI / 180.0) * (180.0 / PI) == 1.0;
  }

  lemma RadiansRoundTrip(rad: real)
    ensures ToRadians(ToDegrees(rad)) == rad
  {
    assert (180.0 / PI) * (PI / 180.0) == 1.0;
  }
}
