/** Real-number stand-ins for the f32 operations the engine uses: the constant PI,
    the conversions `as usize` / `as u32`, `floor`, `ceil`, `max`, and the
    floating-point remainder `%`. Rounding and NaN are not modelled. */
module RealMath {

  /** std::f32::consts::PI, rounded to the digits an f32 carries. */
  const Pi: real := 3.1415927

  function Max(a: real, b: real): (r: real)
    ensures r >= a && r >= b && (r == a || r == b)
  {
    if a >= b then a else b
  }

  function MinNat(a: nat, b: nat): (r: nat)
    ensures r <= a && r <= b && (r == a || r == b)
  {
    if a <= b then a else b
  }

  /** `x.trunc()`: rounds toward zero. */
  function Trunc(x: real): (r: int)
    ensures x >= 0.0 ==> r as real <= x < r as real + 1.0
    ensures x < 0.0 ==> r as real - 1.0 < x <= r as real
  {
    if x >= 0.0 then x.Floor else -((-x).Floor)
  }

  /** `x.ceil()`: the least integer not below x. */
  function Ceil(x: real): (r: int)
    ensures r as real - 1.0 < x <= r as real
  {
    -((-x).Floor)
  }

  /** `x as usize` for a float: rounds toward zero, and a negative value saturates
      to 0 (saturation at the top of the range is not modelled). For every real this
      is the floor, clamped below at 0. */
  function Usize(x: real): (r: nat)
    ensures x < 1.0 ==> r == 0
    ensures x >= 0.0 ==> r as real <= x < r as real + 1.0
  {
    if x < 0.0 then 0 else x.Floor
  }

  /** `x.ceil() as usize`. */
  function CeilUsize(x: real): (r: nat)
    ensures x <= 0.0 ==> r == 0
    ensures x > 0.0 ==> r as real - 1.0 < x <= r as real
  {
    if x <= 0.0 then 0 else Ceil(x)
  }

  /** Rust's `a % b` on floats: the remainder of the division truncated toward zero,
      carrying the sign of the dividend. */
  function FMod(a: real, b: real): (r: real)
    requires b != 0.0
    ensures a >= 0.0 && b > 0.0 ==> 0.0 <= r < b
    ensures a - r == Trunc(a / b) as real * b
  {
    var q := Trunc(a / b);
    if a >= 0.0 && b > 0.0 then
      RemainderBounds(a, b, q);
      a - q as real * b
    else
      a - q as real * b
  }

  /** For q the integer part of a / b (a >= 0, b > 0), a - q·b lies in [0, b). */
  lemma RemainderBounds(a: real, b: real, q: int)
    requires a >= 0.0 && b > 0.0
    requires q as real <= a / b < q as real + 1.0
    ensures 0.0 <= a - q as real * b < b
  {
    var ratio := a / b;
    assert ratio * b == a;
    MulMonotone(q as real, ratio, b);
    MulStrict(ratio, q as real + 1.0, b);
    assert (q as real + 1.0) * b == q as real * b + b;
  }

  lemma MulMonotone(x: real, y: real, c: real)
    requires x <= y && c >= 0.0
    ensures x * c <= y * c
  {
    assert y * c - x * c == (y - x) * c;
  }

  lemma MulStrict(x: real, y: real, c: real)
    requires x < y && c > 0.0
    ensures x * c < y * c
  {
    assert y * c - x * c == (y - x) * c;
  }

  lemma DivStrict(a: real, b: real, d: real)
    requires a < b && d > 0.0
    ensures a / d < b / d
  {
    assert b / d - a / d == (b - a) / d;
  }
}
