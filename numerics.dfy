// Numeric building blocks shared by the oscilloscope model: Unity's Vector3
// and the rounding, truncation, clamping and interpolation helpers the C#
// code relies on. Floats are modelled as mathematical reals.

module Numerics {

  datatype Option<T> = None | Some(value: T)

  /** Unity's Color; only r, g and b are ever read. */
  datatype Color = Color(r: real, g: real, b: real, a: real)

  /** Largest finite single-precision float (float.MaxValue). */
  const FLOAT_MAX: real := 340282346638528859811704183484516925440.0

  /** Unity's Vector3 (Vector2 values are Vector3 values whose z is kept apart). */
  datatype Vec3 = Vec3(x: real, y: real, z: real)

  const ZERO: Vec3 := Vec3(0.0, 0.0, 0.0)

  function Sub(a: Vec3, b: Vec3): Vec3
  {
    Vec3(a.x - b.x, a.y - b.y, a.z - b.z)
  }

  function Abs(r: real): real
  {
    if r < 0.0 then -r else r
  }

  function AbsInt(i: int): nat
  {
    if i < 0 then -i else i
  }

  /**
   * Index clamping as done by a texture whose wrap mode is Clamp, and by
   * the ClampPixelInsideScreen helpers: below 0 gives 0, at or beyond the
   * size gives size - 1.
   */
  function ClampIndex(v: int, size: int): (r: int)
    ensures size >= 1 ==> 0 <= r < size
    ensures 0 <= v < size ==> r == v
    ensures v < 0 ==> r == 0
    ensures v >= 0 && v >= size ==> r == size - 1
  {
    if v < 0 then 0 else if v < size then v else size - 1
  }

  /** Mathf.Clamp01 */
  function Clamp01(t: real): (r: real)
    ensures 0.0 <= r <= 1.0
    ensures 0.0 <= t <= 1.0 ==> r == t
  {
    if t < 0.0 then 0.0 else if t > 1.0 then 1.0 else t
  }

  /** Mathf.Clamp: the lower bound is tested first, so it wins when lo > hi. */
  function ClampReal(v: real, lo: real, hi: real): (r: real)
    ensures lo <= hi ==> lo <= r <= hi
    ensures lo <= v <= hi ==> r == v
  {
    if v < lo then lo else if v > hi then hi else v
  }

  /** Vector3.Lerp: a + (b - a) * Clamp01(t), component by component. */
  function Lerp(a: Vec3, b: Vec3, t: real): Vec3
  {
    var u := Clamp01(t);
    Vec3(a.x + (b.x - a.x) * u, a.y + (b.y - a.y) * u, a.z + (b.z - a.z) * u)
  }

  /** Interpolation factor 0 keeps the start, factor 1 (or more) reaches the end. */
  lemma LerpEnds(a: Vec3, b: Vec3, t: real)
    ensures t <= 0.0 ==> Lerp(a, b, t) == a
    ensures t >= 1.0 ==> Lerp(a, b, t) == b
  {
  }

  /**
   * Mathf.RoundToInt, which is Math.Round with ties to the even integer
   * (banker's rounding).
   */
  function RoundToInt(r: real): (n: int)
    ensures n as real - 0.5 <= r <= n as real + 0.5
    ensures (r - n as real == 0.5 || n as real - r == 0.5) ==> n % 2 == 0
  {
    var f := r.Floor;
    var frac := r - f as real;
    if frac < 0.5 then f
    else if frac > 0.5 then f + 1
    else if f % 2 == 0 then f
    else f + 1
  }

  /** Rounding lands on the integer nearest to r whenever one is strictly nearest. */
  lemma RoundToIntNearest(r: real, m: int)
    requires m as real - 0.5 < r < m as real + 0.5
    ensures RoundToInt(r) == m
  {
  }

  /** A C# (int) cast of a float: truncation toward zero. */
  function Trunc(r: real): (n: int)
    ensures AbsInt(n) as real <= Abs(r) < AbsInt(n) as real + 1.0
    ensures (n >= 0) == (r > -1.0)
  {
    if r >= 0.0 then r.Floor else -((-r).Floor)
  }

  /** C# integer division, which truncates toward zero. */
  function DivT(a: int, b: int): (q: int)
    requires b != 0
    ensures a >= 0 && b > 0 ==> q == a / b
  {
    if a >= 0 then (if b > 0 then a / b else -(a / -b))
    else (if b > 0 then -((-a) / b) else (-a) / (-b))
  }

  /** Truncation is symmetric: negating the dividend negates the quotient. */
  lemma DivTNegate(a: int, b: int)
    requires b != 0
    ensures DivT(-a, b) == -DivT(a, b)
  {
    if a > 0 {
      if b > 0 {
        assert DivT(-a, b) == -(a / b);
      } else {
        assert DivT(-a, b) == a / -b;
      }
    } else if a < 0 {
      assert -(-a) == a;
    }
  }
}
