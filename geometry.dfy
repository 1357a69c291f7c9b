/** Vectors, the two coordinate frames, and the angle helpers of the 3D map camera. */
module Geometry {

  /** OpenTK's Vector3, with the single-precision floats taken as reals. */
  datatype Vec3 = Vec3(x: real, y: real, z: real)

  const Zero := Vec3(0.0, 0.0, 0.0)

  function Add(a: Vec3, b: Vec3): Vec3 {
    Vec3(a.x + b.x, a.y + b.y, a.z + b.z)
  }

  function Sub(a: Vec3, b: Vec3): Vec3 {
    Vec3(a.x - b.x, a.y - b.y, a.z - b.z)
  }

  /** Vector3.Multiply(v, k) */
  function Scale(v: Vec3, k: real): Vec3 {
    Vec3(v.x * k, v.y * k, v.z * k)
  }

  function LengthSquared(v: Vec3): real {
    v.x * v.x + v.y * v.y + v.z * v.z
  }

  lemma ProductPositive(a: real, b: real)
    requires (a > 0.0 && b > 0.0) || (a < 0.0 && b < 0.0)
    ensures a * b > 0.0
  {
  }

  /** A product is zero exactly when a factor is. */
  lemma ProductZero(a: real, b: real)
    ensures a * b == 0.0 <==> a == 0.0 || b == 0.0
  {
    if a > 0.0 && b > 0.0 { ProductPositive(a, b); }
    if a < 0.0 && b < 0.0 { ProductPositive(a, b); }
    if a > 0.0 && b < 0.0 { ProductPositive(a, -b); }
    if a < 0.0 && b > 0.0 { ProductPositive(-a, b); }
  }

  /** The keyboard handlers act only when their action vector's squared
      length is positive, which holds exactly when some component is non-zero.
      Stated on the components, as the handlers compute it. */
  lemma SquaredLengthPositive(a: real, b: real, c: real)
    ensures a * a + b * b + c * c > 0.0 <==> (a != 0.0 || b != 0.0 || c != 0.0)
  {
    if a != 0.0 { ProductPositive(a, a); }
    if b != 0.0 { ProductPositive(b, b); }
    if c != 0.0 { ProductPositive(c, c); }
  }

  /** Converts between the "real world" frame callers use (Y up, the frame of
      star positions) and the camera's internal frame, in which Y is inverted. */
  function FlipY(v: Vec3): (r: Vec3)
    ensures r.x == v.x && r.z == v.z && r.y + v.y == 0.0
  {
    Vec3(v.x, -v.y, v.z)
  }

  lemma FlipYInvolution(v: Vec3)
    ensures FlipY(FlipY(v)) == v
  {
  }

  /** A vector argument whose X component may be NaN: the camera treats a NaN X
      as "no change requested". Only this sentinel is modelled of IEEE NaN. */
  datatype VecArg = NaNX | Vec(v: Vec3)

  function Min(a: real, b: real): real { if a <= b then a else b }
  function Max(a: real, b: real): real { if a >= b then a else b }

  /** Truncation toward zero, as a float-to-integer cast does in C#. */
  function Trunc(x: real): (n: int)
    ensures x >= 0.0 ==> n as real <= x < n as real + 1.0
    ensures x < 0.0 ==> n as real - 1.0 < x <= n as real
  {
    if x >= 0.0 then x.Floor else -((-x).Floor)
  }

  predicate IsWhole(x: real) {
    x.Floor as real == x
  }

  /** C#'s `%` on floats, by 360: the remainder of truncated division, which
      carries the sign of the dividend and differs from x by a whole number
      of turns. */
  function Mod360(x: real): (r: real)
    ensures x >= 0.0 ==> 0.0 <= r < 360.0
    ensures x < 0.0 ==> -360.0 < r <= 0.0
    ensures IsWhole((x - r) / 360.0)
  {
    x - 360.0 * Trunc(x / 360.0) as real
  }

  /** Wraps an angle in degrees into [-180, 180), for every angle from -540 on;
      an angle already in that range is returned as it is. Below -540 the C#
      remainder is negative and the result lands in (-540, -180]. */
  function BoundedAngle(angle: real): (r: real)
    ensures angle >= -540.0 ==> -180.0 <= r < 180.0
    ensures angle < -540.0 ==> -540.0 < r <= -180.0
    ensures -180.0 <= angle < 180.0 ==> r == angle
    ensures IsWhole((angle - r) / 360.0)
  {
    var m := Mod360(angle + 360.0 + 180.0);
    BoundedAngleWhole(angle, m);
    if -180.0 <= angle < 180.0 then
      BoundedAngleInRange(angle);
      m - 180.0
    else
      m - 180.0
  }

  lemma BoundedAngleWhole(angle: real, m: real)
    requires IsWhole((angle + 360.0 + 180.0 - m) / 360.0)
    ensures IsWhole((angle - (m - 180.0)) / 360.0)
  {
    var k := (angle + 540.0 - m) / 360.0;
    assert (angle - (m - 180.0)) / 360.0 == k - 1.0;
    assert (k - 1.0).Floor == k.Floor - 1;
  }

  lemma BoundedAngleInRange(angle: real)
    requires -180.0 <= angle < 180.0
    ensures Mod360(angle + 360.0 + 180.0) == angle + 180.0
  {
    var x := angle + 540.0;
    assert 1.0 <= x / 360.0 < 2.0;
    assert Trunc(x / 360.0) == 1;
  }

  /** Keyboard turning normalises each axis once: a second normalisation leaves
      the angle where it is. */
  lemma BoundedAngleIdempotent(angle: real)
    requires angle >= -540.0
    ensures BoundedAngle(BoundedAngle(angle)) == BoundedAngle(angle)
  {
  }

  /** The pitch limit applied after every rotation: pitch ends in [0, 180];
      a pitch in range is kept, one just below level (-90, 0) snaps to level,
      anything past 180 or at or below -90 snaps to 180. */
  function ClampPitch(p: real): (r: real)
    ensures 0.0 <= r <= 180.0
    ensures 0.0 <= p <= 180.0 ==> r == p
    ensures -90.0 < p < 0.0 ==> r == 0.0
    ensures p > 180.0 || p <= -90.0 ==> r == 180.0
  {
    if p < 0.0 && p > -90.0 then 0.0
    else if p > 180.0 || p <= -90.0 then 180.0
    else p
  }
}
