/**
 * The small part of the vector library used by the terrain core: three- and
 * four-component vectors over `real`, a column-major 4x4 matrix, the dot
 * product and linear mixing. Floating-point rounding is not modelled.
 */
module Glm {

  datatype Vec3 = Vec3(x: real, y: real, z: real)

  datatype Vec4 = Vec4(x: real, y: real, z: real, w: real)

  /** A 4x4 matrix stored as four columns, like glm::mat4: `m[c][r]` is column c, row r. */
  datatype Mat4 = Mat4(c0: Vec4, c1: Vec4, c2: Vec4, c3: Vec4)

  function Add3(a: Vec3, b: Vec3): Vec3 { Vec3(a.x + b.x, a.y + b.y, a.z + b.z) }

  function Scale3(a: Vec3, s: real): Vec3 { Vec3(a.x * s, a.y * s, a.z * s) }

  function Sub3(a: Vec3, b: Vec3): Vec3 { Vec3(a.x - b.x, a.y - b.y, a.z - b.z) }

  function Dot3(a: Vec3, b: Vec3): real { a.x * b.x + a.y * b.y + a.z * b.z }

  /** glm::mix on scalars: `a * (1 - t) + b * t`. */
  function Mix(a: real, b: real, t: real): real { a * (1.0 - t) + b * t }

  /** glm::mix on colours, component by component. */
  function Mix3(a: Vec3, b: Vec3, t: real): Vec3 {
    Vec3(Mix(a.x, b.x, t), Mix(a.y, b.y, t), Mix(a.z, b.z, t))
  }

  function Component(v: Vec4, i: nat): real
    requires i < 4
  {
    if i == 0 then v.x else if i == 1 then v.y else if i == 2 then v.z else v.w
  }

  function Column(m: Mat4, c: nat): Vec4
    requires c < 4
  {
    if c == 0 then m.c0 else if c == 1 then m.c1 else if c == 2 then m.c2 else m.c3
  }

  /** Row r of the matrix, read across the four columns. */
  function Row(m: Mat4, r: nat): Vec4
    requires r < 4
  {
    Vec4(Component(m.c0, r), Component(m.c1, r), Component(m.c2, r), Component(m.c3, r))
  }

  /** The matrix applied to the point (p, 1), as glm's `m * vec4(p, 1)`. */
  function Transform(m: Mat4, p: Vec3): Vec4 {
    Vec4(m.c0.x * p.x + m.c1.x * p.y + m.c2.x * p.z + m.c3.x,
         m.c0.y * p.x + m.c1.y * p.y + m.c2.y * p.z + m.c3.y,
         m.c0.z * p.x + m.c1.z * p.y + m.c2.z * p.z + m.c3.z,
         m.c0.w * p.x + m.c1.w * p.y + m.c2.w * p.z + m.c3.w)
  }

  function MinInt(a: int, b: int): int { if a <= b then a else b }

  function MaxInt(a: int, b: int): int { if a >= b then a else b }

  function MinReal(a: real, b: real): real { if a <= b then a else b }

  function MaxReal(a: real, b: real): real { if a >= b then a else b }

  /** std::max(lo, std::min(v, hi)) on integers. */
  function ClampInt(v: int, lo: int, hi: int): (r: int)
    requires lo <= hi
    ensures lo <= r <= hi
    ensures lo <= v <= hi ==> r == v
    ensures v < lo ==> r == lo
    ensures v > hi ==> r == hi
  {
    MaxInt(lo, MinInt(v, hi))
  }

  /** std::max(lo, std::min(v, hi)) on reals. */
  function ClampReal(v: real, lo: real, hi: real): (r: real)
    requires lo <= hi
    ensures lo <= r <= hi
    ensures lo <= v <= hi ==> r == v
    ensures v < lo ==> r == lo
    ensures v > hi ==> r == hi
  {
    MaxReal(lo, MinReal(v, hi))
  }

  /** Linear interpolation stays between its two end values. */
  lemma MixBetween(a: real, b: real, t: real)
    requires 0.0 <= t <= 1.0
    ensures MinReal(a, b) <= Mix(a, b, t) <= MaxReal(a, b)
  {
    var d := b - a;
    assert Mix(a, b, t) == a + t * d;
    if a <= b {
      MulBounds(t, d);
    } else {
      MulBounds(t, -d);
      assert t * d == -(t * -d);
    }
  }

  /** Mixing with weight 0 gives the first value. */
  lemma MixAtZero(a: real, b: real)
    ensures Mix(a, b, 0.0) == a
  {
  }

  lemma MulBounds(t: real, d: real)
    requires 0.0 <= t <= 1.0 && d >= 0.0
    ensures 0.0 <= t * d <= d
  {
    assert (1.0 - t) * d >= 0.0;
  }
}
