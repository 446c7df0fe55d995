/**
 * The view frustum: six planes taken from a view-projection matrix by
 * adding or subtracting its rows (the Gribb-Hartmann method), and the
 * positive-vertex test of an axis-aligned box against them. glm::length,
 * a square root, is passed in as `length`.
 */
module Frustums {
  import opened Glm

  /** A plane (a, b, c, d): the points q with a*q.x + b*q.y + c*q.z + d = 0. */
  type Plane = Vec4

  const Left: nat := 0
  const Right: nat := 1
  const Bottom: nat := 2
  const Top: nat := 3
  const Near: nat := 4
  const Far: nat := 5
  const PlaneCount: nat := 6

  const ZeroPlane: Plane := Vec4(0.0, 0.0, 0.0, 0.0)

  function NormalOf(p: Plane): Vec3 {
    Vec3(p.x, p.y, p.z)
  }

  function SignedDistance(p: Plane, q: Vec3): real {
    Dot3(NormalOf(p), q) + p.w
  }

  predicate InBox(q: Vec3, min: Vec3, max: Vec3) {
    min.x <= q.x <= max.x && min.y <= q.y <= max.y && min.z <= q.z <= max.z
  }

  /** The box corner furthest along the plane's normal: per axis, max where the normal is >= 0, else min. */
  function PVertex(p: Plane, min: Vec3, max: Vec3): Vec3 {
    Vec3(if p.x >= 0.0 then max.x else min.x,
         if p.y >= 0.0 then max.y else min.y,
         if p.z >= 0.0 then max.z else min.z)
  }

  /** One plane's verdict: the positive vertex is not behind it. */
  predicate PlaneAccepts(p: Plane, min: Vec3, max: Vec3) {
    SignedDistance(p, PVertex(p, min, max)) >= 0.0
  }

  function Add4(a: Vec4, b: Vec4): Vec4 { Vec4(a.x + b.x, a.y + b.y, a.z + b.z, a.w + b.w) }

  function Sub4(a: Vec4, b: Vec4): Vec4 { Vec4(a.x - b.x, a.y - b.y, a.z - b.z, a.w - b.w) }

  /** Plane i of the matrix: row 3 plus row i/2 for even i, minus it for odd i (left/right, bottom/top, near/far). */
  function ExtractedPlane(vp: Mat4, i: nat): Plane
    requires i < PlaneCount
  {
    if i % 2 == 0 then Add4(Row(vp, 3), Row(vp, i / 2)) else Sub4(Row(vp, 3), Row(vp, i / 2))
  }

  /** Divides the whole plane by the length of its normal when that length is positive. */
  function NormalizePlane(p: Plane, length: real): (r: Plane)
    ensures length <= 0.0 ==> r == p
  {
    if length > 0.0 then Vec4(p.x / length, p.y / length, p.z / length, p.w / length) else p
  }

  class Frustum {
    const planes: array<Plane>

    ghost predicate Valid()
      reads this
    {
      planes.Length == PlaneCount
    }

    constructor ()
      ensures Valid() && fresh(planes)
      ensures forall i :: 0 <= i < PlaneCount ==> planes[i] == ZeroPlane
    {
      planes := new Plane[PlaneCount];
      new;
      for i := 0 to PlaneCount
        invariant forall k :: 0 <= k < i ==> planes[k] == ZeroPlane
      {
        planes[i] := ZeroPlane;
      }
    }

    /** Recomputes the six planes from the view-projection matrix and normalises each. */
    method Update(vp: Mat4, length: Vec3 -> real)
      requires Valid()
      modifies planes
      ensures forall i :: 0 <= i < PlaneCount ==>
        planes[i] == NormalizePlane(ExtractedPlane(vp, i), length(NormalOf(ExtractedPlane(vp, i))))
    {
      planes[Left] := Vec4(vp.c0.w + vp.c0.x, vp.c1.w + vp.c1.x, vp.c2.w + vp.c2.x, vp.c3.w + vp.c3.x);
      planes[Right] := Vec4(vp.c0.w - vp.c0.x, vp.c1.w - vp.c1.x, vp.c2.w - vp.c2.x, vp.c3.w - vp.c3.x);
      planes[Bottom] := Vec4(vp.c0.w + vp.c0.y, vp.c1.w + vp.c1.y, vp.c2.w + vp.c2.y, vp.c3.w + vp.c3.y);
      planes[Top] := Vec4(vp.c0.w - vp.c0.y, vp.c1.w - vp.c1.y, vp.c2.w - vp.c2.y, vp.c3.w - vp.c3.y);
      planes[Near] := Vec4(vp.c0.w + vp.c0.z, vp.c1.w + vp.c1.z, vp.c2.w + vp.c2.z, vp.c3.w + vp.c3.z);
      planes[Far] := Vec4(vp.c0.w - vp.c0.z, vp.c1.w - vp.c1.z, vp.c2.w - vp.c2.z, vp.c3.w - vp.c3.z);
      assert forall i :: 0 <= i < PlaneCount ==> planes[i] == ExtractedPlane(vp, i);
      for i := 0 to PlaneCount
        invariant forall k :: 0 <= k < i ==>
          planes[k] == NormalizePlane(ExtractedPlane(vp, k), length(NormalOf(ExtractedPlane(vp, k))))
        invariant forall k :: i <= k < PlaneCount ==> planes[k] == ExtractedPlane(vp, k)
      {
        NormalizePlaneAt(i, length);
      }
    }

    /** normalizePlane on one stored plane, in place. */
    method NormalizePlaneAt(i: nat, length: Vec3 -> real)
      requires Valid() && i < PlaneCount
      modifies planes
      ensures planes[i] == NormalizePlane(old(planes[i]), length(NormalOf(old(planes[i]))))
      ensures forall k :: 0 <= k < PlaneCount && k != i ==> planes[k] == old(planes[k])
    {
      var len := length(NormalOf(planes[i]));
      if len > 0.0 {
        var p := planes[i];
        planes[i] := Vec4(p.x / len, p.y / len, p.z / len, p.w / len);
      }
    }

    /** The box passes when no plane has its positive vertex strictly behind it. */
    ghost predicate BoxVisible(min: Vec3, max: Vec3)
      reads this, planes
      requires Valid()
    {
      forall i :: 0 <= i < PlaneCount ==> PlaneAccepts(planes[i], min, max)
    }

    method IsBoxVisible(min: Vec3, max: Vec3) returns (visible: bool)
      requires Valid()
      ensures visible <==> BoxVisible(min, max)
      ensures !visible ==> exists i :: 0 <= i < PlaneCount && SignedDistance(planes[i], PVertex(planes[i], min, max)) < 0.0
    {
      for i := 0 to PlaneCount
        invariant forall k :: 0 <= k < i ==> PlaneAccepts(planes[k], min, max)
      {
        var plane := planes[i];
        var pVertex := PVertex(plane, min, max);
        var distance := SignedDistance(plane, pVertex);
        if distance < 0.0 {
          return false;
        }
      }
      return true;
    }
  }

  /** Along one axis, the coordinate chosen by the normal's sign maximises the product. */
  lemma AxisMaximum(a: real, lo: real, hi: real, q: real)
    requires lo <= q <= hi
    ensures a * q <= a * (if a >= 0.0 then hi else lo)
  {
    if a >= 0.0 {
      assert a * (hi - q) >= 0.0;
    } else {
      assert (-a) * (q - lo) >= 0.0;
    }
  }

  /** No point of the box is further along the normal than the positive vertex. */
  lemma PVertexMaximises(p: Plane, min: Vec3, max: Vec3, q: Vec3)
    requires InBox(q, min, max)
    ensures SignedDistance(p, q) <= SignedDistance(p, PVertex(p, min, max))
    ensures InBox(PVertex(p, min, max), min, max)
  {
    var pv := PVertex(p, min, max);
    AxisMaximum(p.x, min.x, max.x, q.x);
    AxisMaximum(p.y, min.y, max.y, q.y);
    AxisMaximum(p.z, min.z, max.z, q.z);
    calc {
      SignedDistance(p, q);
      p.x * q.x + p.y * q.y + p.z * q.z + p.w;
    <= p.x * pv.x + p.y * q.y + p.z * q.z + p.w;
    <= p.x * pv.x + p.y * pv.y + p.z * q.z + p.w;
    <= p.x * pv.x + p.y * pv.y + p.z * pv.z + p.w;
      SignedDistance(p, pv);
    }
  }

  /** Every point of the box is strictly behind the plane. */
  ghost predicate OutsidePlane(p: Plane, min: Vec3, max: Vec3) {
    forall q :: InBox(q, min, max) ==> SignedDistance(p, q) < 0.0
  }

  /** A rejected box lies wholly, and strictly, outside one common plane. */
  lemma RejectedBoxIsOutside(f: Frustum, min: Vec3, max: Vec3)
    requires f.Valid()
    requires !f.BoxVisible(min, max)
    ensures exists i :: 0 <= i < PlaneCount && OutsidePlane(f.planes[i], min, max)
  {
    var i :| 0 <= i < PlaneCount && !PlaneAccepts(f.planes[i], min, max);
    forall q | InBox(q, min, max)
      ensures SignedDistance(f.planes[i], q) < 0.0
    {
      PVertexMaximises(f.planes[i], min, max, q);
    }
    assert OutsidePlane(f.planes[i], min, max);
  }

  /** The test is conservative: a box with one point inside all six half-spaces passes. */
  lemma BoxWithInsidePointVisible(f: Frustum, min: Vec3, max: Vec3, q: Vec3)
    requires f.Valid()
    requires InBox(q, min, max)
    requires forall i :: 0 <= i < PlaneCount ==> SignedDistance(f.planes[i], q) >= 0.0
    ensures f.BoxVisible(min, max)
  {
    forall i | 0 <= i < PlaneCount
      ensures PlaneAccepts(f.planes[i], min, max)
    {
      PVertexMaximises(f.planes[i], min, max, q);
    }
  }

  /** With all six planes zero (a default-constructed frustum) every box passes. */
  lemma ZeroPlanesAcceptEverything(f: Frustum, min: Vec3, max: Vec3)
    requires f.Valid()
    requires forall i :: 0 <= i < PlaneCount ==> f.planes[i] == ZeroPlane
    ensures f.BoxVisible(min, max)
  {
    forall i | 0 <= i < PlaneCount
      ensures PlaneAccepts(f.planes[i], min, max)
    {
      var pv := PVertex(ZeroPlane, min, max);
      assert SignedDistance(ZeroPlane, pv) == 0.0;
    }
  }

  /** Dividing a plane by a positive length divides every signed distance by it. */
  lemma NormalizeScalesDistance(p: Plane, length: real, q: Vec3)
    requires length > 0.0
    ensures SignedDistance(NormalizePlane(p, length), q) * length == SignedDistance(p, q)
  {
    var n := NormalizePlane(p, length);
    assert n.x * length == p.x && n.y * length == p.y && n.z * length == p.z && n.w * length == p.w;
    calc {
      SignedDistance(n, q) * length;
      (n.x * q.x + n.y * q.y + n.z * q.z + n.w) * length;
      (n.x * length) * q.x + (n.y * length) * q.y + (n.z * length) * q.z + n.w * length;
      p.x * q.x + p.y * q.y + p.z * q.z + p.w;
    }
  }

  /** Normalising a plane, by any length, never changes its verdict on a box. */
  lemma NormalizeKeepsVerdict(p: Plane, length: real, min: Vec3, max: Vec3)
    ensures PlaneAccepts(NormalizePlane(p, length), min, max) <==> PlaneAccepts(p, min, max)
  {
    if length > 0.0 {
      var n := NormalizePlane(p, length);
      assert (n.x >= 0.0 <==> p.x >= 0.0) && (n.y >= 0.0 <==> p.y >= 0.0) && (n.z >= 0.0 <==> p.z >= 0.0) by {
        SignOfQuotient(p.x, length);
        SignOfQuotient(p.y, length);
        SignOfQuotient(p.z, length);
      }
      var pv := PVertex(p, min, max);
      assert PVertex(n, min, max) == pv;
      NormalizeScalesDistance(p, length, pv);
      SignOfProduct(SignedDistance(n, pv), length);
    }
  }

  lemma SignOfQuotient(a: real, length: real)
    requires length > 0.0
    ensures a / length >= 0.0 <==> a >= 0.0
  {
    assert (a / length) * length == a;
    SignOfProduct(a / length, length);
  }

  lemma SignOfProduct(a: real, length: real)
    requires length > 0.0
    ensures a * length >= 0.0 <==> a >= 0.0
  {
    if a < 0.0 {
      assert (-a) * length > 0.0;
    }
  }

  /** An extracted plane measures clip-space distance: w plus or minus the x, y or z clip coordinate. */
  lemma ExtractedPlaneInClipSpace(vp: Mat4, i: nat, q: Vec3)
    requires i < PlaneCount
    ensures var c := Transform(vp, q);
            SignedDistance(ExtractedPlane(vp, i), q)
              == if i % 2 == 0 then c.w + Component(c, i / 2) else c.w - Component(c, i / 2)
  {
  }

  /** A point passes all six extracted planes exactly when its clip coordinates satisfy -w <= x, y, z <= w. */
  lemma InsideAllPlanesIffClipped(vp: Mat4, q: Vec3)
    ensures (forall i :: 0 <= i < PlaneCount ==> SignedDistance(ExtractedPlane(vp, i), q) >= 0.0)
        <==> (var c := Transform(vp, q);
              -c.w <= c.x <= c.w && -c.w <= c.y <= c.w && -c.w <= c.z <= c.w)
  {
    forall i | 0 <= i < PlaneCount
      ensures var c := Transform(vp, q);
              SignedDistance(ExtractedPlane(vp, i), q)
                == if i % 2 == 0 then c.w + Component(c, i / 2) else c.w - Component(c, i / 2)
    {
      ExtractedPlaneInClipSpace(vp, i, q);
    }
    var c := Transform(vp, q);
    assert SignedDistance(ExtractedPlane(vp, 0), q) == c.w + c.x;
    assert SignedDistance(ExtractedPlane(vp, 1), q) == c.w - c.x;
    assert SignedDistance(ExtractedPlane(vp, 2), q) == c.w + c.y;
    assert SignedDistance(ExtractedPlane(vp, 3), q) == c.w - c.y;
    assert SignedDistance(ExtractedPlane(vp, 4), q) == c.w + c.z;
    assert SignedDistance(ExtractedPlane(vp, 5), q) == c.w - c.z;
  }

  /** After an update, the verdict is that of the raw, unnormalised extracted planes. */
  lemma UpdatedVerdictIsRawVerdict(f: Frustum, vp: Mat4, length: Vec3 -> real, min: Vec3, max: Vec3)
    requires f.Valid()
    requires forall i :: 0 <= i < PlaneCount ==>
      f.planes[i] == NormalizePlane(ExtractedPlane(vp, i), length(NormalOf(ExtractedPlane(vp, i))))
    ensures f.BoxVisible(min, max) <==> forall i :: 0 <= i < PlaneCount ==> PlaneAccepts(ExtractedPlane(vp, i), min, max)
  {
    forall i | 0 <= i < PlaneCount
      ensures PlaneAccepts(f.planes[i], min, max) <==> PlaneAccepts(ExtractedPlane(vp, i), min, max)
    {
      var e := ExtractedPlane(vp, i);
      NormalizeKeepsVerdict(e, length(NormalOf(e)), min, max);
    }
  }
}
