/**
 * Exact real and integer 3-vectors, the small matrices the rotation code uses,
 * and numpy's `allclose` tolerance test.
 */
module Vectors {

  /** A point or direction in space (numpy's float arrays of length 3, as exact reals). */
  datatype Vec3 = Vec3(x: real, y: real, z: real)

  /** An integer direction template such as `[1, -1, 0]`. */
  datatype IVec3 = IVec3(x: int, y: int, z: int)

  /** A 3x3 matrix by rows, as returned by a rotation's `as_matrix()`. */
  datatype Mat3 = Mat3(r0: Vec3, r1: Vec3, r2: Vec3)

  /** One row of a 4x4 homogeneous transform. */
  datatype Row4 = Row4(c0: real, c1: real, c2: real, c3: real)

  /** A 4x4 homogeneous transform by rows. */
  datatype Mat4 = Mat4(r0: Row4, r1: Row4, r2: Row4, r3: Row4)

  /** The canonical axis every torus is built around, `[0, 0, 1]`. */
  const ZAxis: Vec3 := Vec3(0.0, 0.0, 1.0)

  function ToReal(v: IVec3): Vec3 {
    Vec3(v.x as real, v.y as real, v.z as real)
  }

  /** Component-wise division, numpy's `v / d`. */
  function Divide(v: Vec3, d: real): Vec3
    requires d != 0.0
  {
    Vec3(v.x / d, v.y / d, v.z / d)
  }

  function Dot(a: Vec3, b: Vec3): real {
    a.x * b.x + a.y * b.y + a.z * b.z
  }

  function SqNorm(v: Vec3): real {
    Dot(v, v)
  }

  function Cross(a: Vec3, b: Vec3): Vec3 {
    Vec3(a.y * b.z - a.z * b.y, a.z * b.x - a.x * b.z, a.x * b.y - a.y * b.x)
  }

  function ICross(a: IVec3, b: IVec3): IVec3 {
    IVec3(a.y * b.z - a.z * b.y, a.z * b.x - a.x * b.z, a.x * b.y - a.y * b.x)
  }

  function ISqNorm(v: IVec3): int {
    v.x * v.x + v.y * v.y + v.z * v.z
  }

  /**
   * `n` is the Euclidean norm of the template `t`. Dafny's reals have no square
   * root, so a norm is characterised rather than computed.
   */
  predicate IsNormOf(n: real, t: IVec3) {
    n > 0.0 && n * n == ISqNorm(t) as real
  }

  /** `radii[i]` is the distance of `points[i]` from the origin (`np.linalg.norm(points, axis=1)`). */
  predicate AreRadii(radii: seq<real>, points: seq<Vec3>) {
    |radii| == |points| &&
    forall i :: 0 <= i < |radii| ==> radii[i] >= 0.0 && radii[i] * radii[i] == SqNorm(points[i])
  }

  function Abs(x: real): real {
    if x < 0.0 then -x else x
  }

  /** numpy's `allclose(a, b)` for scalars with its default tolerances rtol = 1e-05 and atol = 1e-08. */
  predicate AllClose(a: real, b: real): (close: bool)
    ensures a == b ==> close
    ensures close && b == 1.0 ==> 0.99 < a < 1.01
    ensures close && b == -1.0 ==> -1.01 < a < -0.99
  {
    Abs(a - b) <= 0.00000001 + 0.00001 * Abs(b)
  }

  function MatVec(m: Mat3, v: Vec3): Vec3 {
    Vec3(Dot(m.r0, v), Dot(m.r1, v), Dot(m.r2, v))
  }

  /** Applies a 4x4 transform to a point in homogeneous coordinates `(p, 1)`, keeping all four results. */
  function ApplyHomogeneous(m: Mat4, p: Vec3): Row4 {
    Row4(RowTimes(m.r0, p), RowTimes(m.r1, p), RowTimes(m.r2, p), RowTimes(m.r3, p))
  }

  function RowTimes(r: Row4, p: Vec3): real {
    r.c0 * p.x + r.c1 * p.y + r.c2 * p.z + r.c3 * 1.0
  }
}
