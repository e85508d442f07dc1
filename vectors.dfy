/**
  Three-dimensional vectors and 3x3 linear maps over idealised reals.

  The camera uses nalgebra's `Vector3<f32>`, `Point3<f32>` and the linear part
  of a homogeneous `Matrix4<f32>`. Here the arithmetic that the camera spells
  out (sum, difference, scaling, cross product, matrix product and applying a
  matrix to a vector) is defined exactly over `real`; single-precision rounding
  is not modelled. A point and a vector share one representation.
 */
module Vectors {

  datatype Vec3 = Vec3(x: real, y: real, z: real)

  /** nalgebra keeps points and vectors apart; their coordinates are the same. */
  type Point3 = Vec3

  const Zero: Vec3 := Vec3(0.0, 0.0, 0.0)

  function Add(a: Vec3, b: Vec3): Vec3
  {
    Vec3(a.x + b.x, a.y + b.y, a.z + b.z)
  }

  function Sub(a: Vec3, b: Vec3): (r: Vec3)
    ensures Add(b, r) == a
  {
    Vec3(a.x - b.x, a.y - b.y, a.z - b.z)
  }

  function Neg(a: Vec3): (r: Vec3)
    ensures Add(a, r) == Zero
  {
    Vec3(-a.x, -a.y, -a.z)
  }

  /** `v * k` */
  function Scale(v: Vec3, k: real): (r: Vec3)
    ensures k == 0.0 ==> r == Zero
    ensures k == 1.0 ==> r == v
  {
    Vec3(v.x * k, v.y * k, v.z * k)
  }

  function Dot(a: Vec3, b: Vec3): real
  {
    a.x * b.x + a.y * b.y + a.z * b.z
  }

  /** `a.cross(&b)` */
  function Cross(a: Vec3, b: Vec3): Vec3
  {
    Vec3(a.y * b.z - a.z * b.y,
         a.z * b.x - a.x * b.z,
         a.x * b.y - a.y * b.x)
  }

  /** The cross product is perpendicular to both operands, and so is any multiple of it. */
  lemma CrossPerpendicular(a: Vec3, b: Vec3, k: real)
    ensures Dot(Scale(Cross(a, b), k), a) == 0.0 && Dot(Scale(Cross(a, b), k), b) == 0.0
  {
  }

  /**
    What the camera relies on from `normalize`, stated without square roots:
    scaling the input by a positive factor does not change the result, and a
    vector of unit length is returned as it is.
   */
  ghost predicate IdealNormalize(normalize: Vec3 -> Vec3)
  {
    && (forall v: Vec3, k: real :: k > 0.0 ==> normalize(Scale(v, k)) == normalize(v))
    && (forall v: Vec3 :: Dot(v, v) == 1.0 ==> normalize(v) == v)
  }

  /** A 3x3 matrix, by rows: the linear block of a homogeneous rotation. */
  datatype Mat3 = Mat3(r0: Vec3, r1: Vec3, r2: Vec3)

  const Identity: Mat3 := Mat3(Vec3(1.0, 0.0, 0.0), Vec3(0.0, 1.0, 0.0), Vec3(0.0, 0.0, 1.0))

  function Col0(m: Mat3): Vec3 { Vec3(m.r0.x, m.r1.x, m.r2.x) }
  function Col1(m: Mat3): Vec3 { Vec3(m.r0.y, m.r1.y, m.r2.y) }
  function Col2(m: Mat3): Vec3 { Vec3(m.r0.z, m.r1.z, m.r2.z) }

  /** `m.transform_vector(&v)` for a matrix whose last homogeneous row is (0, 0, 0, 1). */
  function Transform(m: Mat3, v: Vec3): (r: Vec3)
    ensures m == Identity ==> r == v
  {
    Vec3(Dot(m.r0, v), Dot(m.r1, v), Dot(m.r2, v))
  }

  /** `a * b` */
  function Mul(a: Mat3, b: Mat3): (r: Mat3)
    ensures a == Identity ==> r == b
    ensures b == Identity ==> r == a
  {
    Mat3(Vec3(Dot(a.r0, Col0(b)), Dot(a.r0, Col1(b)), Dot(a.r0, Col2(b))),
         Vec3(Dot(a.r1, Col0(b)), Dot(a.r1, Col1(b)), Dot(a.r1, Col2(b))),
         Vec3(Dot(a.r2, Col0(b)), Dot(a.r2, Col1(b)), Dot(a.r2, Col2(b))))
  }

  /** Applying a product of matrices is applying its factors right to left. */
  lemma TransformMul(a: Mat3, b: Mat3, v: Vec3)
    ensures Transform(Mul(a, b), v) == Transform(a, Transform(b, v))
  {
  }

}
