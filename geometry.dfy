/** Values that may be missing: the model's stand-in for a NaN coordinate. */
module Optional {
  datatype Option<+T> = None | Some(value: T)
}

/** Vectors, 3x3 matrices, pixels and the numeric conversions the viewer relies on. */
module Geometry {

  newtype byte = x: int | 0 <= x < 256

  /** One pixel as OpenCV stores it: blue, green, red. */
  datatype Bgr = Bgr(b: byte, g: byte, r: byte)

  datatype Vec2 = Vec2(x: real, y: real)
  datatype Vec3 = Vec3(x: real, y: real, z: real)

  /** The size of the output image the viewer draws into. */
  datatype Screen = Screen(width: int, height: int)
  {
    predicate Valid() { 0 < width && 0 < height }
  }

  /** A 3x3 matrix, row by row. */
  datatype Mat3 = Mat3(r0: Vec3, r1: Vec3, r2: Vec3)

  const Zero: Vec3 := Vec3(0.0, 0.0, 0.0)
  const Identity: Mat3 := Mat3(Vec3(1.0, 0.0, 0.0), Vec3(0.0, 1.0, 0.0), Vec3(0.0, 0.0, 1.0))

  function Add(a: Vec3, b: Vec3): Vec3 { Vec3(a.x + b.x, a.y + b.y, a.z + b.z) }
  function Sub(a: Vec3, b: Vec3): Vec3 { Vec3(a.x - b.x, a.y - b.y, a.z - b.z) }
  function Times(k: real, a: Vec3): Vec3 { Vec3(k * a.x, k * a.y, k * a.z) }
  function Dot(a: Vec3, b: Vec3): real { a.x * b.x + a.y * b.y + a.z * b.z }
  function NormSq(a: Vec3): real { Dot(a, a) }

  /** Row vector times matrix: numpy's dot(v, m) for a 1-D v. */
  function VecMat(v: Vec3, m: Mat3): Vec3 {
    Add(Add(Times(v.x, m.r0), Times(v.y, m.r1)), Times(v.z, m.r2))
  }

  /** Matrix times column vector: numpy's dot(m, v) for a 1-D v. */
  function MatVec(m: Mat3, v: Vec3): Vec3 { Vec3(Dot(m.r0, v), Dot(m.r1, v), Dot(m.r2, v)) }

  /** Matrix product: row i of a*b is row i of a times b. */
  function MatMul(a: Mat3, b: Mat3): Mat3 { Mat3(VecMat(a.r0, b), VecMat(a.r1, b), VecMat(a.r2, b)) }

  /** The rows are unit vectors and pairwise orthogonal. */
  predicate Orthonormal(m: Mat3) {
    && Dot(m.r0, m.r0) == 1.0 && Dot(m.r1, m.r1) == 1.0 && Dot(m.r2, m.r2) == 1.0
    && Dot(m.r0, m.r1) == 0.0 && Dot(m.r0, m.r2) == 0.0 && Dot(m.r1, m.r2) == 0.0
  }

  lemma VecMatZero(m: Mat3)
    ensures VecMat(Zero, m) == Zero
  {
  }

  lemma MatMulIdentity()
    ensures MatMul(Identity, Identity) == Identity
  {
    VecMatIdentity(Identity.r0);
    VecMatIdentity(Identity.r1);
    VecMatIdentity(Identity.r2);
  }

  lemma VecMatIdentity(v: Vec3)
    ensures VecMat(v, Identity) == v
  {
  }

  /** Turning about p by the identity and then moving by -t only moves by -t. */
  lemma TurnByIdentity(v: Vec3, p: Vec3, t: Vec3, m: Mat3)
    requires m == Identity
    ensures Sub(Add(VecMat(Sub(v, p), m), p), t) == Sub(v, t)
  {
    VecMatIdentity(Sub(v, p));
  }

  /** The squared length of a sum of three vectors, expanded. */
  lemma NormSqSum3(a: Vec3, b: Vec3, c: Vec3)
    ensures NormSq(Add(Add(a, b), c))
         == NormSq(a) + NormSq(b) + NormSq(c) + 2.0 * Dot(a, b) + 2.0 * Dot(a, c) + 2.0 * Dot(b, c)
  {
  }

  /** A unit vector scaled by k has squared length k * k. */
  lemma ScaledUnit(k: real, r: Vec3)
    requires Dot(r, r) == 1.0
    ensures NormSq(Times(k, r)) == k * k
  {
    assert NormSq(Times(k, r)) == k * k * Dot(r, r);
  }

  /** Scaling keeps orthogonal vectors orthogonal. */
  lemma ScaledOrthogonal(j: real, r: Vec3, k: real, s: Vec3)
    requires Dot(r, s) == 0.0
    ensures Dot(Times(j, r), Times(k, s)) == 0.0
  {
    assert Dot(Times(j, r), Times(k, s)) == j * k * Dot(r, s);
  }

  /** An orthonormal matrix keeps lengths: |v . m| == |v|. */
  lemma VecMatKeepsNorm(v: Vec3, m: Mat3)
    requires Orthonormal(m)
    ensures NormSq(VecMat(v, m)) == NormSq(v)
  {
    var a, b, c := Times(v.x, m.r0), Times(v.y, m.r1), Times(v.z, m.r2);
    NormSqSum3(a, b, c);
    ScaledUnit(v.x, m.r0);
    ScaledUnit(v.y, m.r1);
    ScaledUnit(v.z, m.r2);
    ScaledOrthogonal(v.x, m.r0, v.y, m.r1);
    ScaledOrthogonal(v.x, m.r0, v.z, m.r2);
    ScaledOrthogonal(v.y, m.r1, v.z, m.r2);
  }

  /** A float-to-int cast (astype(int)): truncation toward zero. */
  function Trunc(x: real): (r: int)
    ensures 0.0 <= x ==> r as real <= x < r as real + 1.0
    ensures x < 0.0 ==> r as real - 1.0 < x <= r as real
  {
    if x >= 0.0 then x.Floor else -((-x).Floor)
  }

  /** numpy.clip of one integer into [lo, hi]. */
  function Clamp(k: int, lo: int, hi: int): (r: int)
    requires lo <= hi
    ensures lo <= r <= hi
    ensures lo <= k <= hi ==> r == k
    ensures k < lo ==> r == lo
    ensures hi < k ==> r == hi
  {
    if k < lo then lo else if hi < k then hi else k
  }

  /** b ** n for a natural exponent. */
  function Pow(b: real, n: nat): (r: real)
    ensures 0.0 < b ==> 0.0 < r
  {
    if n == 0 then 1.0 else b * Pow(b, n - 1)
  }
}
