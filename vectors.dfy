/** Exact 3-vector and 3x3 matrix algebra over the reals, standing for the
    numpy arrays of the stress script. Coordinates are East, North, Up. */
module Vectors {

  datatype Vec3 = Vec3(x: real, y: real, z: real)

  const Zero := Vec3(0.0, 0.0, 0.0)

  function Dot(a: Vec3, b: Vec3): real {
    a.x * b.x + a.y * b.y + a.z * b.z
  }

  /** numpy's cross(a, b) */
  function Cross(a: Vec3, b: Vec3): Vec3 {
    Vec3(a.y * b.z - a.z * b.y, a.z * b.x - a.x * b.z, a.x * b.y - a.y * b.x)
  }

  function Add(a: Vec3, b: Vec3): Vec3 {
    Vec3(a.x + b.x, a.y + b.y, a.z + b.z)
  }

  function Sub(a: Vec3, b: Vec3): Vec3 {
    Vec3(a.x - b.x, a.y - b.y, a.z - b.z)
  }

  function Scale(k: real, v: Vec3): Vec3 {
    Vec3(k * v.x, k * v.y, k * v.z)
  }

  /** Element-wise division by a scalar, numpy's `v / k` */
  function Div(v: Vec3, k: real): Vec3
    requires k != 0.0
  {
    Vec3(v.x / k, v.y / k, v.z / k)
  }

  function Neg(v: Vec3): Vec3 {
    Vec3(-v.x, -v.y, -v.z)
  }

  /** A 3x3 matrix stored by rows. */
  datatype Mat3 = Mat3(r0: Vec3, r1: Vec3, r2: Vec3)

  function Comp(v: Vec3, i: nat): real
    requires i < 3
  {
    if i == 0 then v.x else if i == 1 then v.y else v.z
  }

  function Col(a: Mat3, j: nat): Vec3
    requires j < 3
  {
    Vec3(Comp(a.r0, j), Comp(a.r1, j), Comp(a.r2, j))
  }

  /** Matrix times column vector, numpy's `a @ v` */
  function MatVec(a: Mat3, v: Vec3): Vec3 {
    Vec3(Dot(a.r0, v), Dot(a.r1, v), Dot(a.r2, v))
  }

  /** Matrix product, numpy's `a @ b` */
  function MatMul(a: Mat3, b: Mat3): Mat3 {
    Mat3(
      Vec3(Dot(a.r0, Col(b, 0)), Dot(a.r0, Col(b, 1)), Dot(a.r0, Col(b, 2))),
      Vec3(Dot(a.r1, Col(b, 0)), Dot(a.r1, Col(b, 1)), Dot(a.r1, Col(b, 2))),
      Vec3(Dot(a.r2, Col(b, 0)), Dot(a.r2, Col(b, 1)), Dot(a.r2, Col(b, 2))))
  }

  function Transpose(a: Mat3): Mat3 {
    Mat3(Col(a, 0), Col(a, 1), Col(a, 2))
  }

  /** numpy's diag([a, b, c]) */
  function Diag(a: real, b: real, c: real): Mat3 {
    Mat3(Vec3(a, 0.0, 0.0), Vec3(0.0, b, 0.0), Vec3(0.0, 0.0, c))
  }

  /** numpy's column_stack([c0, c1, c2]): the vectors become the columns. */
  function ColumnStack(c0: Vec3, c1: Vec3, c2: Vec3): Mat3 {
    Mat3(Vec3(c0.x, c1.x, c2.x), Vec3(c0.y, c1.y, c2.y), Vec3(c0.z, c1.z, c2.z))
  }

  function MatAdd(a: Mat3, b: Mat3): Mat3 {
    Mat3(Add(a.r0, b.r0), Add(a.r1, b.r1), Add(a.r2, b.r2))
  }

  function MatScale(k: real, a: Mat3): Mat3 {
    Mat3(Scale(k, a.r0), Scale(k, a.r1), Scale(k, a.r2))
  }

  /** The outer product a b^T */
  function Outer(a: Vec3, b: Vec3): Mat3 {
    Mat3(Scale(a.x, b), Scale(a.y, b), Scale(a.z, b))
  }

  function Trace(a: Mat3): real {
    a.r0.x + a.r1.y + a.r2.z
  }

  predicate IsSymmetric(a: Mat3) {
    a.r0.y == a.r1.x && a.r0.z == a.r2.x && a.r1.z == a.r2.y
  }

  /** The cross product is orthogonal to both of its factors. */
  lemma CrossIsOrthogonal(a: Vec3, b: Vec3)
    ensures Dot(Cross(a, b), a) == 0.0
    ensures Dot(Cross(a, b), b) == 0.0
  {
  }

  /** Lagrange's identity: |a|^2 |b|^2 - (a.b)^2 = |a x b|^2. */
  lemma Lagrange(a: Vec3, b: Vec3)
    ensures Dot(a, a) * Dot(b, b) - Dot(a, b) * Dot(a, b) == Dot(Cross(a, b), Cross(a, b))
  {
  }

  lemma DotNeg(a: Vec3, b: Vec3)
    ensures Dot(Neg(a), b) == -Dot(a, b)
  {
    assert (-a.x) * b.x == -(a.x * b.x);
    assert (-a.y) * b.y == -(a.y * b.y);
    assert (-a.z) * b.z == -(a.z * b.z);
  }

  lemma DotScale(k: real, b: Vec3, v: Vec3)
    ensures Dot(Scale(k, b), v) == k * Dot(b, v)
  {
  }

  lemma DotAdd(p: Vec3, q: Vec3, v: Vec3)
    ensures Dot(Add(p, q), v) == Dot(p, v) + Dot(q, v)
  {
  }

  lemma MatVecAdd(a: Mat3, b: Mat3, v: Vec3)
    ensures MatVec(MatAdd(a, b), v) == Add(MatVec(a, v), MatVec(b, v))
  {
    DotAdd(a.r0, b.r0, v);
    DotAdd(a.r1, b.r1, v);
    DotAdd(a.r2, b.r2, v);
  }

  /** A product is known once each of its rows is. */
  lemma MatMulByRows(a: Mat3, b: Mat3, c: Mat3)
    requires Vec3(Dot(a.r0, Col(b, 0)), Dot(a.r0, Col(b, 1)), Dot(a.r0, Col(b, 2))) == c.r0
    requires Vec3(Dot(a.r1, Col(b, 0)), Dot(a.r1, Col(b, 1)), Dot(a.r1, Col(b, 2))) == c.r1
    requires Vec3(Dot(a.r2, Col(b, 0)), Dot(a.r2, Col(b, 1)), Dot(a.r2, Col(b, 2))) == c.r2
    ensures MatMul(a, b) == c
  {
  }

  lemma MatVecScale(k: real, a: Mat3, v: Vec3)
    ensures MatVec(MatScale(k, a), v) == Scale(k, MatVec(a, v))
  {
    DotScale(k, a.r0, v);
    DotScale(k, a.r1, v);
    DotScale(k, a.r2, v);
    ScaledComponents(k, Dot(a.r0, v), Dot(a.r1, v), Dot(a.r2, v),
      Dot(Scale(k, a.r0), v), Dot(Scale(k, a.r1), v), Dot(Scale(k, a.r2), v));
  }

  lemma ScaledComponents(k: real, x: real, y: real, z: real, kx: real, ky: real, kz: real)
    requires kx == k * x && ky == k * y && kz == k * z
    ensures Vec3(kx, ky, kz) == Scale(k, Vec3(x, y, z))
  {
  }

  /** (a b^T) v = (b.v) a */
  lemma OuterAction(a: Vec3, b: Vec3, v: Vec3)
    ensures MatVec(Outer(a, b), v) == Scale(Dot(b, v), a)
  {
    DotScale(a.x, b, v);
    DotScale(a.y, b, v);
    DotScale(a.z, b, v);
  }

  /** The cross product of two orthogonal unit vectors is a unit vector. */
  lemma UnitCross(a: Vec3, b: Vec3)
    requires Dot(a, a) == 1.0 && Dot(b, b) == 1.0 && Dot(a, b) == 0.0
    ensures Dot(Cross(a, b), Cross(a, b)) == 1.0
  {
    Lagrange(a, b);
    var d := Dot(a, b);
    assert d * d == 0.0;
    var aa := Dot(a, a);
    assert aa * Dot(b, b) == 1.0 * 1.0;
  }

  lemma SquareNonNegative(v: Vec3)
    ensures Dot(v, v) >= 0.0
  {
  }

  lemma SquareAtMostOne(d: real)
    requires d * d <= 1.0
    ensures -1.0 <= d <= 1.0
  {
  }

  /** Cauchy-Schwarz for unit vectors: their dot product lies in [-1, 1]. */
  lemma UnitDotBounded(a: Vec3, b: Vec3)
    requires Dot(a, a) == 1.0 && Dot(b, b) == 1.0
    ensures -1.0 <= Dot(a, b) <= 1.0
  {
    Lagrange(a, b);
    SquareNonNegative(Cross(a, b));
    SquareAtMostOne(Dot(a, b));
  }
}
