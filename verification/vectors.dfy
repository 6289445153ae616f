/** Three-component vectors and 3x3 matrices over the reals, standing for
    the numpy arrays of the source. */
module Vectors {

  datatype Vec3 = Vec3(x: real, y: real, z: real)

  const Zero: Vec3 := Vec3(0.0, 0.0, 0.0)

  function Add(a: Vec3, b: Vec3): Vec3 { Vec3(a.x + b.x, a.y + b.y, a.z + b.z) }

  function Sub(a: Vec3, b: Vec3): Vec3 { Vec3(a.x - b.x, a.y - b.y, a.z - b.z) }

  function Scale(k: real, a: Vec3): Vec3 { Vec3(k * a.x, k * a.y, k * a.z) }

  /** Element-wise division by a non-zero scalar (`v / d` in numpy). */
  function Div(a: Vec3, d: real): Vec3
    requires d != 0.0
  {
    Vec3(a.x / d, a.y / d, a.z / d)
  }

  function Dot(a: Vec3, b: Vec3): real { a.x * b.x + a.y * b.y + a.z * b.z }

  /** A matrix given by its three rows. */
  datatype Mat3 = Mat3(r0: Vec3, r1: Vec3, r2: Vec3)

  const Identity: Mat3 := Mat3(Vec3(1.0, 0.0, 0.0), Vec3(0.0, 1.0, 0.0), Vec3(0.0, 0.0, 1.0))

  function Transpose(m: Mat3): Mat3
  {
    Mat3(Vec3(m.r0.x, m.r1.x, m.r2.x),
         Vec3(m.r0.y, m.r1.y, m.r2.y),
         Vec3(m.r0.z, m.r1.z, m.r2.z))
  }

  /** `np.dot(m, v)`. */
  function MatVec(m: Mat3, v: Vec3): Vec3 { Vec3(Dot(m.r0, v), Dot(m.r1, v), Dot(m.r2, v)) }

  /** `np.dot(a, b)`: row i of the product is row i of `a` times `b`. */
  function MatMul(a: Mat3, b: Mat3): Mat3
  {
    var t := Transpose(b);
    Mat3(MatVec(t, a.r0), MatVec(t, a.r1), MatVec(t, a.r2))
  }

  /** A rotation matrix: its transpose is its inverse. */
  predicate IsOrthogonal(m: Mat3) { MatMul(Transpose(m), m) == Identity }

  lemma MatMulIdentity(m: Mat3)
    ensures MatMul(Identity, m) == m && MatMul(m, Identity) == m
  {
  }

  lemma TransposeOfProduct(a: Mat3, b: Mat3)
    ensures Transpose(MatMul(a, b)) == MatMul(Transpose(b), Transpose(a))
  {
  }

  /** Summing a 3x3 grid of products by columns or by rows. */
  lemma SumOrder(u: Vec3, b: Mat3, w: Vec3)
    ensures w.x * Dot(u, Vec3(b.r0.x, b.r1.x, b.r2.x)) + w.y * Dot(u, Vec3(b.r0.y, b.r1.y, b.r2.y)) + w.z * Dot(u, Vec3(b.r0.z, b.r1.z, b.r2.z))
         == u.x * Dot(b.r0, w) + u.y * Dot(b.r1, w) + u.z * Dot(b.r2, w)
  {
  }

  /** One row of the associativity law. */
  lemma RowAssociative(u: Vec3, b: Mat3, c: Mat3)
    ensures MatVec(Transpose(c), MatVec(Transpose(b), u)) == MatVec(Transpose(MatMul(b, c)), u)
  {
    var tc := Transpose(c);
    SumOrder(u, b, tc.r0);
    SumOrder(u, b, tc.r1);
    SumOrder(u, b, tc.r2);
  }

  lemma MatMulAssociative(a: Mat3, b: Mat3, c: Mat3)
    ensures MatMul(MatMul(a, b), c) == MatMul(a, MatMul(b, c))
  {
    RowAssociative(a.r0, b, c);
    RowAssociative(a.r1, b, c);
    RowAssociative(a.r2, b, c);
  }

  /** The product of two rotations is a rotation. */
  lemma OrthogonalProduct(a: Mat3, b: Mat3)
    requires IsOrthogonal(a) && IsOrthogonal(b)
    ensures IsOrthogonal(MatMul(a, b))
  {
    var ta, tb := Transpose(a), Transpose(b);
    calc {
      MatMul(Transpose(MatMul(a, b)), MatMul(a, b));
      { TransposeOfProduct(a, b); }
      MatMul(MatMul(tb, ta), MatMul(a, b));
      { MatMulAssociative(tb, ta, MatMul(a, b)); }
      MatMul(tb, MatMul(ta, MatMul(a, b)));
      { MatMulAssociative(ta, a, b); }
      MatMul(tb, MatMul(MatMul(ta, a), b));
      MatMul(tb, MatMul(Identity, b));
      { MatMulIdentity(b); }
      MatMul(tb, b);
      Identity;
    }
  }
}
