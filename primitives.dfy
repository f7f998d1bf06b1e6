/**
 * The vector, matrix and quaternion primitives that a rigid transform is
 * built from, modelled minimally over the reals. Only the operations the
 * transform uses are given: component construction, addition, scaling and
 * negation of vectors; a row-major 3x3 matrix with matrix-vector and
 * matrix-matrix products; quaternion identity, Hamilton product and the
 * conversion of a quaternion to its rotation matrix.
 */
module Primitives {

  /** A 3D vector (Vector3: x, y, z). */
  datatype Vector3 = Vector3(x: real, y: real, z: real)
  {
    /** Component i: 0 is x, 1 is y, 2 is z. */
    function At(i: nat): real
      requires i < 3
    {
      if i == 0 then x else if i == 1 then y else z
    }
  }

  /** The zero vector, what `new Vector3()` builds. */
  function Zero(): (v: Vector3)
    ensures forall i :: 0 <= i < 3 ==> v.At(i) == 0.0
  {
    Vector3(0.0, 0.0, 0.0)
  }

  function Add(a: Vector3, b: Vector3): (r: Vector3)
    ensures forall i :: 0 <= i < 3 ==> r.At(i) == a.At(i) + b.At(i)
  {
    Vector3(a.x + b.x, a.y + b.y, a.z + b.z)
  }

  function Scale(a: Vector3, k: real): (r: Vector3)
    ensures forall i :: 0 <= i < 3 ==> r.At(i) == k * a.At(i)
  {
    Vector3(k * a.x, k * a.y, k * a.z)
  }

  /** Vector3.invert: every component negated. */
  function Negate(a: Vector3): (r: Vector3)
    ensures Add(a, r) == Zero()
  {
    Vector3(-a.x, -a.y, -a.z)
  }

  /**
   * A 3x3 matrix, row-major: `mRC` is the entry in row R and column C,
   * written `m[R][C]` by the callers. The constructor takes its nine
   * entries row by row, like `new Matrix3x3(a00, a01, ..., a22)`.
   */
  datatype Matrix3x3 = Matrix3x3(
    m00: real, m01: real, m02: real,
    m10: real, m11: real, m12: real,
    m20: real, m21: real, m22: real)
  {
    /** The entry `m[r][c]`. */
    function At(r: nat, c: nat): real
      requires r < 3 && c < 3
    {
      if r == 0 then (if c == 0 then m00 else if c == 1 then m01 else m02)
      else if r == 1 then (if c == 0 then m10 else if c == 1 then m11 else m12)
      else (if c == 0 then m20 else if c == 1 then m21 else m22)
    }

    /** Row r as a vector. */
    function Row(r: nat): (v: Vector3)
      requires r < 3
      ensures forall c :: 0 <= c < 3 ==> v.At(c) == At(r, c)
    {
      Vector3(At(r, 0), At(r, 1), At(r, 2))
    }
  }

  function Dot(a: Vector3, b: Vector3): real
  {
    a.x * b.x + a.y * b.y + a.z * b.z
  }

  /** The 3x3 identity matrix. */
  function IdentityMatrix(): (m: Matrix3x3)
    ensures forall r, c :: 0 <= r < 3 && 0 <= c < 3 ==> m.At(r, c) == if r == c then 1.0 else 0.0
  {
    Matrix3x3(1.0, 0.0, 0.0,
              0.0, 1.0, 0.0,
              0.0, 0.0, 1.0)
  }

  /** Matrix3x3.operatorMultiply(matrix, vector): row r of the result is row r of m dotted with v. */
  function MulVec(m: Matrix3x3, v: Vector3): (r: Vector3)
    ensures forall i :: 0 <= i < 3 ==> r.At(i) == Dot(m.Row(i), v)
  {
    Vector3(m.m00 * v.x + m.m01 * v.y + m.m02 * v.z,
            m.m10 * v.x + m.m11 * v.y + m.m12 * v.z,
            m.m20 * v.x + m.m21 * v.y + m.m22 * v.z)
  }

  /** Matrix product a * b. */
  function MatMul(a: Matrix3x3, b: Matrix3x3): Matrix3x3
  {
    Matrix3x3(
      a.m00 * b.m00 + a.m01 * b.m10 + a.m02 * b.m20,
      a.m00 * b.m01 + a.m01 * b.m11 + a.m02 * b.m21,
      a.m00 * b.m02 + a.m01 * b.m12 + a.m02 * b.m22,
      a.m10 * b.m00 + a.m11 * b.m10 + a.m12 * b.m20,
      a.m10 * b.m01 + a.m11 * b.m11 + a.m12 * b.m21,
      a.m10 * b.m02 + a.m11 * b.m12 + a.m12 * b.m22,
      a.m20 * b.m00 + a.m21 * b.m10 + a.m22 * b.m20,
      a.m20 * b.m01 + a.m21 * b.m11 + a.m22 * b.m21,
      a.m20 * b.m02 + a.m21 * b.m12 + a.m22 * b.m22)
  }

  /** The identity matrix leaves every vector unchanged. */
  lemma MulVecIdentity(v: Vector3)
    ensures MulVec(IdentityMatrix(), v) == v
  {
  }

  /** Every matrix maps the zero vector to itself. */
  lemma MulVecZero(m: Matrix3x3)
    ensures MulVec(m, Zero()) == Zero()
  {
  }

  /** Applying a product of matrices is applying its factors one after the other. */
  lemma MulVecMatMul(a: Matrix3x3, b: Matrix3x3, v: Vector3)
    ensures MulVec(MatMul(a, b), v) == MulVec(a, MulVec(b, v))
  {
    var ab, bv := MatMul(a, b), MulVec(b, v);
    RowTimesProduct(a.m00, a.m01, a.m02, b, v);
    assert MulVec(ab, v).x == MulVec(a, bv).x;
    RowTimesProduct(a.m10, a.m11, a.m12, b, v);
    assert MulVec(ab, v).y == MulVec(a, bv).y;
    RowTimesProduct(a.m20, a.m21, a.m22, b, v);
    assert MulVec(ab, v).z == MulVec(a, bv).z;
  }

  /** One row (r0, r1, r2) of a product: (row * b) . v == row . (b * v). */
  lemma RowTimesProduct(r0: real, r1: real, r2: real, b: Matrix3x3, v: Vector3)
    ensures Dot(Vector3(r0 * b.m00 + r1 * b.m10 + r2 * b.m20,
                        r0 * b.m01 + r1 * b.m11 + r2 * b.m21,
                        r0 * b.m02 + r1 * b.m12 + r2 * b.m22), v)
         == Dot(Vector3(r0, r1, r2), MulVec(b, v))
  {
  }

  /** A matrix distributes over vector addition. */
  lemma MulVecAdd(m: Matrix3x3, a: Vector3, b: Vector3)
    ensures MulVec(m, Add(a, b)) == Add(MulVec(m, a), MulVec(m, b))
  {
    var lhs, rhs := MulVec(m, Add(a, b)), Add(MulVec(m, a), MulVec(m, b));
    DotAdd(m.Row(0), a, b);
    DotAdd(m.Row(1), a, b);
    DotAdd(m.Row(2), a, b);
    assert lhs.At(0) == rhs.At(0);
    assert lhs.At(1) == rhs.At(1);
    assert lhs.At(2) == rhs.At(2);
  }

  /** The dot product is additive in its second argument. */
  lemma DotAdd(r: Vector3, a: Vector3, b: Vector3)
    ensures Dot(r, Add(a, b)) == Dot(r, a) + Dot(r, b)
  {
  }

  /** A matrix commutes with negation of its argument. */
  lemma MulVecNegate(m: Matrix3x3, v: Vector3)
    ensures MulVec(m, Negate(v)) == Negate(MulVec(m, v))
  {
  }

  /** A quaternion x i + y j + z k + w. */
  datatype Quaternion = Quaternion(x: real, y: real, z: real, w: real)

  /** `new Quaternion().identity()`: no rotation. */
  function QuaternionIdentity(): Quaternion
  {
    Quaternion(0.0, 0.0, 0.0, 1.0)
  }

  function LengthSquare(q: Quaternion): real
  {
    q.x * q.x + q.y * q.y + q.z * q.z + q.w * q.w
  }

  /** The Hamilton product p * q (Quaternion.multiply). */
  function Multiply(p: Quaternion, q: Quaternion): Quaternion
  {
    Quaternion(p.w * q.x + q.w * p.x + p.y * q.z - p.z * q.y,
               p.w * q.y + q.w * p.y + p.z * q.x - p.x * q.z,
               p.w * q.z + q.w * p.z + p.x * q.y - p.y * q.x,
               p.w * q.w - p.x * q.x - p.y * q.y - p.z * q.z)
  }

  /** The identity quaternion is a two-sided unit of the Hamilton product. */
  lemma MultiplyIdentity(q: Quaternion)
    ensures Multiply(q, QuaternionIdentity()) == q
    ensures Multiply(QuaternionIdentity(), q) == q
  {
  }

  /**
   * Quaternion.getMatrix: the rotation matrix of q. The quaternion is
   * normalised on the fly by s = 2 / |q|^2; the zero quaternion, which has
   * no rotation, gives s = 0 and so the identity matrix.
   */
  function GetMatrix(q: Quaternion): Matrix3x3
  {
    var n := LengthSquare(q);
    var s := if n > 0.0 then 2.0 / n else 0.0;
    var xs, ys, zs := q.x * s, q.y * s, q.z * s;
    var wxs, wys, wzs := q.w * xs, q.w * ys, q.w * zs;
    var xxs, xys, xzs := q.x * xs, q.x * ys, q.x * zs;
    var yys, yzs, zzs := q.y * ys, q.y * zs, q.z * zs;
    Matrix3x3(1.0 - yys - zzs, xys - wzs, xzs + wys,
              xys + wzs, 1.0 - xxs - zzs, yzs - wxs,
              xzs - wys, yzs + wxs, 1.0 - xxs - yys)
  }

  /** The identity quaternion converts to the identity matrix. */
  lemma GetMatrixIdentity()
    ensures GetMatrix(QuaternionIdentity()) == IdentityMatrix()
  {
  }
}
