/**
 * A rigid transform: a position and an orientation quaternion, read as
 * "rotate, then translate". The value part (composition, application to a
 * point, inverse, interpolation, identity) is a datatype with functions; the
 * 16-entry column-major ("OpenGL") matrix layout is an encoder and a decoder
 * over sequences; the class `Transform` holds the two fields that the
 * setters and the array writer update in place.
 *
 * The three quaternion primitives whose definitions are not part of this
 * model are parameters: `fromMatrix` (the quaternion of a rotation matrix),
 * `inverse` (the inverse quaternion) and `slerp` (spherical linear
 * interpolation).
 */
module Transforms {
  import opened Primitives

  /** The value held by a transform: where it puts the origin and how it rotates. */
  datatype RigidTransform = RigidTransform(position: Vector3, orientation: Quaternion)

  /** `identity()`: zero position and the identity quaternion. */
  function Identity(): RigidTransform
  {
    RigidTransform(Zero(), QuaternionIdentity())
  }

  /** `operatorMultiply(Vector3)`: rotate the point, then add the position. */
  function Apply(t: RigidTransform, v: Vector3): Vector3
  {
    Add(MulVec(GetMatrix(t.orientation), v), t.position)
  }

  /**
   * `operatorMultiply(Transform)`: t1 * t2, which applies t2 first and then
   * t1; the position is t1's plus t1's rotation of t2's, the orientation is
   * the Hamilton product of the two.
   */
  function Compose(t1: RigidTransform, t2: RigidTransform): RigidTransform
  {
    RigidTransform(Add(t1.position, MulVec(GetMatrix(t1.orientation), t2.position)),
                   Multiply(t1.orientation, t2.orientation))
  }

  /** `getInverse`: the inverse quaternion, and its rotation of the negated position. */
  function Inverse(t: RigidTransform, inverse: Quaternion -> Quaternion): RigidTransform
  {
    var invQuaternion := inverse(t.orientation);
    RigidTransform(MulVec(GetMatrix(invQuaternion), Negate(t.position)), invQuaternion)
  }

  /** The linear blend (1 - f) * a + f * b. */
  function Lerp(a: Vector3, b: Vector3, f: real): Vector3
  {
    Add(Scale(a, 1.0 - f), Scale(b, f))
  }

  /**
   * `interpolateTransforms`: the position is blended linearly, the
   * orientation by `slerp`; the factor is not checked against [0, 1].
   */
  function Interpolate(oldT: RigidTransform, newT: RigidTransform, f: real,
                       slerp: (Quaternion, Quaternion, real) -> Quaternion): RigidTransform
  {
    RigidTransform(Lerp(oldT.position, newT.position, f),
                   slerp(oldT.orientation, newT.orientation, f))
  }

  // ---------------------------------------------------------------------
  // The column-major 4x4 layout
  // ---------------------------------------------------------------------

  /**
   * Entry (row, col) of the 4x4 affine matrix whose upper-left 3x3 block is
   * m, whose last column holds p, and whose last row is (0, 0, 0, 1).
   */
  function AffineEntry(m: Matrix3x3, p: Vector3, row: nat, col: nat): real
    requires row < 4 && col < 4
  {
    if row == 3 then (if col == 3 then 1.0 else 0.0)
    else if col == 3 then p.At(row)
    else m.At(row, col)
  }

  /** The affine matrix of (m, p) laid out column by column: index 4 * col + row. */
  function ColumnMajor(m: Matrix3x3, p: Vector3): (s: seq<real>)
    ensures |s| == 16
  {
    seq(16, i requires 0 <= i < 16 => AffineEntry(m, p, i % 4, i / 4))
  }

  /** ColumnMajor slot by slot: the three rotation columns, then the translation column. */
  lemma ColumnMajorSlots(m: Matrix3x3, p: Vector3)
    ensures ColumnMajor(m, p) == [m.m00, m.m10, m.m20, 0.0,
                                  m.m01, m.m11, m.m21, 0.0,
                                  m.m02, m.m12, m.m22, 0.0,
                                  p.x, p.y, p.z, 1.0]
  {
  }

  /** The 16 entries `getOpenGLMatrix` writes for t. */
  function ToOpenGL(t: RigidTransform): (s: seq<real>)
    ensures |s| == 16
  {
    ColumnMajor(GetMatrix(t.orientation), t.position)
  }

  /**
   * The rotation block `setFromOpenGL` reads: row r of the matrix is
   * (s[r], s[4 + r], s[8 + r]).
   */
  function DecodeRotation(s: seq<real>): (m: Matrix3x3)
    requires |s| >= 11
    ensures forall r, c :: 0 <= r < 3 && 0 <= c < 3 ==> m.At(r, c) == s[4 * c + r]
  {
    Matrix3x3(s[0], s[4], s[8],
              s[1], s[5], s[9],
              s[2], s[6], s[10])
  }

  /** The translation `setFromOpenGL` reads: entries 12, 13 and 14. */
  function DecodePosition(s: seq<real>): (p: Vector3)
    requires |s| >= 15
    ensures forall i :: 0 <= i < 3 ==> p.At(i) == s[12 + i]
  {
    Vector3(s[12], s[13], s[14])
  }

  /** The value `setFromOpenGL` gives a transform. */
  function FromOpenGL(s: seq<real>, fromMatrix: Matrix3x3 -> Quaternion): RigidTransform
    requires |s| >= 15
  {
    RigidTransform(DecodePosition(s), fromMatrix(DecodeRotation(s)))
  }

  /** The last row of a 4x4 affine matrix is (0, 0, 0, 1): entries 3, 7, 11 and 15. */
  predicate IsAffineLayout(s: seq<real>)
    requires |s| == 16
  {
    s[3] == 0.0 && s[7] == 0.0 && s[11] == 0.0 && s[15] == 1.0
  }

  // ---------------------------------------------------------------------
  // The class
  // ---------------------------------------------------------------------

  class Transform {
    var position: Vector3
    var orientation: Quaternion

    /** The value currently held. */
    function Value(): RigidTransform
      reads this
    {
      RigidTransform(position, orientation)
    }

    /** `Transform()`: the identity transform. */
    constructor ()
      ensures Value() == Identity()
    {
      position := Zero();
      orientation := QuaternionIdentity();
    }

    /** `Transform(Vector3, Matrix3x3)`: the orientation is the quaternion of the matrix. */
    constructor FromMatrix(position: Vector3, orientation: Matrix3x3, fromMatrix: Matrix3x3 -> Quaternion)
      ensures Value() == RigidTransform(position, fromMatrix(orientation))
    {
      this.position := position;
      this.orientation := fromMatrix(orientation);
    }

    /** `Transform(Vector3, Quaternion)`: both fields copied. */
    constructor FromQuaternion(position: Vector3, orientation: Quaternion)
      ensures Value() == RigidTransform(position, orientation)
    {
      this.position := position;
      this.orientation := orientation;
    }

    /** The copy constructor. */
    constructor Copy(transform: Transform)
      ensures Value() == transform.Value()
    {
      position := transform.position;
      orientation := transform.orientation;
    }

    /** `setPosition`: replaces the position, keeps the orientation. */
    method SetPosition(position: Vector3)
      modifies this
      ensures Value() == RigidTransform(position, old(orientation))
    {
      this.position := position;
    }

    /** `setOrientation`: replaces the orientation, keeps the position. */
    method SetOrientation(orientation: Quaternion)
      modifies this
      ensures Value() == RigidTransform(old(position), orientation)
    {
      this.orientation := orientation;
    }

    /**
     * `operatorEqual`: takes over the other transform's value (a copy rather
     * than the shared references) and returns this transform.
     */
    method Assign(transform: Transform) returns (r: Transform)
      modifies this
      ensures r == this
      ensures Value() == old(transform.Value())
    {
      if transform != this {
        position := transform.position;
        orientation := transform.orientation;
      }
      r := this;
    }

    /** `setToIdentity`. */
    method SetToIdentity()
      modifies this
      ensures Value() == Identity()
    {
      position := Zero();
      orientation := QuaternionIdentity();
    }

    /**
     * `setFromOpenGL`: the rotation block goes through `fromMatrix`, the
     * translation is copied; entries 3, 7, 11 and 15 are not read.
     */
    method SetFromOpenGL(openglMatrix: array<real>, fromMatrix: Matrix3x3 -> Quaternion)
      requires openglMatrix.Length >= 15
      modifies this
      ensures Value() == FromOpenGL(openglMatrix[..], fromMatrix)
    {
      var matrix := Matrix3x3(openglMatrix[0], openglMatrix[4], openglMatrix[8],
                              openglMatrix[1], openglMatrix[5], openglMatrix[9],
                              openglMatrix[2], openglMatrix[6], openglMatrix[10]);
      orientation := fromMatrix(matrix);
      position := Vector3(openglMatrix[12], openglMatrix[13], openglMatrix[14]);
    }

    /**
     * `getOpenGLMatrix`: writes the column-major affine matrix of the
     * transform into entries 0 to 15; later entries and the transform
     * itself are left alone.
     */
    method GetOpenGLMatrix(openglMatrix: array<real>)
      requires openglMatrix.Length >= 16
      modifies openglMatrix
      ensures openglMatrix[..16] == ToOpenGL(Value())
      ensures openglMatrix[16..] == old(openglMatrix[16..])
      ensures Value() == old(Value())
    {
      var matrix := GetMatrix(orientation);
      openglMatrix[0] := matrix.m00;
      openglMatrix[1] := matrix.m10;
      openglMatrix[2] := matrix.m20;
      openglMatrix[3] := 0.0;
      openglMatrix[4] := matrix.m01;
      openglMatrix[5] := matrix.m11;
      openglMatrix[6] := matrix.m21;
      openglMatrix[7] := 0.0;
      openglMatrix[8] := matrix.m02;
      openglMatrix[9] := matrix.m12;
      openglMatrix[10] := matrix.m22;
      openglMatrix[11] := 0.0;
      openglMatrix[12] := position.x;
      openglMatrix[13] := position.y;
      openglMatrix[14] := position.z;
      openglMatrix[15] := 1.0;
      assert openglMatrix[..16] == [matrix.m00, matrix.m10, matrix.m20, 0.0,
                                    matrix.m01, matrix.m11, matrix.m21, 0.0,
                                    matrix.m02, matrix.m12, matrix.m22, 0.0,
                                    position.x, position.y, position.z, 1.0];
      ColumnMajorSlots(matrix, position);
    }

    /** `getInverse`: a new transform holding the inverse value. */
    method GetInverse(inverse: Quaternion -> Quaternion) returns (t: Transform)
      ensures fresh(t)
      ensures t.Value() == Inverse(Value(), inverse)
    {
      var invQuaternion := inverse(orientation);
      var invMatrix := GetMatrix(invQuaternion);
      t := new Transform.FromQuaternion(MulVec(invMatrix, Negate(position)), invQuaternion);
    }

    /** `operatorMultiply(Vector3)`: the image of a point; nothing changes. */
    method TransformPoint(v: Vector3) returns (r: Vector3)
      ensures r == Apply(Value(), v)
    {
      var matrix := GetMatrix(orientation);
      r := Add(MulVec(matrix, v), position);
    }

    /** `operatorMultiply(Transform)`: a new transform holding this * transform2. */
    method ComposeWith(transform2: Transform) returns (t: Transform)
      ensures fresh(t)
      ensures t.Value() == Compose(Value(), transform2.Value())
    {
      var matrix := GetMatrix(orientation);
      t := new Transform.FromQuaternion(Add(position, MulVec(matrix, transform2.position)),
                                        Multiply(orientation, transform2.orientation));
    }
  }

  /** `identity()`: a new identity transform. */
  method NewIdentity() returns (t: Transform)
    ensures fresh(t)
    ensures t.Value() == Identity()
  {
    t := new Transform.FromQuaternion(Zero(), QuaternionIdentity());
  }

  /** `interpolateTransforms`: a new transform between the two. */
  method InterpolateTransforms(oldTransform: Transform, newTransform: Transform, interpolationFactor: real,
                               slerp: (Quaternion, Quaternion, real) -> Quaternion)
    returns (t: Transform)
    ensures fresh(t)
    ensures t.Value() == Interpolate(oldTransform.Value(), newTransform.Value(), interpolationFactor, slerp)
  {
    var interPosition := Add(Scale(oldTransform.position, 1.0 - interpolationFactor),
                             Scale(newTransform.position, interpolationFactor));
    var interOrientation := slerp(oldTransform.orientation, newTransform.orientation, interpolationFactor);
    t := new Transform.FromQuaternion(interPosition, interOrientation);
  }
}
