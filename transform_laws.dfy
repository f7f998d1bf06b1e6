/**
 * What the transform operations promise: the exact slot layout of the
 * column-major matrix and its round trips, the identity as a neutral
 * element, the inverse as a left inverse, and the endpoints and bounds of
 * position interpolation.
 */
module TransformLaws {
  import opened Primitives
  import opened Transforms

  // ---------------------------------------------------------------------
  // Column-major layout
  // ---------------------------------------------------------------------

  /**
   * Which slot holds what: the rotation entry m[r][c] sits at 4 * c + r, the
   * translation at 12, 13 and 14, and the slots 3, 7, 11 and 15 hold the
   * constant row (0, 0, 0, 1).
   */
  lemma ColumnMajorLayout(m: Matrix3x3, p: Vector3)
    ensures var s := ColumnMajor(m, p);
      && (forall r, c :: 0 <= r < 3 && 0 <= c < 3 ==> s[4 * c + r] == m.At(r, c))
      && (forall i :: 0 <= i < 3 ==> s[12 + i] == p.At(i))
      && s[3] == 0.0 && s[7] == 0.0 && s[11] == 0.0 && s[15] == 1.0
  {
    ColumnMajorSlots(m, p);
  }

  /** Decoding an encoded matrix gives back the rotation block and the translation. */
  lemma DecodeColumnMajor(m: Matrix3x3, p: Vector3)
    ensures DecodeRotation(ColumnMajor(m, p)) == m
    ensures DecodePosition(ColumnMajor(m, p)) == p
  {
    ColumnMajorSlots(m, p);
  }

  /**
   * Re-encoding what was decoded reproduces the 16 entries exactly when
   * their last row is the affine row (0, 0, 0, 1): the decoder drops
   * entries 3, 7, 11 and 15 and the encoder writes constants there.
   */
  lemma ColumnMajorOfDecoded(s: seq<real>)
    requires |s| == 16
    ensures ColumnMajor(DecodeRotation(s), DecodePosition(s)) == s <==> IsAffineLayout(s)
  {
    var e := ColumnMajor(DecodeRotation(s), DecodePosition(s));
    ColumnMajorSlots(DecodeRotation(s), DecodePosition(s));
    if IsAffineLayout(s) {
      assert forall i :: 0 <= i < 16 ==> e[i] == s[i];
    } else {
      assert e[3] != s[3] || e[7] != s[7] || e[11] != s[11] || e[15] != s[15];
    }
  }

  /**
   * `setFromOpenGL` reads only the rotation block and the translation: two
   * arrays that agree there yield the same transform, whatever their
   * entries 3, 7 and 11 (and any entries past 14) hold.
   */
  lemma FromOpenGLIgnoresPadding(s: seq<real>, s': seq<real>, fromMatrix: Matrix3x3 -> Quaternion)
    requires |s| >= 15 && |s'| >= 15
    requires forall i :: 0 <= i < 15 && i % 4 != 3 ==> s[i] == s'[i]
    ensures FromOpenGL(s, fromMatrix) == FromOpenGL(s', fromMatrix)
  {
    assert s[0] == s'[0] && s[1] == s'[1] && s[2] == s'[2];
    assert s[4] == s'[4] && s[5] == s'[5] && s[6] == s'[6];
    assert s[8] == s'[8] && s[9] == s'[9] && s[10] == s'[10];
    assert s[12] == s'[12] && s[13] == s'[13] && s[14] == s'[14];
  }

  /**
   * Export then import: the rotation matrix rebuilt from the exported
   * entries is the matrix of the original orientation, entry for entry,
   * and the position comes back unchanged. The orientation itself comes
   * back as `fromMatrix` of that matrix, so it is the original's whenever
   * `fromMatrix` inverts the conversion on it.
   */
  lemma OpenGLRoundTrip(t: RigidTransform, fromMatrix: Matrix3x3 -> Quaternion)
    ensures DecodeRotation(ToOpenGL(t)) == GetMatrix(t.orientation)
    ensures FromOpenGL(ToOpenGL(t), fromMatrix).position == t.position
    ensures FromOpenGL(ToOpenGL(t), fromMatrix).orientation == fromMatrix(GetMatrix(t.orientation))
    ensures fromMatrix(GetMatrix(t.orientation)) == t.orientation ==> FromOpenGL(ToOpenGL(t), fromMatrix) == t
  {
    DecodeColumnMajor(GetMatrix(t.orientation), t.position);
  }

  // ---------------------------------------------------------------------
  // Identity
  // ---------------------------------------------------------------------

  /** Composing with the identity on the right changes nothing: p + R * 0 and q * 1. */
  lemma ComposeIdentityRight(t: RigidTransform)
    ensures Compose(t, Identity()) == t
  {
    MulVecZero(GetMatrix(t.orientation));
    MultiplyIdentity(t.orientation);
  }

  /** Composing with the identity on the left changes nothing: 0 + I * p and 1 * q. */
  lemma ComposeIdentityLeft(t: RigidTransform)
    ensures Compose(Identity(), t) == t
  {
    GetMatrixIdentity();
    MulVecIdentity(t.position);
    MultiplyIdentity(t.orientation);
  }

  /** The identity transform maps every point to itself: I * v + 0. */
  lemma ApplyIdentity(v: Vector3)
    ensures Apply(Identity(), v) == v
  {
    GetMatrixIdentity();
    MulVecIdentity(v);
  }

  // ---------------------------------------------------------------------
  // Inverse
  // ---------------------------------------------------------------------

  /** The inverse of the identity is the identity, when `inverse` fixes the identity quaternion. */
  lemma InverseIdentity(inverse: Quaternion -> Quaternion)
    requires inverse(QuaternionIdentity()) == QuaternionIdentity()
    ensures Inverse(Identity(), inverse) == Identity()
  {
    GetMatrixIdentity();
    MulVecIdentity(Negate(Zero()));
  }

  /**
   * The inverse undoes t on the left, Inverse(t) * t == identity, whenever
   * `inverse` gives a left inverse of the orientation under the Hamilton
   * product: the positions cancel as R' * (-p) + R' * p.
   */
  lemma InverseComposeLeft(t: RigidTransform, inverse: Quaternion -> Quaternion)
    requires Multiply(inverse(t.orientation), t.orientation) == QuaternionIdentity()
    ensures Compose(Inverse(t, inverse), t) == Identity()
  {
    MulVecNegate(GetMatrix(inverse(t.orientation)), t.position);
  }

  /**
   * The inverse undoes t on the right, t * Inverse(t) == identity, whenever
   * `inverse` gives a right inverse of the orientation under the Hamilton
   * product and its rotation matrix is a right inverse of t's: the
   * positions cancel as p + R * (R' * (-p)).
   */
  lemma InverseComposeRight(t: RigidTransform, inverse: Quaternion -> Quaternion)
    requires Multiply(t.orientation, inverse(t.orientation)) == QuaternionIdentity()
    requires MatMul(GetMatrix(t.orientation), GetMatrix(inverse(t.orientation))) == IdentityMatrix()
    ensures Compose(t, Inverse(t, inverse)) == Identity()
  {
    var p, r, r' := t.position, GetMatrix(t.orientation), GetMatrix(inverse(t.orientation));
    MulVecNegate(r', p);
    MulVecNegate(r, MulVec(r', p));
    MulVecMatMul(r, r', p);
    MulVecIdentity(p);
  }

  /**
   * Applying the inverse after t gives the point back whenever the
   * rotation of the inverse quaternion inverts the rotation of t.
   */
  lemma ApplyInverse(t: RigidTransform, inverse: Quaternion -> Quaternion, v: Vector3)
    requires MatMul(GetMatrix(inverse(t.orientation)), GetMatrix(t.orientation)) == IdentityMatrix()
    ensures Apply(Inverse(t, inverse), Apply(t, v)) == v
  {
    var r, r' := GetMatrix(t.orientation), GetMatrix(inverse(t.orientation));
    MulVecAdd(r', MulVec(r, v), t.position);
    MulVecNegate(r', t.position);
    MulVecMatMul(r', r, v);
    MulVecIdentity(v);
  }

  // ---------------------------------------------------------------------
  // Composition is not commutative
  // ---------------------------------------------------------------------

  /** The quarter turn about z, as a matrix: (x, y, z) goes to (-y, x, z). */
  function QuarterTurn(): Matrix3x3
  {
    Matrix3x3(0.0, -1.0, 0.0,
              1.0, 0.0, 0.0,
              0.0, 0.0, 1.0)
  }

  /** The quaternion (0, 0, 1, 1), which `GetMatrix` normalises, is the quarter turn about z. */
  lemma QuarterTurnMatrix()
    ensures GetMatrix(Quaternion(0.0, 0.0, 1.0, 1.0)) == QuarterTurn()
  {
    assert LengthSquare(Quaternion(0.0, 0.0, 1.0, 1.0)) == 2.0;
  }

  /** A transform whose orientation is the quarter turn maps v to (-v.y, v.x, v.z) plus its position. */
  lemma ApplyQuarterTurn(t: RigidTransform, v: Vector3)
    requires GetMatrix(t.orientation) == QuarterTurn()
    ensures Apply(t, v) == Add(Vector3(-v.y, v.x, v.z), t.position)
  {
  }

  /** A pure translation composed after t adds its shift to t's position and keeps t's orientation. */
  lemma ComposeTranslationLeft(shift: Vector3, t: RigidTransform)
    ensures Compose(RigidTransform(shift, QuaternionIdentity()), t)
         == RigidTransform(Add(shift, t.position), t.orientation)
  {
    GetMatrixIdentity();
    MulVecIdentity(t.position);
    MultiplyIdentity(t.orientation);
  }

  /** A quarter turn at the origin composed after a pure translation turns the translation. */
  lemma ComposeTurnAfterShift(t2: RigidTransform, t1: RigidTransform)
    requires t2.position == Zero() && GetMatrix(t2.orientation) == QuarterTurn()
    requires t1.orientation == QuaternionIdentity()
    ensures Compose(t2, t1) == RigidTransform(Vector3(-t1.position.y, t1.position.x, t1.position.z), t2.orientation)
  {
    MultiplyIdentity(t2.orientation);
  }

  /**
   * T1 translates by (1, 0, 0); T2 is a quarter turn about z at the origin.
   * On the point (0, 1, 0), T1 * T2 gives (0, 0, 0) and T2 * T1 gives
   * (-1, 1, 0).
   */
  lemma ComposeNotCommutative(t1: RigidTransform, t2: RigidTransform, v: Vector3)
    requires t1 == RigidTransform(Vector3(1.0, 0.0, 0.0), QuaternionIdentity())
    requires t2.position == Zero() && GetMatrix(t2.orientation) == QuarterTurn()
    requires v == Vector3(0.0, 1.0, 0.0)
    ensures Apply(Compose(t1, t2), v) == Vector3(0.0, 0.0, 0.0)
    ensures Apply(Compose(t2, t1), v) == Vector3(-1.0, 1.0, 0.0)
  {
    ShiftAfterTurnAtY(t1, t2, v);
    TurnAfterShiftAtY(t1, t2, v);
  }

  /** T1 * T2 on (0, 1, 0): turned to (-1, 0, 0), then shifted back to the origin. */
  lemma ShiftAfterTurnAtY(t1: RigidTransform, t2: RigidTransform, v: Vector3)
    requires t1 == RigidTransform(Vector3(1.0, 0.0, 0.0), QuaternionIdentity())
    requires t2.position == Zero() && GetMatrix(t2.orientation) == QuarterTurn()
    requires v == Vector3(0.0, 1.0, 0.0)
    ensures Apply(Compose(t1, t2), v) == Vector3(0.0, 0.0, 0.0)
  {
    ComposeTranslationLeft(t1.position, t2);
    ApplyQuarterTurn(Compose(t1, t2), v);
  }

  /** T2 * T1 on (0, 1, 0): the turned shift (0, 1, 0) plus the turned point (-1, 0, 0). */
  lemma TurnAfterShiftAtY(t1: RigidTransform, t2: RigidTransform, v: Vector3)
    requires t1 == RigidTransform(Vector3(1.0, 0.0, 0.0), QuaternionIdentity())
    requires t2.position == Zero() && GetMatrix(t2.orientation) == QuarterTurn()
    requires v == Vector3(0.0, 1.0, 0.0)
    ensures Apply(Compose(t2, t1), v) == Vector3(-1.0, 1.0, 0.0)
  {
    ComposeTurnAfterShift(t2, t1);
    ApplyQuarterTurn(Compose(t2, t1), v);
  }

  /** With the concrete quaternion (0, 0, 1, 1): the two orders differ. */
  lemma QuarterTurnNotCommutative()
    ensures var t1 := RigidTransform(Vector3(1.0, 0.0, 0.0), QuaternionIdentity());
            var t2 := RigidTransform(Zero(), Quaternion(0.0, 0.0, 1.0, 1.0));
            var v := Vector3(0.0, 1.0, 0.0);
            Apply(Compose(t1, t2), v) != Apply(Compose(t2, t1), v)
  {
    QuarterTurnMatrix();
    ComposeNotCommutative(RigidTransform(Vector3(1.0, 0.0, 0.0), QuaternionIdentity()),
                          RigidTransform(Zero(), Quaternion(0.0, 0.0, 1.0, 1.0)),
                          Vector3(0.0, 1.0, 0.0));
  }

  // ---------------------------------------------------------------------
  // Interpolation
  // ---------------------------------------------------------------------

  /** Factor 0 gives the old position, factor 1 the new one. */
  lemma InterpolateEndpoints(oldT: RigidTransform, newT: RigidTransform,
                             slerp: (Quaternion, Quaternion, real) -> Quaternion)
    ensures Interpolate(oldT, newT, 0.0, slerp).position == oldT.position
    ensures Interpolate(oldT, newT, 1.0, slerp).position == newT.position
  {
  }

  /** Interpolating between two transforms at the same position stays there, for any factor. */
  lemma InterpolateSamePosition(oldT: RigidTransform, newT: RigidTransform, f: real,
                                slerp: (Quaternion, Quaternion, real) -> Quaternion)
    requires oldT.position == newT.position
    ensures Interpolate(oldT, newT, f, slerp).position == oldT.position
  {
  }

  /** c lies on the closed segment from a to b. */
  predicate Between(a: real, b: real, c: real)
  {
    (a <= b ==> a <= c <= b) && (b <= a ==> b <= c <= a)
  }

  /** A blend with factor in [0, 1] lies between its two ends. */
  lemma BlendBetween(a: real, b: real, f: real)
    requires 0.0 <= f <= 1.0
    ensures Between(a, b, (1.0 - f) * a + f * b)
  {
    var d, g := b - a, 1.0 - f;
    assert (1.0 - f) * a + f * b == a + f * d;
    assert d - f * d == g * d;
    if a <= b {
      assert 0.0 <= f * d && 0.0 <= g * d;
    } else {
      assert f * d <= 0.0 && g * d <= 0.0;
    }
  }

  /**
   * For a factor in [0, 1] every coordinate of the interpolated position
   * lies between the corresponding coordinates of the two positions.
   */
  lemma InterpolateWithinBounds(oldT: RigidTransform, newT: RigidTransform, f: real,
                                slerp: (Quaternion, Quaternion, real) -> Quaternion)
    requires 0.0 <= f <= 1.0
    ensures var a, b, c := oldT.position, newT.position, Interpolate(oldT, newT, f, slerp).position;
      Between(a.x, b.x, c.x) && Between(a.y, b.y, c.y) && Between(a.z, b.z, c.z)
  {
    var a, b, c := oldT.position, newT.position, Lerp(oldT.position, newT.position, f);
    assert c.x == (1.0 - f) * a.x + f * b.x && c.y == (1.0 - f) * a.y + f * b.y && c.z == (1.0 - f) * a.z + f * b.z;
    BlendBetween(a.x, b.x, f);
    BlendBetween(a.y, b.y, f);
    BlendBetween(a.z, b.z, f);
  }

  /**
   * Half way from the identity to a transform at (2, 0, 0) is the position
   * (1, 0, 0); the orientation is whatever `slerp` gives.
   */
  lemma InterpolateMidpoint(q: Quaternion, slerp: (Quaternion, Quaternion, real) -> Quaternion)
    ensures var mid := Interpolate(Identity(), RigidTransform(Vector3(2.0, 0.0, 0.0), q), 0.5, slerp);
      mid == RigidTransform(Vector3(1.0, 0.0, 0.0), slerp(QuaternionIdentity(), q, 0.5))
  {
  }
}
