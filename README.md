# Rigid transform: column-major layout and structural algebra

This project models `Transform` from the jReactPhysics3D mathematics
package. A transform is a rigid motion in 3D: a position vector and an
orientation quaternion. It acts on a point by rotating the point, then
adding the position.

The model has three modules:

- `Primitives` (`primitives.dfy`) holds the minimal vector, 3x3 matrix and
  quaternion operations the transform uses, over the reals. The 3x3 matrix
  is row-major (`m[r][c]` is `mRC`).
- `Transforms` (`transform.dfy`) holds the value part as a datatype with
  functions:
  - `RigidTransform`, `Identity`, `Apply`, `Compose`, `Inverse` and
    `Interpolate`;
  - the 16-entry column-major ("OpenGL") layout as an encoder
    (`ColumnMajor`, `ToOpenGL`) and a decoder (`DecodeRotation`,
    `DecodePosition`, `FromOpenGL`);
  - the class `Transform`, whose `position` and `orientation` fields the
    constructors, setters and `SetFromOpenGL` assign in place.
  `GetOpenGLMatrix` writes a caller's `array<real>` slot by slot. Every
  method is specified against the value functions.
- `TransformLaws` (`transform_laws.dfy`) holds what the operations promise:
  - the layout slot by slot, both round trips and what the decoder ignores;
  - the identity as a two-sided neutral element;
  - the inverse as a left and a right inverse;
  - a concrete proof that composition is not commutative;
  - interpolation endpoints and bounds.

Three quaternion primitives belong to classes that are not part of this
model: the quaternion of a rotation matrix, the quaternion inverse and
spherical linear interpolation. They are function-valued parameters
(`fromMatrix`, `inverse`, `slerp`), and the laws about them state what they
need from those functions as preconditions. `Quaternion.getMatrix` is not
part of this model either. `GetMatrix` uses the standard normalised
conversion: s = 2/|q|², and s = 0 for the zero quaternion. The laws use only
one fact about it, `GetMatrix(identity) == I`, plus one concrete quarter
turn.

Entry `4*c + r` of the array holds `m[r][c]`
(`Transform.java`, lines 82-96): the conventional OpenGL column-major
order, with the translation at entries 12, 13 and 14. `setPosition`,
`setOrientation` and `operatorEqual` store the caller's objects; the model
copies values instead (see "Left out").

## Model

| member | source | states |
|---|---|---|
| Primitives.Zero | src/main/java/net/smert/jreactphysics3d/mathematics/Transform.java:21 | `new Vector3()` has every component 0 |
| Primitives.Negate | src/main/java/net/smert/jreactphysics3d/mathematics/Transform.java:105 | `invert()` gives the additive inverse: v + invert(v) is the zero vector |
| Primitives.MulVecZero | src/main/java/net/smert/jreactphysics3d/mathematics/Transform.java:136 | a rotation of the zero position is zero, which makes the identity a right unit of composition |
| Primitives.MulVecAdd | src/main/java/net/smert/jreactphysics3d/mathematics/Transform.java:105 | a matrix distributes over vector addition, the linearity the inverse laws use where line 105 rotates the negated position |
| Primitives.MulVecNegate | src/main/java/net/smert/jreactphysics3d/mathematics/Transform.java:105 | rotating the negated position is negating the rotated position |
| Primitives.MulVecMatMul | src/main/java/net/smert/jreactphysics3d/mathematics/Transform.java:126-130 | applying a product of rotation matrices is applying its factors in turn |
| Primitives.MultiplyIdentity | src/main/java/net/smert/jreactphysics3d/mathematics/Transform.java:137 | the identity quaternion is a unit of the Hamilton product on both sides |
| Primitives.GetMatrixIdentity | src/main/java/net/smert/jreactphysics3d/mathematics/Transform.java:128 | the identity quaternion converts to the identity matrix |
| Transforms.ColumnMajorSlots | src/main/java/net/smert/jreactphysics3d/mathematics/Transform.java:82-97 | the 16 exported entries, slot by slot: rotation columns, then the translation column, with the constant row 0, 0, 0, 1 at 3, 7, 11 and 15 |
| Transforms.DecodeRotation | src/main/java/net/smert/jreactphysics3d/mathematics/Transform.java:71-73 | the rebuilt matrix has `m[r][c]` equal to entry 4c + r, so row r is (a[r], a[4+r], a[8+r]) |
| Transforms.DecodePosition | src/main/java/net/smert/jreactphysics3d/mathematics/Transform.java:75 | position component i is entry 12 + i |
| Transforms.Transform.constructor | src/main/java/net/smert/jreactphysics3d/mathematics/Transform.java:20-23 | the default constructor gives the zero position and the identity quaternion |
| Transforms.Transform.FromMatrix | src/main/java/net/smert/jreactphysics3d/mathematics/Transform.java:26-29 | position copied; orientation is the quaternion of the given matrix |
| Transforms.Transform.FromQuaternion | src/main/java/net/smert/jreactphysics3d/mathematics/Transform.java:32-35 | both fields copied |
| Transforms.Transform.Copy | src/main/java/net/smert/jreactphysics3d/mathematics/Transform.java:38-41 | the copy holds the same value as the original |
| Transforms.Transform.SetPosition | src/main/java/net/smert/jreactphysics3d/mathematics/Transform.java:49-51 | the position is replaced and the orientation kept |
| Transforms.Transform.SetOrientation | src/main/java/net/smert/jreactphysics3d/mathematics/Transform.java:59-61 | the orientation is replaced and the position kept |
| Transforms.Transform.Assign | src/main/java/net/smert/jreactphysics3d/mathematics/Transform.java:151-157 | this takes the other transform's value (unchanged when it is the same object) and is returned |
| Transforms.Transform.SetToIdentity | src/main/java/net/smert/jreactphysics3d/mathematics/Transform.java:64-67 | the new value is the identity |
| Transforms.Transform.SetFromOpenGL | src/main/java/net/smert/jreactphysics3d/mathematics/Transform.java:70-76 | the new value is the decoded array: orientation `fromMatrix` of the rotation block, position entries 12 to 14 |
| Transforms.Transform.GetOpenGLMatrix | src/main/java/net/smert/jreactphysics3d/mathematics/Transform.java:79-98 | entries 0 to 15 become the column-major matrix of the transform; later entries and the transform are unchanged |
| Transforms.Transform.GetInverse | src/main/java/net/smert/jreactphysics3d/mathematics/Transform.java:101-106 | a fresh transform with orientation q⁻¹ and position R(q⁻¹) · (−p) |
| Transforms.Transform.TransformPoint | src/main/java/net/smert/jreactphysics3d/mathematics/Transform.java:126-130 | the image of a point is R(q) · v + p; the transform is unchanged |
| Transforms.Transform.ComposeWith | src/main/java/net/smert/jreactphysics3d/mathematics/Transform.java:133-138 | a fresh transform holding this * transform2 |
| Transforms.NewIdentity | src/main/java/net/smert/jreactphysics3d/mathematics/Transform.java:121-123 | `identity()` is a fresh identity transform |
| Transforms.InterpolateTransforms | src/main/java/net/smert/jreactphysics3d/mathematics/Transform.java:109-118 | a fresh transform: position (1 − f) · old + f · new, orientation `slerp(old, new, f)` |
| TransformLaws.ColumnMajorLayout | src/main/java/net/smert/jreactphysics3d/mathematics/Transform.java:82-97 | entry 4c + r is `m[r][c]`, entries 12 to 14 are the position, and entries 3, 7, 11 and 15 are 0, 0, 0 and 1 |
| TransformLaws.DecodeColumnMajor | src/main/java/net/smert/jreactphysics3d/mathematics/Transform.java:71-96 | decoding what was encoded gives back the rotation matrix and the position exactly |
| TransformLaws.ColumnMajorOfDecoded | src/main/java/net/smert/jreactphysics3d/mathematics/Transform.java:71-96 | re-encoding a decoded 16-entry array gives the array back if and only if its last row is 0, 0, 0, 1 |
| TransformLaws.FromOpenGLIgnoresPadding | src/main/java/net/smert/jreactphysics3d/mathematics/Transform.java:70-76 | two arrays that agree on entries 0-2, 4-6, 8-10 and 12-14 import to the same transform, whatever entries 3, 7, 11 and 15 and beyond hold |
| TransformLaws.OpenGLRoundTrip | src/main/java/net/smert/jreactphysics3d/mathematics/Transform.java:70-98 | export then import: the rebuilt matrix is `getMatrix(orientation)`, the position comes back, and the whole transform comes back when `fromMatrix` inverts `getMatrix` on it |
| TransformLaws.ComposeIdentityRight | src/main/java/net/smert/jreactphysics3d/mathematics/Transform.java:133-138 | T * identity == T |
| TransformLaws.ComposeIdentityLeft | src/main/java/net/smert/jreactphysics3d/mathematics/Transform.java:133-138 | identity * T == T |
| TransformLaws.ApplyIdentity | src/main/java/net/smert/jreactphysics3d/mathematics/Transform.java:126-130 | the identity maps every point to itself |
| TransformLaws.InverseIdentity | src/main/java/net/smert/jreactphysics3d/mathematics/Transform.java:101-106 | the inverse of the identity is the identity when `inverse` fixes the identity quaternion |
| TransformLaws.InverseComposeLeft | src/main/java/net/smert/jreactphysics3d/mathematics/Transform.java:101-106 | T⁻¹ * T == identity whenever `inverse` gives a left inverse of the orientation |
| TransformLaws.InverseComposeRight | src/main/java/net/smert/jreactphysics3d/mathematics/Transform.java:101-106 | T * T⁻¹ == identity whenever `inverse` gives a right inverse of the orientation, both as quaternions and as rotation matrices |
| TransformLaws.ApplyInverse | src/main/java/net/smert/jreactphysics3d/mathematics/Transform.java:101-106 | T⁻¹ applied after T gives every point back whenever the rotation of q⁻¹ inverts the rotation of q |
| TransformLaws.QuarterTurnMatrix | src/main/java/net/smert/jreactphysics3d/mathematics/Transform.java:128 | the quaternion (0, 0, 1, 1) converts to the quarter turn about z |
| TransformLaws.ApplyQuarterTurn | src/main/java/net/smert/jreactphysics3d/mathematics/Transform.java:126-130 | a transform with the quarter-turn orientation maps v to (−v.y, v.x, v.z) + p |
| TransformLaws.ComposeTranslationLeft | src/main/java/net/smert/jreactphysics3d/mathematics/Transform.java:133-138 | a pure translation composed after t adds its shift to t's position and keeps t's orientation |
| TransformLaws.ComposeTurnAfterShift | src/main/java/net/smert/jreactphysics3d/mathematics/Transform.java:133-138 | a quarter turn at the origin composed after a pure translation turns the translation, (x, y, z) to (−y, x, z) |
| TransformLaws.ComposeNotCommutative | src/main/java/net/smert/jreactphysics3d/mathematics/Transform.java:126-138 | for T1 the shift by (1, 0, 0) and T2 any quarter turn about z at the origin, T1 * T2 and T2 * T1 send (0, 1, 0) to (0, 0, 0) and (−1, 1, 0) |
| TransformLaws.ShiftAfterTurnAtY | src/main/java/net/smert/jreactphysics3d/mathematics/Transform.java:126-138 | the first half of the example: T1 * T2 sends (0, 1, 0) to the origin |
| TransformLaws.TurnAfterShiftAtY | src/main/java/net/smert/jreactphysics3d/mathematics/Transform.java:126-138 | the second half: T2 * T1 sends (0, 1, 0) to (−1, 1, 0) |
| TransformLaws.QuarterTurnNotCommutative | src/main/java/net/smert/jreactphysics3d/mathematics/Transform.java:126-138 | with the concrete quaternion (0, 0, 1, 1), the two orders of composition differ |
| TransformLaws.InterpolateEndpoints | src/main/java/net/smert/jreactphysics3d/mathematics/Transform.java:112-113 | factor 0 gives the old position, factor 1 the new one |
| TransformLaws.InterpolateSamePosition | src/main/java/net/smert/jreactphysics3d/mathematics/Transform.java:112-113 | two transforms at the same position interpolate to that position for every factor |
| TransformLaws.BlendBetween | src/main/java/net/smert/jreactphysics3d/mathematics/Transform.java:112-113 | for f in [0, 1], (1 − f) · a + f · b lies between a and b |
| TransformLaws.InterpolateWithinBounds | src/main/java/net/smert/jreactphysics3d/mathematics/Transform.java:109-118 | for f in [0, 1], every coordinate of the interpolated position lies between the two input coordinates |
| TransformLaws.InterpolateMidpoint | src/main/java/net/smert/jreactphysics3d/mathematics/Transform.java:109-123 | half way from the identity to position (2, 0, 0) is position (1, 0, 0), with the orientation `slerp` gives |

## Left out

- Floating point: scalars are `real`, so the laws hold exactly. The source computes in IEEE `float`, where they hold only up to rounding.
- The bodies of `Quaternion(Matrix3x3)`, `Quaternion.inverse` and `Quaternion.Slerp`: the quaternion class is not part of this model. They are function parameters. The inverse and round-trip laws state what they need from them as preconditions.
- `Quaternion.getMatrix`: the quaternion class is not part of this model. `GetMatrix` uses the standard normalised conversion, and the laws rely only on its value at the identity and at (0, 0, 1, 1).
- `Vector3.equals` and the other members of `Vector3` and `Matrix3x3`: those classes are not part of this model. Only the operations the transform calls are given.
- Transforms.Transform.GetOpenGLMatrix: requires an array of at least 16 entries. Java throws `ArrayIndexOutOfBoundsException` on a shorter array, after writing the entries that fit. That partial write is not modelled.
- Transforms.Transform.SetFromOpenGL: requires at least 15 entries, since index 14 is the highest it reads. On an array of 11 to 14 entries Java replaces `mOrientation` (line 74) before reading entries 12 to 14 throws (line 75), a partial update like the one of `getOpenGLMatrix`; that exception and partial update, and a `null` array in either method, are not modelled.
- Reference aliasing: `setPosition`, `setOrientation` and `operatorEqual` store the caller's objects, and `setFromOpenGL` mutates `mPosition` in place through `set`. The model copies values instead, so a later mutation of a shared vector or quaternion through another reference is not captured.
- `getPosition` and `getOrientation`: they return the internal objects. In the model they are the reads of `Value()`.
- `operatorEquals` and `operatorNotEquals`: they compare object references, which a value model cannot express.
- `equals`, `hashCode` and `toString`: they delegate to classes that are not part of this model, or to string formatting.
- The homomorphism `(T1 * T2)(v) == T1(T2(v))` and associativity of composition: each needs `getMatrix` to be multiplicative, which means quaternion algebra with nonlinear real arithmetic outside what is proved here. The inverse laws do not need it: the left inverse is proved under a precondition on the quaternion `inverse` returns, and the right inverse under that precondition plus one on its rotation matrix, `R(q) · R(inverse(q)) == I`, which multiplicativity would otherwise supply.
