/** Vectors, matrices and rotations used by the controller systems.

    Vectors and matrices are over `real` (IEEE rounding is not modelled).
    Rotations are kept as free terms: the quaternion product is the
    constructor `Compose`, so two rotations are equal exactly when they were
    built the same way, which is enough to fix the composition order. */
module Math {

  /** A 3-D vector of reals (nalgebra's `Vector3<f32>`). */
  datatype Vec3 = Vec3(x: real, y: real, z: real)

  function Scale(v: Vec3, k: real): Vec3
  {
    Vec3(v.x * k, v.y * k, v.z * k)
  }

  /** The vector with its Y component overwritten by 0 (`v.y = 0.0`). */
  function WithoutY(v: Vec3): Vec3
  {
    Vec3(v.x, 0.0, v.z)
  }

  /** An integer triple; the input accumulator only ever moves by whole units. */
  datatype IntVec3 = IntVec3(x: int, y: int, z: int)

  const ZeroIntVec3: IntVec3 := IntVec3(0, 0, 0)

  function Add(a: IntVec3, b: IntVec3): IntVec3
  {
    IntVec3(a.x + b.x, a.y + b.y, a.z + b.z)
  }

  function Neg(a: IntVec3): IntVec3
  {
    IntVec3(-a.x, -a.y, -a.z)
  }

  function ToReal(a: IntVec3): Vec3
  {
    Vec3(a.x as real, a.y as real, a.z as real)
  }

  /** One row of a 4x4 matrix. */
  datatype Row4 = Row4(c0: real, c1: real, c2: real, c3: real)

  /** A 4x4 homogeneous matrix (nalgebra's `Matrix4<f32>`), row by row. */
  datatype Matrix4 = Matrix4(r0: Row4, r1: Row4, r2: Row4, r3: Row4)

  const Identity4: Matrix4 :=
    Matrix4(Row4(1.0, 0.0, 0.0, 0.0),
            Row4(0.0, 1.0, 0.0, 0.0),
            Row4(0.0, 0.0, 1.0, 0.0),
            Row4(0.0, 0.0, 0.0, 1.0))

  function RowDot(r: Row4, v: Vec3): real
  {
    r.c0 * v.x + r.c1 * v.y + r.c2 * v.z
  }

  /** Transforms a direction by an affine matrix: only the upper-left 3x3
      block acts, the translation column does not. */
  function TransformVector(m: Matrix4, v: Vec3): Vec3
  {
    Vec3(RowDot(m.r0, v), RowDot(m.r1, v), RowDot(m.r2, v))
  }

  /** The identity matrix leaves every direction as it is. */
  lemma TransformIdentity(v: Vec3)
    ensures TransformVector(Identity4, v) == v
  {
  }

  /** The translation column never affects a transformed direction. */
  lemma TransformIgnoresTranslation(m: Matrix4, t0: real, t1: real, t2: real, v: Vec3)
    ensures TransformVector(Matrix4(Row4(m.r0.c0, m.r0.c1, m.r0.c2, t0),
                                    Row4(m.r1.c0, m.r1.c1, m.r1.c2, t1),
                                    Row4(m.r2.c0, m.r2.c1, m.r2.c2, t2), m.r3), v)
            == TransformVector(m, v)
  {
  }

  datatype Axis = XAxis | YAxis

  /** A unit quaternion as a term: an axis-angle rotation or the product
      `lhs * rhs`. */
  datatype Rotation =
    | AxisAngle(axis: Axis, angle: real)
    | Compose(lhs: Rotation, rhs: Rotation)

  /** The three angles nalgebra's `euler_angles` returns, in its order:
      about X, about Y, about Z (radians). */
  datatype EulerAngles = EulerAngles(aboutX: real, aboutY: real, aboutZ: real)

  /** `std::f32::consts::FRAC_PI_2` as the exact value of the f32. */
  const HalfPi: real := 1.57079637050628662109375

  /** The factor `f32::to_degrees` multiplies by, as the exact value of the f32. */
  const DegreesPerRadian: real := 57.295780181884765625

  /** `f32::to_degrees`: a scaling by a positive factor, so the sign is kept. */
  function ToDegrees(radians: real): (r: real)
    ensures r > 0.0 <==> radians > 0.0
    ensures r < 0.0 <==> radians < 0.0
  {
    radians * DegreesPerRadian
  }

  function Abs(x: real): (r: real)
    ensures r >= 0.0 && (r == x || r == -x)
  {
    if x < 0.0 then -x else x
  }

  /** Rust's `f32::signum` on non-NaN values: zero counts as positive. */
  function Signum(x: real): (r: real)
    ensures r == 1.0 || r == -1.0
    ensures r == -1.0 <==> x < 0.0
  {
    if x < 0.0 then -1.0 else 1.0
  }
}
