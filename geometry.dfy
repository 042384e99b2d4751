/** Unity's Vector3 over the reals, and the floating-point library calls the
    core relies on (Math.Pow(Math.E, _), Vector3.magnitude and float division),
    which are left abstract and constrained only by the facts the core needs. */
module Geometry {

  /** A 3-D vector; the source's 32-bit floats become reals. */
  datatype Vec3 = Vec3(x: real, y: real, z: real)

  const Zero: Vec3 := Vec3(0.0, 0.0, 0.0)

  function Add(a: Vec3, b: Vec3): Vec3 {
    Vec3(a.x + b.x, a.y + b.y, a.z + b.z)
  }

  function Sub(a: Vec3, b: Vec3): Vec3 {
    Vec3(a.x - b.x, a.y - b.y, a.z - b.z)
  }

  /** Scalar times vector (`wj * t[k-j]` in the source). */
  function Scale(s: real, v: Vec3): Vec3 {
    Vec3(s * v.x, s * v.y, s * v.z)
  }

  /** Vector divided by a scalar (`sum1 / sum2` in the source). */
  function DivBy(v: Vec3, d: real): Vec3
    requires d != 0.0
  {
    Vec3(v.x / d, v.y / d, v.z / d)
  }

  function Abs(r: real): real {
    if r < 0.0 then -r else r
  }

  /** The floating-point operations the core calls but that are not modelled:
      `exp` is Math.Pow(Math.E, _), `magnitude` is Vector3.magnitude and
      `divide` is float division, whose result at a zero divisor (an infinity
      or NaN) is left unspecified. */
  datatype FloatOps = FloatOps(exp: real -> real, magnitude: Vec3 -> real, divide: (real, real) -> real)

  /** What the model assumes of those operations. */
  ghost predicate Sound(ops: FloatOps) {
    && (forall r :: ops.exp(r) > 0.0)
    && ops.exp(0.0) == 1.0
    && (forall a, b :: a < b ==> ops.exp(a) < ops.exp(b))
    && (forall v :: ops.magnitude(v) >= 0.0 && (ops.magnitude(v) == 0.0 <==> v == Zero))
    && (forall a, b :: b != 0.0 ==> ops.divide(a, b) == a / b)
  }

  /** A Euclidean magnitude also scales with a non-negative factor. */
  ghost predicate Homogeneous(magnitude: Vec3 -> real) {
    forall s, v :: s >= 0.0 ==> magnitude(Scale(s, v)) == s * magnitude(v)
  }

  lemma ScaleDistributes(a: real, b: real, v: Vec3)
    ensures Add(Scale(a, v), Scale(b, v)) == Scale(a + b, v)
  {
  }

  lemma ScaleThenDivide(w: real, v: Vec3)
    requires w != 0.0
    ensures DivBy(Scale(w, v), w) == v
  {
    assert w * v.x / w == v.x;
    assert w * v.y / w == v.y;
    assert w * v.z / w == v.z;
  }
}
