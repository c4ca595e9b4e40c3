/**
  Quaternions as GLKit and SceneKit lay them out: (x, y, z) is the vector part
  and w the scalar part. The product is GLKit's `GLKQuaternionMultiply` (the
  Hamilton product) over exact reals; the axis-angle constructor
  `GLKQuaternionMakeWithAngleAndAxis` is modelled by its shape only, with the
  sine and cosine it calls kept uninterpreted.
 */
module Quaternion {

  datatype Quat = Quat(x: real, y: real, z: real, w: real)

  /** A rotation axis as passed to the axis-angle constructor (not normalised by it). */
  datatype Axis = Axis(x: real, y: real, z: real)

  const Identity: Quat := Quat(0.0, 0.0, 0.0, 1.0)

  /** World up, the axis horizontal drags turn about (yaw). */
  const Up: Axis := Axis(0.0, 1.0, 0.0)

  /** World right, the axis vertical drags turn about (pitch). */
  const Right: Axis := Axis(1.0, 0.0, 0.0)

  /**
    The trigonometry the rotation uses, left uninterpreted: for an angle of `d`
    degrees, `sinHalf(d)` and `cosHalf(d)` stand for the sine and cosine of half
    of `d` converted to radians (`GLKMathDegreesToRadians` followed by the
    half-angle sine and cosine inside `GLKQuaternionMakeWithAngleAndAxis`).
   */
  datatype Trig = Trig(sinHalf: real -> real, cosHalf: real -> real)

  /** The trigonometric facts a zero angle has in the real functions. */
  predicate ZeroIsNoTurn(t: Trig) {
    t.sinHalf(0.0) == 0.0 && t.cosHalf(0.0) == 1.0
  }

  /** sin^2 + cos^2 = 1 at angle `d`, as the real functions satisfy. */
  predicate Pythagorean(t: Trig, d: real) {
    t.sinHalf(d) * t.sinHalf(d) + t.cosHalf(d) * t.cosHalf(d) == 1.0
  }

  /** The half-angle addition formulas at angles `a` and `b`, as the real functions satisfy. */
  predicate AddsUp(t: Trig, a: real, b: real) {
    && t.sinHalf(a + b) == t.sinHalf(a) * t.cosHalf(b) + t.cosHalf(a) * t.sinHalf(b)
    && t.cosHalf(a + b) == t.cosHalf(a) * t.cosHalf(b) - t.sinHalf(a) * t.sinHalf(b)
  }

  function Norm2(q: Quat): real {
    q.x * q.x + q.y * q.y + q.z * q.z + q.w * q.w
  }

  predicate IsUnit(q: Quat) {
    Norm2(q) == 1.0
  }

  /** `GLKQuaternionMultiply(a, b)`: the Hamilton product a * b. */
  function Mul(a: Quat, b: Quat): Quat {
    Quat(a.w * b.x + a.x * b.w + a.y * b.z - a.z * b.y,
         a.w * b.y + a.y * b.w + a.z * b.x - a.x * b.z,
         a.w * b.z + a.z * b.w + a.x * b.y - a.y * b.x,
         a.w * b.w - a.x * b.x - a.y * b.y - a.z * b.z)
  }

  /** `GLKQuaternionMakeWithAngleAndAxis(radians(d), axis)`: (sin h * axis, cos h). */
  function AxisAngle(t: Trig, d: real, axis: Axis): Quat {
    var s := t.sinHalf(d);
    Quat(s * axis.x, s * axis.y, s * axis.z, t.cosHalf(d))
  }

  lemma MulIdentityLeft(q: Quat)
    ensures Mul(Identity, q) == q
  {
  }

  lemma MulIdentityRight(q: Quat)
    ensures Mul(q, Identity) == q
  {
  }

  /**
    Associativity of the product, one component at a time, as a polynomial
    identity; `ab` and `bc` name the components of the two inner products.
   */
  lemma ProductAssociatesX(x1: real, y1: real, z1: real, w1: real,
                             x2: real, y2: real, z2: real, w2: real,
                             x3: real, y3: real, z3: real, w3: real,
                             x12: real, y12: real, z12: real, w12: real,
                             x23: real, y23: real, z23: real, w23: real)
    requires x12 == w1 * x2 + x1 * w2 + y1 * z2 - z1 * y2
    requires y12 == w1 * y2 + y1 * w2 + z1 * x2 - x1 * z2
    requires z12 == w1 * z2 + z1 * w2 + x1 * y2 - y1 * x2
    requires w12 == w1 * w2 - x1 * x2 - y1 * y2 - z1 * z2
    requires x23 == w2 * x3 + x2 * w3 + y2 * z3 - z2 * y3
    requires y23 == w2 * y3 + y2 * w3 + z2 * x3 - x2 * z3
    requires z23 == w2 * z3 + z2 * w3 + x2 * y3 - y2 * x3
    requires w23 == w2 * w3 - x2 * x3 - y2 * y3 - z2 * z3
    ensures w12 * x3 + x12 * w3 + y12 * z3 - z12 * y3
         == w1 * x23 + x1 * w23 + y1 * z23 - z1 * y23
  {
  }

  lemma ProductAssociatesY(x1: real, y1: real, z1: real, w1: real,
                             x2: real, y2: real, z2: real, w2: real,
                             x3: real, y3: real, z3: real, w3: real,
                             x12: real, y12: real, z12: real, w12: real,
                             x23: real, y23: real, z23: real, w23: real)
    requires x12 == w1 * x2 + x1 * w2 + y1 * z2 - z1 * y2
    requires y12 == w1 * y2 + y1 * w2 + z1 * x2 - x1 * z2
    requires z12 == w1 * z2 + z1 * w2 + x1 * y2 - y1 * x2
    requires w12 == w1 * w2 - x1 * x2 - y1 * y2 - z1 * z2
    requires x23 == w2 * x3 + x2 * w3 + y2 * z3 - z2 * y3
    requires y23 == w2 * y3 + y2 * w3 + z2 * x3 - x2 * z3
    requires z23 == w2 * z3 + z2 * w3 + x2 * y3 - y2 * x3
    requires w23 == w2 * w3 - x2 * x3 - y2 * y3 - z2 * z3
    ensures w12 * y3 + y12 * w3 + z12 * x3 - x12 * z3
         == w1 * y23 + y1 * w23 + z1 * x23 - x1 * z23
  {
  }

  lemma ProductAssociatesZ(x1: real, y1: real, z1: real, w1: real,
                             x2: real, y2: real, z2: real, w2: real,
                             x3: real, y3: real, z3: real, w3: real,
                             x12: real, y12: real, z12: real, w12: real,
                             x23: real, y23: real, z23: real, w23: real)
    requires x12 == w1 * x2 + x1 * w2 + y1 * z2 - z1 * y2
    requires y12 == w1 * y2 + y1 * w2 + z1 * x2 - x1 * z2
    requires z12 == w1 * z2 + z1 * w2 + x1 * y2 - y1 * x2
    requires w12 == w1 * w2 - x1 * x2 - y1 * y2 - z1 * z2
    requires x23 == w2 * x3 + x2 * w3 + y2 * z3 - z2 * y3
    requires y23 == w2 * y3 + y2 * w3 + z2 * x3 - x2 * z3
    requires z23 == w2 * z3 + z2 * w3 + x2 * y3 - y2 * x3
    requires w23 == w2 * w3 - x2 * x3 - y2 * y3 - z2 * z3
    ensures w12 * z3 + z12 * w3 + x12 * y3 - y12 * x3
         == w1 * z23 + z1 * w23 + x1 * y23 - y1 * x23
  {
  }

  lemma ProductAssociatesW(x1: real, y1: real, z1: real, w1: real,
                             x2: real, y2: real, z2: real, w2: real,
                             x3: real, y3: real, z3: real, w3: real,
                             x12: real, y12: real, z12: real, w12: real,
                             x23: real, y23: real, z23: real, w23: real)
    requires x12 == w1 * x2 + x1 * w2 + y1 * z2 - z1 * y2
    requires y12 == w1 * y2 + y1 * w2 + z1 * x2 - x1 * z2
    requires z12 == w1 * z2 + z1 * w2 + x1 * y2 - y1 * x2
    requires w12 == w1 * w2 - x1 * x2 - y1 * y2 - z1 * z2
    requires x23 == w2 * x3 + x2 * w3 + y2 * z3 - z2 * y3
    requires y23 == w2 * y3 + y2 * w3 + z2 * x3 - x2 * z3
    requires z23 == w2 * z3 + z2 * w3 + x2 * y3 - y2 * x3
    requires w23 == w2 * w3 - x2 * x3 - y2 * y3 - z2 * z3
    ensures w12 * w3 - x12 * x3 - y12 * y3 - z12 * z3
         == w1 * w23 - x1 * x23 - y1 * y23 - z1 * z23
  {
  }

  lemma MulAssociativeX(a: Quat, b: Quat, c: Quat)
    ensures Mul(Mul(a, b), c).x == Mul(a, Mul(b, c)).x
  {
    var ab, bc := Mul(a, b), Mul(b, c);
    ProductAssociatesX(a.x, a.y, a.z, a.w, b.x, b.y, b.z, b.w, c.x, c.y, c.z, c.w,
      ab.x, ab.y, ab.z, ab.w, bc.x, bc.y, bc.z, bc.w);
  }

  lemma MulAssociativeY(a: Quat, b: Quat, c: Quat)
    ensures Mul(Mul(a, b), c).y == Mul(a, Mul(b, c)).y
  {
    var ab, bc := Mul(a, b), Mul(b, c);
    ProductAssociatesY(a.x, a.y, a.z, a.w, b.x, b.y, b.z, b.w, c.x, c.y, c.z, c.w,
      ab.x, ab.y, ab.z, ab.w, bc.x, bc.y, bc.z, bc.w);
  }

  lemma MulAssociativeZ(a: Quat, b: Quat, c: Quat)
    ensures Mul(Mul(a, b), c).z == Mul(a, Mul(b, c)).z
  {
    var ab, bc := Mul(a, b), Mul(b, c);
    ProductAssociatesZ(a.x, a.y, a.z, a.w, b.x, b.y, b.z, b.w, c.x, c.y, c.z, c.w,
      ab.x, ab.y, ab.z, ab.w, bc.x, bc.y, bc.z, bc.w);
  }

  lemma MulAssociativeW(a: Quat, b: Quat, c: Quat)
    ensures Mul(Mul(a, b), c).w == Mul(a, Mul(b, c)).w
  {
    var ab, bc := Mul(a, b), Mul(b, c);
    ProductAssociatesW(a.x, a.y, a.z, a.w, b.x, b.y, b.z, b.w, c.x, c.y, c.z, c.w,
      ab.x, ab.y, ab.z, ab.w, bc.x, bc.y, bc.z, bc.w);
  }

  /** The product is associative, so `(yaw * current) * pitch` is also `yaw * (current * pitch)`. */
  lemma MulAssociative(a: Quat, b: Quat, c: Quat)
    ensures Mul(Mul(a, b), c) == Mul(a, Mul(b, c))
  {
    MulAssociativeX(a, b, c);
    MulAssociativeY(a, b, c);
    MulAssociativeZ(a, b, c);
    MulAssociativeW(a, b, c);
  }

  /** Euler's four-square identity; `p` names the components of the product. */
  lemma FourSquare(x1: real, y1: real, z1: real, w1: real,
                   x2: real, y2: real, z2: real, w2: real,
                   px: real, py: real, pz: real, pw: real)
    requires px == w1 * x2 + x1 * w2 + y1 * z2 - z1 * y2
    requires py == w1 * y2 + y1 * w2 + z1 * x2 - x1 * z2
    requires pz == w1 * z2 + z1 * w2 + x1 * y2 - y1 * x2
    requires pw == w1 * w2 - x1 * x2 - y1 * y2 - z1 * z2
    ensures px * px + py * py + pz * pz + pw * pw
         == (x1 * x1 + y1 * y1 + z1 * z1 + w1 * w1) * (x2 * x2 + y2 * y2 + z2 * z2 + w2 * w2)
  {
  }

  /** The norm is multiplicative: the product of two unit quaternions is a unit quaternion. */
  lemma NormMultiplicative(a: Quat, b: Quat)
    ensures Norm2(Mul(a, b)) == Norm2(a) * Norm2(b)
  {
    var p := Mul(a, b);
    FourSquare(a.x, a.y, a.z, a.w, b.x, b.y, b.z, b.w, p.x, p.y, p.z, p.w);
  }

  /** A zero angle gives the identity rotation, whatever the axis. */
  lemma AxisAngleZero(t: Trig, axis: Axis)
    requires ZeroIsNoTurn(t)
    ensures AxisAngle(t, 0.0, axis) == Identity
  {
  }

  /** About a unit axis, the constructor yields a unit quaternion when sin^2 + cos^2 = 1. */
  lemma AxisAngleUnit(t: Trig, d: real, axis: Axis)
    requires Pythagorean(t, d)
    requires axis.x * axis.x + axis.y * axis.y + axis.z * axis.z == 1.0
    ensures IsUnit(AxisAngle(t, d, axis))
  {
  }

  /** Two turns about the same axis make one turn by the summed angle, given the addition formulas. */
  lemma AxisAngleCompose(t: Trig, a: real, b: real, axis: Axis)
    requires AddsUp(t, a, b)
    requires axis == Up || axis == Right
    ensures Mul(AxisAngle(t, b, axis), AxisAngle(t, a, axis)) == AxisAngle(t, a + b, axis)
  {
  }
}
