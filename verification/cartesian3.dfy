/** Three-component vectors over the reals: the subset of the host engine's
    Cartesian3 arithmetic that the mirror camera and the centre-point helper
    use. Vectors are immutable values; the engine's "result" out-parameters
    and aliasing are not modelled. */
module Cartesian3 {

  datatype Vec3 = Vec3(x: real, y: real, z: real)

  const Zero: Vec3 := Vec3(0.0, 0.0, 0.0)

  function Add(a: Vec3, b: Vec3): Vec3 {
    Vec3(a.x + b.x, a.y + b.y, a.z + b.z)
  }

  function Subtract(a: Vec3, b: Vec3): Vec3 {
    Vec3(a.x - b.x, a.y - b.y, a.z - b.z)
  }

  function MultiplyByScalar(v: Vec3, k: real): Vec3 {
    Vec3(k * v.x, k * v.y, k * v.z)
  }

  function Dot(a: Vec3, b: Vec3): real {
    a.x * b.x + a.y * b.y + a.z * b.z
  }

  function Cross(a: Vec3, b: Vec3): Vec3 {
    Vec3(a.y * b.z - a.z * b.y,
         a.z * b.x - a.x * b.z,
         a.x * b.y - a.y * b.x)
  }

  /** The squared Euclidean length; the engine's `magnitude` is its square root. */
  function MagnitudeSquared(v: Vec3): real {
    Dot(v, v)
  }

  predicate IsUnit(v: Vec3) {
    MagnitudeSquared(v) == 1.0
  }

  /** Two vectors are orthogonal when their dot product vanishes. */
  predicate Orthogonal(a: Vec3, b: Vec3) {
    Dot(a, b) == 0.0
  }

  lemma DotSymmetric(a: Vec3, b: Vec3)
    ensures Dot(a, b) == Dot(b, a)
  {}

  /** Linearity of the dot product in its first argument. */
  lemma DotLinearLeft(a: Vec3, k: real, b: Vec3, c: Vec3)
    ensures Dot(Subtract(a, MultiplyByScalar(b, k)), c) == Dot(a, c) - k * Dot(b, c)
  {}

  /** The cross product is orthogonal to both of its arguments. */
  lemma CrossOrthogonal(a: Vec3, b: Vec3)
    ensures Orthogonal(Cross(a, b), a) && Orthogonal(Cross(a, b), b)
  {}

  /** Swapping the arguments of the cross product negates it. */
  lemma CrossAntiCommutative(a: Vec3, b: Vec3)
    ensures Cross(b, a) == MultiplyByScalar(Cross(a, b), -1.0)
  {}

  /** Lagrange's identity: |a x b|^2 = |a|^2 |b|^2 - (a . b)^2. In particular
      the cross product of two orthogonal unit vectors is a unit vector. */
  lemma LagrangeIdentity(a: Vec3, b: Vec3)
    ensures MagnitudeSquared(Cross(a, b))
         == MagnitudeSquared(a) * MagnitudeSquared(b) - Dot(a, b) * Dot(a, b)
  {}
}
