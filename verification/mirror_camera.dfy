/** The planar-mirror camera transform of the water reflection component:
    given the live camera, the water plane's normal and a point on the plane,
    it builds the camera that sees the scene as reflected in the plane. */
module MirrorCamera {
  import opened Cartesian3

  /** The viewing-volume settings that cloning the camera copies unchanged. */
  datatype Frustum = Frustum(fov: real, aspectRatio: real, near: real, far: real)

  /** A camera in world coordinates. `direction` and `up` stand for the
      engine's world-coordinate `directionWC` and `upWC`. */
  datatype Camera = Camera(position: Vec3, direction: Vec3, up: Vec3, right: Vec3,
                           frustum: Frustum)

  /** Signed distance of `p` from the plane through `center` with unit normal
      `normal`: positive on the side the normal points to. */
  function SignedDistance(p: Vec3, normal: Vec3, center: Vec3): real {
    Dot(Subtract(p, center), normal)
  }

  /** The part of `v` orthogonal to the unit vector `normal`. */
  function Tangential(v: Vec3, normal: Vec3): Vec3 {
    Subtract(v, MultiplyByScalar(normal, Dot(normal, v)))
  }

  /** Mirrors a point across the plane: the camera-to-centre vector is
      projected on the normal, negated, and twice that offset along the normal
      is taken away from the position. */
  function ReflectPosition(position: Vec3, normal: Vec3, center: Vec3): (r: Vec3)
    ensures Cross(Subtract(r, position), normal) == Zero
    ensures IsUnit(normal) ==> SignedDistance(r, normal, center) == -SignedDistance(position, normal, center)
  {
    var cameraToCenter := Subtract(center, position);
    var n := -Dot(cameraToCenter, normal);
    var t := MultiplyByScalar(normal, 2.0 * n);
    Subtract(position, t)
  }

  /** Mirrors a direction across the plane: directions are translation
      invariant, so only the normal matters. */
  function ReflectVector(v: Vec3, normal: Vec3): (r: Vec3)
    ensures IsUnit(normal) ==> Dot(normal, r) == -Dot(normal, v)
  {
    var nv := Dot(normal, v);
    var tv := MultiplyByScalar(normal, 2.0 * nv);
    Subtract(v, tv)
  }

  /** The engine's normalisation, `v` divided by its magnitude. Without a
      square root the magnitude is supplied as a witness `m`. */
  function Normalize(v: Vec3, m: real): (r: Vec3)
    requires m > 0.0 && m * m == MagnitudeSquared(v)
    ensures IsUnit(r)
    ensures MultiplyByScalar(r, m) == v
    ensures Dot(r, v) == m
    ensures IsUnit(v) ==> r == v
  {
    var r := MultiplyByScalar(v, 1.0 / m);
    assert MagnitudeSquared(r) == MagnitudeSquared(v) / (m * m) by {
      assert MagnitudeSquared(r) == (1.0 / m) * (1.0 / m) * MagnitudeSquared(v);
    }
    assert IsUnit(v) ==> m == 1.0 by {
      if IsUnit(v) {
        assert (m - 1.0) * (m + 1.0) == 0.0;
      }
    }
    r
  }

  /** A point on the plane is left where it is, and for a unit normal only
      points on the plane are. */
  lemma ReflectPositionFixedIffOnPlane(p: Vec3, normal: Vec3, center: Vec3)
    ensures SignedDistance(p, normal, center) == 0.0 ==> ReflectPosition(p, normal, center) == p
    ensures IsUnit(normal) && ReflectPosition(p, normal, center) == p ==>
      SignedDistance(p, normal, center) == 0.0
  {
    var s := Dot(Subtract(center, p), normal);
    assert s == -SignedDistance(p, normal, center);
    if ReflectPosition(p, normal, center) == p {
      assert MultiplyByScalar(normal, 2.0 * s) == Zero;
      assert Dot(MultiplyByScalar(normal, 2.0 * s), normal) == 2.0 * s * MagnitudeSquared(normal);
    }
  }

  /** The mirrored point lies as far from the plane as the original, on the
      other side. */
  lemma ReflectPositionNegatesDistance(p: Vec3, normal: Vec3, center: Vec3)
    requires IsUnit(normal)
    ensures SignedDistance(ReflectPosition(p, normal, center), normal, center)
         == -SignedDistance(p, normal, center)
  {
    var s := Dot(Subtract(center, p), normal);
    var r := ReflectPosition(p, normal, center);
    assert Subtract(r, center) == Subtract(Subtract(p, center), MultiplyByScalar(normal, -2.0 * s));
    DotLinearLeft(Subtract(p, center), -2.0 * s, normal, normal);
  }

  /** Mirroring a point twice across the same plane gives it back. */
  lemma ReflectPositionInvolution(p: Vec3, normal: Vec3, center: Vec3)
    requires IsUnit(normal)
    ensures ReflectPosition(ReflectPosition(p, normal, center), normal, center) == p
  {
    var s := Dot(Subtract(center, p), normal);
    var r := ReflectPosition(p, normal, center);
    var t := MultiplyByScalar(normal, 2.0 * -s);
    assert r == Subtract(p, t);
    ReflectPositionNegatesDistance(p, normal, center);
    var s' := Dot(Subtract(center, r), normal);
    assert s' == -s;
    var t' := MultiplyByScalar(normal, 2.0 * -s');
    assert ReflectPosition(r, normal, center) == Subtract(r, t');
    assert t' == MultiplyByScalar(t, -1.0);
  }

  /** A reflected vector's component along the normal is negated and its
      component in the plane is unchanged. */
  lemma ReflectVectorComponents(v: Vec3, normal: Vec3)
    requires IsUnit(normal)
    ensures Dot(normal, ReflectVector(v, normal)) == -Dot(normal, v)
    ensures Tangential(ReflectVector(v, normal), normal) == Tangential(v, normal)
  {
    var k := Dot(normal, v);
    DotLinearLeft(v, 2.0 * k, normal, normal);
    DotSymmetric(normal, ReflectVector(v, normal));
    DotSymmetric(normal, v);
  }

  /** Reflection across a plane through the origin preserves dot products, so
      lengths and angles between the camera's vectors are kept. */
  lemma ReflectVectorIsometry(a: Vec3, b: Vec3, normal: Vec3)
    requires IsUnit(normal)
    ensures Dot(ReflectVector(a, normal), ReflectVector(b, normal)) == Dot(a, b)
  {
    var ka := Dot(normal, a);
    var kb := Dot(normal, b);
    var ra := ReflectVector(a, normal);
    DotLinearLeft(a, 2.0 * ka, normal, ReflectVector(b, normal));
    ReflectVectorComponents(b, normal);
    DotSymmetric(normal, ReflectVector(b, normal));
    DotSymmetric(a, ReflectVector(b, normal));
    DotLinearLeft(b, 2.0 * kb, normal, a);
    DotSymmetric(normal, a);
    DotSymmetric(a, b);
  }

  /** Reflecting a vector twice gives it back. */
  lemma ReflectVectorInvolution(v: Vec3, normal: Vec3)
    requires IsUnit(normal)
    ensures ReflectVector(ReflectVector(v, normal), normal) == v
  {
    ReflectVectorComponents(v, normal);
  }

  /** A reflection reverses orientation: the cross product of two reflected
      vectors is the negated reflection of their cross product. */
  lemma ReflectCrossHandedness(a: Vec3, b: Vec3, normal: Vec3)
    requires IsUnit(normal)
    ensures Cross(ReflectVector(a, normal), ReflectVector(b, normal))
         == MultiplyByScalar(ReflectVector(Cross(a, b), normal), -1.0)
  {
    HandednessX(a, b, normal);
    HandednessY(a, b, normal);
    HandednessZ(a, b, normal);
  }

  /** The first coordinate of `ReflectCrossHandedness`. */
  lemma HandednessX(a: Vec3, b: Vec3, normal: Vec3)
    requires IsUnit(normal)
    ensures Cross(ReflectVector(a, normal), ReflectVector(b, normal)).x
         == -ReflectVector(Cross(a, b), normal).x
  {
    var ka := Dot(normal, a);
    var kb := Dot(normal, b);
    var w := Cross(a, b);
    var kw := Dot(normal, w);
    var ra := ReflectVector(a, normal);
    var rb := ReflectVector(b, normal);
    var rw := ReflectVector(w, normal);
    HandednessScalar(a.x, a.y, a.z, b.x, b.y, b.z, normal.x, normal.y, normal.z,
                     w.x, w.y, w.z, ka, kb, kw, ra.y, ra.z, rb.y, rb.z, rw.x);
  }

  /** The second coordinate: the scalar identity with the coordinates
      shifted cyclically by one. */
  lemma HandednessY(a: Vec3, b: Vec3, normal: Vec3)
    requires IsUnit(normal)
    ensures Cross(ReflectVector(a, normal), ReflectVector(b, normal)).y
         == -ReflectVector(Cross(a, b), normal).y
  {
    var ka := Dot(normal, a);
    var kb := Dot(normal, b);
    var w := Cross(a, b);
    var kw := Dot(normal, w);
    var ra := ReflectVector(a, normal);
    var rb := ReflectVector(b, normal);
    var rw := ReflectVector(w, normal);
    HandednessScalar(a.y, a.z, a.x, b.y, b.z, b.x, normal.y, normal.z, normal.x,
                     w.y, w.z, w.x, ka, kb, kw, ra.z, ra.x, rb.z, rb.x, rw.y);
  }

  /** The third coordinate: the scalar identity with the coordinates
      shifted cyclically by two. */
  lemma HandednessZ(a: Vec3, b: Vec3, normal: Vec3)
    requires IsUnit(normal)
    ensures Cross(ReflectVector(a, normal), ReflectVector(b, normal)).z
         == -ReflectVector(Cross(a, b), normal).z
  {
    var ka := Dot(normal, a);
    var kb := Dot(normal, b);
    var w := Cross(a, b);
    var kw := Dot(normal, w);
    var ra := ReflectVector(a, normal);
    var rb := ReflectVector(b, normal);
    var rw := ReflectVector(w, normal);
    HandednessScalar(a.z, a.x, a.y, b.z, b.x, b.y, normal.z, normal.x, normal.y,
                     w.z, w.x, w.y, ka, kb, kw, ra.x, ra.y, rb.x, rb.y, rw.z);
  }

  /** The polynomial identity behind each coordinate of `ReflectCrossHandedness`, over the
      coordinates of `a`, `b`, the normal and `a x b`, the normal's dot
      products with `a`, `b` and `a x b`, and the reflected coordinates. It
      holds because the normal has unit length. */
  lemma HandednessScalar(a1: real, a2: real, a3: real, b1: real, b2: real, b3: real,
                         n1: real, n2: real, n3: real, w1: real, w2: real, w3: real,
                         ka: real, kb: real, kw: real, ra2: real, ra3: real, rb2: real, rb3: real, rw1: real)
    requires n1 * n1 + n2 * n2 + n3 * n3 == 1.0
    requires ka == n1 * a1 + n2 * a2 + n3 * a3
    requires kb == n1 * b1 + n2 * b2 + n3 * b3
    requires w1 == a2 * b3 - a3 * b2 && w2 == a3 * b1 - a1 * b3 && w3 == a1 * b2 - a2 * b1
    requires kw == n1 * w1 + n2 * w2 + n3 * w3
    requires ra2 == a2 - 2.0 * ka * n2 && ra3 == a3 - 2.0 * ka * n3
    requires rb2 == b2 - 2.0 * kb * n2 && rb3 == b3 - 2.0 * kb * n3
    requires rw1 == w1 - 2.0 * kw * n1
    ensures ra2 * rb3 - ra3 * rb2 == -rw1
  {
    assert w1 == w1 * (n1 * n1 + n2 * n2 + n3 * n3);
    assert (a2 - 2.0 * ka * n2) * (b3 - 2.0 * kb * n3) - (a3 - 2.0 * ka * n3) * (b2 - 2.0 * kb * n2)
        == -1.0 * (w1 - 2.0 * kw * n1);
  }

  /** The transform of the water reflection: the mirrored position, the
      mirrored and renormalised direction, the mirrored up vector, and a right
      vector recomputed as up' x direction'. Everything else is cloned. The
      normal must be a unit vector; the engine keeps `directionWC` a unit
      vector, which lets the renormalisation be computed exactly. */
  function GetMirrorCamera(camera: Camera, normal: Vec3, center: Vec3): (r: Camera)
    requires IsUnit(normal) && IsUnit(camera.direction)
    ensures SignedDistance(r.position, normal, center) == -SignedDistance(camera.position, normal, center)
    ensures Cross(Subtract(r.position, camera.position), normal) == Zero
    ensures Dot(normal, r.direction) == -Dot(normal, camera.direction)
    ensures Tangential(r.direction, normal) == Tangential(camera.direction, normal)
    ensures Dot(normal, r.up) == -Dot(normal, camera.up)
    ensures Tangential(r.up, normal) == Tangential(camera.up, normal)
    ensures IsUnit(r.direction)
    ensures MagnitudeSquared(r.up) == MagnitudeSquared(camera.up)
    ensures Dot(r.up, r.direction) == Dot(camera.up, camera.direction)
    ensures r.right == Cross(r.up, r.direction)
    ensures Orthogonal(r.right, r.up) && Orthogonal(r.right, r.direction)
    ensures r.frustum == camera.frustum
  {
    var position := ReflectPosition(camera.position, normal, center);
    var reflected := ReflectVector(camera.direction, normal);
    ReflectVectorIsometry(camera.direction, camera.direction, normal);
    var direction := Normalize(reflected, 1.0);
    var up := ReflectVector(camera.up, normal);
    ReflectPositionNegatesDistance(camera.position, normal, center);
    ReflectVectorComponents(camera.direction, normal);
    ReflectVectorComponents(camera.up, normal);
    ReflectVectorIsometry(camera.up, camera.up, normal);
    ReflectVectorIsometry(camera.up, camera.direction, normal);
    CrossOrthogonal(up, direction);
    camera.(position := position, up := up, direction := direction, right := Cross(up, direction))
  }

  /** Direction, up and right are unit vectors and pairwise orthogonal. */
  predicate OrthonormalFrame(camera: Camera) {
    && IsUnit(camera.direction) && IsUnit(camera.up) && IsUnit(camera.right)
    && Orthogonal(camera.direction, camera.up)
    && Orthogonal(camera.right, camera.direction)
    && Orthogonal(camera.right, camera.up)
  }

  /** When direction and up are orthonormal, the mirror camera has an
      orthonormal direction, up and right, whatever the input's right vector
      was: the right vector is recomputed, never read. */
  lemma MirrorCameraKeepsOrthonormalFrame(camera: Camera, normal: Vec3, center: Vec3)
    requires IsUnit(normal)
    requires IsUnit(camera.direction) && IsUnit(camera.up) && Orthogonal(camera.direction, camera.up)
    ensures OrthonormalFrame(GetMirrorCamera(camera, normal, center))
  {
    var r := GetMirrorCamera(camera, normal, center);
    LagrangeIdentity(r.up, r.direction);
    DotSymmetric(r.up, r.direction);
  }

  /** With the engine's convention right = direction x up, the order
      up' x direction' makes the mirrored right vector the mirror image of the
      original right vector. */
  lemma MirrorCameraRightIsMirroredRight(camera: Camera, normal: Vec3, center: Vec3)
    requires IsUnit(normal) && IsUnit(camera.direction)
    requires camera.right == Cross(camera.direction, camera.up)
    ensures GetMirrorCamera(camera, normal, center).right == ReflectVector(camera.right, normal)
  {
    var r := GetMirrorCamera(camera, normal, center);
    ReflectVectorIsometry(camera.direction, camera.direction, normal);
    assert r.direction == ReflectVector(camera.direction, normal);
    ReflectCrossHandedness(camera.up, camera.direction, normal);
    CrossAntiCommutative(camera.up, camera.direction);
    var w := Cross(camera.up, camera.direction);
    ReflectVectorNegate(w, normal);
  }

  /** Reflection commutes with negation. */
  lemma ReflectVectorNegate(v: Vec3, normal: Vec3)
    ensures ReflectVector(MultiplyByScalar(v, -1.0), normal)
         == MultiplyByScalar(ReflectVector(v, normal), -1.0)
  {
    var k := Dot(normal, v);
    var w := MultiplyByScalar(v, -1.0);
    assert Dot(normal, w) == -k;
    var rv := Subtract(v, MultiplyByScalar(normal, 2.0 * k));
    var rw := Subtract(w, MultiplyByScalar(normal, 2.0 * -k));
    assert ReflectVector(v, normal) == rv;
    assert ReflectVector(w, normal) == rw;
    assert rw == MultiplyByScalar(rv, -1.0);
  }

  /** Mirroring twice restores position, direction and up. The right vector is
      recomputed as up x direction, so for a camera following the engine's
      convention it comes back negated rather than restored. */
  lemma MirrorCameraTwice(camera: Camera, normal: Vec3, center: Vec3)
    requires IsUnit(normal) && IsUnit(camera.direction)
    ensures GetMirrorCamera(GetMirrorCamera(camera, normal, center), normal, center)
         == camera.(right := Cross(camera.up, camera.direction))
    ensures camera.right == Cross(camera.direction, camera.up) ==>
      GetMirrorCamera(GetMirrorCamera(camera, normal, center), normal, center).right
        == MultiplyByScalar(camera.right, -1.0)
  {
    var r := GetMirrorCamera(camera, normal, center);
    ReflectVectorIsometry(camera.direction, camera.direction, normal);
    assert r.direction == ReflectVector(camera.direction, normal);
    ReflectVectorIsometry(r.direction, r.direction, normal);
    ReflectPositionInvolution(camera.position, normal, center);
    ReflectVectorInvolution(camera.direction, normal);
    ReflectVectorInvolution(camera.up, normal);
    CrossAntiCommutative(camera.direction, camera.up);
  }

  /** Over a horizontal plane, a camera looking straight along the normal is
      moved to the same distance on the other side and looks the other way; a
      horizontal up vector is kept. */
  lemma HorizontalPlaneMirror(camera: Camera, center: Vec3)
    requires camera.direction.x == 0.0 && camera.direction.y == 0.0 && IsUnit(camera.direction)
    requires camera.up.z == 0.0
    ensures var r := GetMirrorCamera(camera, Vec3(0.0, 0.0, 1.0), center);
            && r.position == Vec3(camera.position.x, camera.position.y, 2.0 * center.z - camera.position.z)
            && r.direction == Vec3(0.0, 0.0, -camera.direction.z)
            && r.up == camera.up
            && r.right == Cross(camera.up, Vec3(0.0, 0.0, -camera.direction.z))
  {
    var normal := Vec3(0.0, 0.0, 1.0);
    assert IsUnit(normal);
    assert ReflectVector(camera.direction, normal) == Vec3(0.0, 0.0, -camera.direction.z);
    assert ReflectVector(camera.up, normal) == camera.up;
  }

  /** A camera five units above the plane z = 0, looking straight down: its
      mirror image is five units below, looking straight up. */
  lemma MirrorCameraExample(f: Frustum)
    ensures var r := GetMirrorCamera(Camera(Vec3(0.0, 0.0, 5.0), Vec3(0.0, 0.0, -1.0),
                                            Vec3(0.0, 1.0, 0.0), Vec3(1.0, 0.0, 0.0), f),
                                     Vec3(0.0, 0.0, 1.0), Zero);
            && r.position == Vec3(0.0, 0.0, -5.0)
            && r.direction == Vec3(0.0, 0.0, 1.0)
            && r.up == Vec3(0.0, 1.0, 0.0)
            && r.right == Vec3(1.0, 0.0, 0.0)
  {
    HorizontalPlaneMirror(Camera(Vec3(0.0, 0.0, 5.0), Vec3(0.0, 0.0, -1.0),
                                 Vec3(0.0, 1.0, 0.0), Vec3(1.0, 0.0, 0.0), f), Zero);
  }
}
