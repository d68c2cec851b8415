# Water reflection: mirror camera, centre point and option defaults

A Dafny model of the geometric core of the `WaterReflection` component of a
Cesium-based examples repository. The component renders a planar water
reflection: it builds a camera mirrored in the water plane, and it has a
helper that averages the water boundary positions into a centre point. Its
constructor merges the caller's options over a fixed set of defaults.

Vectors are immutable `real` triples (`Cartesian3.Vec3`). Every engine call
that writes into a result vector becomes a pure function, so the input camera
and its vectors are never modified: each result is a fresh value.

- `cartesian3.dfy` (module `Cartesian3`): the vector arithmetic the component
  uses (add, subtract, scale, dot, cross), with the identities the proofs need.
- `mirror_camera.dfy` (module `MirrorCamera`): `getMirrorCamera`. It covers the
  position reflection `pos - 2·s·n` with `s = -((center - pos)·n)`, the
  direction and up reflection `v - 2(n·v)n`, the renormalisation of the
  direction, and the right vector `cross(up', direction')`.
- `center_point.dfy` (module `CenterPoint`): `calcCenterPoint`. The model
  accumulates the positions in order and scales the total by one over the count.
- `options.dfy` (module `WaterOptions`): the constructor's
  `Object.assign(defaults, options)`. It is modelled twice: as a typed merge
  over optional fields, and as a key-by-key assignment of one object onto
  another. A lemma proves the two agree.
- `optional.dfy` (module `Optional`): `Option`, a value that may be absent.

Notes on how the model reads the code:

- The engine's `normalize` divides a vector by its square root length, and
  Dafny has no square root. `MirrorCamera.Normalize` therefore takes the
  magnitude as a witness `m` with `m > 0` and `m·m = |v|²`. `GetMirrorCamera`
  requires a unit normal and a unit `directionWC`. It proves that the reflected
  direction is a unit vector, so the normalisation is applied with `m = 1` and
  leaves the direction unchanged.
- The right vector is recomputed as `cross(up', direction')`. The engine's
  camera convention is `right = direction × up`. With that convention, the
  mirrored right vector is exactly the mirror image of the original right
  vector (`MirrorCameraRightIsMirroredRight`). Because right is recomputed and
  not reflected, mirroring twice does not give back the full camera.
  Position, direction and up are restored, but the right vector comes back
  negated (`MirrorCameraTwice`). So "reflecting twice is the identity" holds
  for position, direction and up only.
- `calcCenterPoint` as written computes the centre but never returns it
  (src/composables/Offscreen/WaterReflection.ts:112). On an empty list it
  divides by zero, which in floating point yields a NaN vector. The model
  returns the centre it computes. For an empty list it returns `None`, the
  real-number counterpart of "no meaningful result", since the code has no
  guard that would raise an error. The `height` parameter is accepted and
  unused, as in the code.

## Model

| member | source | states |
|---|---|---|
| `MirrorCamera.ReflectPosition` | src/composables/Offscreen/WaterReflection.ts:59-66 | the camera position is mirrored in the plane: it is moved along the normal only, and for a unit normal it ends at the negated signed distance from the plane |
| `MirrorCamera.ReflectPositionFixedIffOnPlane` | src/composables/Offscreen/WaterReflection.ts:60-66 | a camera position on the plane is not moved; for a unit normal, only positions on the plane are left unmoved |
| `MirrorCamera.ReflectPositionNegatesDistance` | src/composables/Offscreen/WaterReflection.ts:60-66 | for a unit normal, the mirrored position's signed distance to the plane is the negation of the original's |
| `MirrorCamera.ReflectPositionInvolution` | src/composables/Offscreen/WaterReflection.ts:60-66 | for a unit normal, mirroring a position twice gives it back |
| `MirrorCamera.ReflectVector` | src/composables/Offscreen/WaterReflection.ts:68-82 | the reflection `v - 2(n·v)n` of direction and up: for a unit normal, the component along the normal is negated |
| `MirrorCamera.ReflectVectorComponents` | src/composables/Offscreen/WaterReflection.ts:68-82 | for a unit normal, reflecting direction or up negates its component along the normal and keeps its component in the plane |
| `MirrorCamera.ReflectVectorIsometry` | src/composables/Offscreen/WaterReflection.ts:68-82 | for a unit normal, the reflection of direction and up preserves dot products, hence lengths and the angle between them |
| `MirrorCamera.ReflectVectorInvolution` | src/composables/Offscreen/WaterReflection.ts:68-82 | for a unit normal, reflecting a vector twice gives it back |
| `MirrorCamera.ReflectCrossHandedness` | src/composables/Offscreen/WaterReflection.ts:68-91 | the reflection reverses orientation: the cross product of two reflected vectors is the negated reflection of their cross product |
| `MirrorCamera.Normalize` | src/composables/Offscreen/WaterReflection.ts:74-75 | normalising gives a unit vector that times the magnitude is the input; an input that is already unit is unchanged |
| `MirrorCamera.GetMirrorCamera` | src/composables/Offscreen/WaterReflection.ts:58-94 | the mirror camera lies at the negated signed distance and was moved along the normal only; direction and up have their normal parts negated and plane parts kept; the direction is unit; up keeps its length and its angle to the direction; right is up' × direction' and orthogonal to both; the cloned settings are unchanged |
| `MirrorCamera.MirrorCameraKeepsOrthonormalFrame` | src/composables/Offscreen/WaterReflection.ts:68-91 | a camera whose direction and up are orthonormal is mirrored into a camera whose direction, up and right are orthonormal, whatever its right vector was, because right is recomputed and never read |
| `MirrorCamera.MirrorCameraRightIsMirroredRight` | src/composables/Offscreen/WaterReflection.ts:90-91 | with right = direction × up, the order up' × direction' makes the new right vector the mirror image of the old one |
| `MirrorCamera.MirrorCameraTwice` | src/composables/Offscreen/WaterReflection.ts:58-94 | mirroring twice restores position, direction and up; the right vector is recomputed as up × direction, which for right = direction × up is the negated original |
| `MirrorCamera.HorizontalPlaneMirror` | src/composables/Offscreen/WaterReflection.ts:58-94 | over a horizontal plane, a camera looking along the normal moves to the mirrored height and looks the other way, keeping a horizontal up vector |
| `MirrorCamera.MirrorCameraExample` | src/composables/Offscreen/WaterReflection.ts:58-94 | a camera at (0,0,5) looking down (0,0,-1) with up (0,1,0) over z = 0 mirrors to (0,0,-5) looking up (0,0,1) with up (0,1,0) and right (1,0,0) |
| `CenterPoint.CalcCenterPoint` | src/composables/Offscreen/WaterReflection.ts:102-113 | the loop's total is the sum of the positions; the centre times the count is that sum; there is no centre exactly when the list is empty |
| `CenterPoint.Centroid` | src/composables/Offscreen/WaterReflection.ts:102-112 | the centre of a non-empty list is the point that, times the count, equals the in-order total of the positions; an empty list has none |
| `CenterPoint.SumDotConstant` | src/composables/Offscreen/WaterReflection.ts:104-109 | when every position has the same dot product with a vector, the total's dot product is the count times that value |
| `CenterPoint.CentroidOnPlane` | src/composables/Offscreen/WaterReflection.ts:102-112 | when every boundary position lies on a plane, for example all at one height, the centre point lies on the same plane |
| `CenterPoint.CentroidExample` | src/composables/Offscreen/WaterReflection.ts:102-112 | the centre of (0,0,0), (2,0,0), (0,2,0), (2,2,0) is (1,1,0) |
| `WaterOptions.Assign` | src/composables/Offscreen/WaterReflection.ts:29-39 | shallow assignment keeps the keys of both objects; every key of the caller's object wins, even one holding undefined; the other keys keep the default |
| `WaterOptions.MergeOptions` | src/composables/Offscreen/WaterReflection.ts:29-39 | every omitted option takes its listed default (`positions = []`, colour `rgba(45, 95, 146, 1.0)`, `frequency = 2000`, `animationSpeed = 0.01`, `amplitude = 0.1`, `specularIntensity = 0.5`, `fresnelParams = [0.8, 1.0, 5]`, `models = []`, `height = 0`); every supplied option wins |
| `WaterOptions.MergeValueAt` | src/composables/Offscreen/WaterReflection.ts:29-39 | key by key, the merged value is the caller's when given and the default otherwise |
| `WaterOptions.MergeIsAssign` | src/composables/Offscreen/WaterReflection.ts:29-39 | the typed merge, read as an object, is the shallow assignment of the caller's object onto the object of defaults |
| `WaterOptions.MergeNoOptionsIsDefaults` | src/composables/Offscreen/WaterReflection.ts:27-39 | constructing without options gives exactly the defaults, and merging a complete set of options again changes nothing |

## Left out

- Clip-plane management: the component only sets its clip-plane collection list to empty (src/composables/Offscreen/WaterReflection.ts:41). `createWaterPlane` and `bindEvents`, called from `init` (lines 46-49), are not defined in the source, so there is no register, unregister or height-update behaviour to model.
- Rendering, the viewer, event binding and the off-screen render target are host-engine concerns with no logic in the component.
- src/utils/Offscreen/WaterReflection.ts repeats the constructor and `init` of the modelled file without further logic, so the model covers it.
- src/utils/Geometry/FrustumVisualizer.ts is an unfinished stub. It has two `||`-defaulted options and empty primitives, with no algorithm.
- Cloning the camera is modelled by carrying a `Frustum` record through unchanged. The engine camera's other state is not modelled.
- The camera's reference-frame transform is not modelled. The code reads `position` in the camera's reference frame and `directionWC` and `upWC` in world coordinates. The model treats all of them as world coordinates, which is the case for the identity transform.
- Floating-point rounding and NaN propagation are not modelled; arithmetic is over the reals.
- MirrorCamera.GetMirrorCamera: requires a unit normal and a unit `directionWC`. The code does not check either. The normal's unit length is the caller's responsibility, and the engine keeps `directionWC` unit. Without these, the reflection is not a mirror and the normalisation needs a square root.
- CenterPoint.CalcCenterPoint: returns the centre, which the code computes but does not return. For an empty list it returns `None`, where the code produces a NaN vector.
- WaterOptions.MergeOptions: the typed options cannot hold a key that is present with the value `undefined`. That case is covered only by `WaterOptions.Assign`, which copies such a key over its default.
- The `positions` option is declared as an array of one-number tuples in the options interface. The model uses it as a list of points, which is how the centre-point helper consumes positions.
- The visual meaning of the colour, frequency, speed, amplitude, specular and Fresnel options is not modelled. Only their defaulting is.
