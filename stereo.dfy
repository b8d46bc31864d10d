/** The stereo camera of the renderer: the fixed camera constants, the two eye
    positions, the asymmetric frustum bounds and the view-projection terms of
    the Toe-in and Asymmetric modes, all over the reals. The results of
    normalize, cross and tan are inputs (a Lens); glm::lookAt, glm::frustum and
    glm::perspective stay uninterpreted terms. */
module Stereo {
  import opened Linear

  const FoV: real := 45.0
  const ZNear: real := 0.1
  const ZFar: real := 1000.0
  const WindowWidth: int := 1024
  const WindowHeight: int := 768
  /** float(windowWidth) / float(windowHeight) */
  const Aspect: real := (WindowWidth as real) / (WindowHeight as real)
  /** the orbit radius, used as the convergence distance of the Asymmetric mode */
  const ViewDistance: real := 100.0
  const Lookat: Vec3 := Vec3(0.0, 0.0, 0.0)
  const Up: Vec3 := Vec3(0.0, 1.0, 0.0)

  /** The perspective camera set once before the frame loop. */
  const Projection: Mat4 := Perspective(FoV, Aspect, ZNear, ZFar)

  /** What the frame computes with normalize, cross and tan:
      rightDir = normalize(cross(lookat - eyeCenter, up)),
      forwardDir = normalize(lookat - eyeCenter),
      tanHalfFov = tan(radians(FoV / 2)). */
  datatype Lens = Lens(rightDir: Vec3, forwardDir: Vec3, tanHalfFov: real)

  /** Lens directions as normalize and cross deliver them for a valid pose:
      two orthogonal unit vectors. */
  ghost predicate Orthonormal(lens: Lens)
  {
    Dot(lens.rightDir, lens.rightDir) == 1.0 && Dot(lens.forwardDir, lens.forwardDir) == 1.0
    && Dot(lens.rightDir, lens.forwardDir) == 0.0
  }

  // ---------------------------------------------------------------------------
  // Eye positions (shared by both stereo modes)

  function LeftEyePos(eyeCenter: Vec3, ipd: real, rightDir: Vec3): (eye: Vec3)
    ensures Add(eye, Scale(0.5 * ipd, rightDir)) == eyeCenter
  {
    Sub(eyeCenter, Scale(0.5 * ipd, rightDir))
  }

  function RightEyePos(eyeCenter: Vec3, ipd: real, rightDir: Vec3): (eye: Vec3)
    ensures Sub(eye, Scale(0.5 * ipd, rightDir)) == eyeCenter
  {
    Add(eyeCenter, Scale(0.5 * ipd, rightDir))
  }

  /** The eyes straddle the mono eye: their midpoint is eyeCenter, they differ
      by ipd along rightDir, and with ipd = 0 both are the mono eye. */
  lemma EyesStraddleCenter(eyeCenter: Vec3, ipd: real, rightDir: Vec3)
    ensures Scale(0.5, Add(LeftEyePos(eyeCenter, ipd, rightDir), RightEyePos(eyeCenter, ipd, rightDir))) == eyeCenter
    ensures Sub(RightEyePos(eyeCenter, ipd, rightDir), LeftEyePos(eyeCenter, ipd, rightDir)) == Scale(ipd, rightDir)
    ensures ipd == 0.0 ==> LeftEyePos(eyeCenter, ipd, rightDir) == eyeCenter == RightEyePos(eyeCenter, ipd, rightDir)
  {
  }

  lemma DotOfScaled(k: real, u: Vec3)
    ensures Dot(Scale(k, u), Scale(k, u)) == k * k * Dot(u, u)
  {
    calc {
      Dot(Scale(k, u), Scale(k, u));
      (k * u.x) * (k * u.x) + (k * u.y) * (k * u.y) + (k * u.z) * (k * u.z);
      k * k * (u.x * u.x + u.y * u.y + u.z * u.z);
    }
  }

  /** With a unit rightDir the squared distance between the eyes is ipd². */
  lemma EyeSeparation(eyeCenter: Vec3, ipd: real, rightDir: Vec3)
    requires Dot(rightDir, rightDir) == 1.0
    ensures var d := Sub(RightEyePos(eyeCenter, ipd, rightDir), LeftEyePos(eyeCenter, ipd, rightDir));
            Dot(d, d) == ipd * ipd
  {
    EyesStraddleCenter(eyeCenter, ipd, rightDir);
    DotOfScaled(ipd, rightDir);
  }

  // ---------------------------------------------------------------------------
  // Asymmetric frustum bounds

  datatype Bounds = Bounds(left: real, right: real, bottom: real, top: real)

  /** top = zNear * tan(radians(FoV / 2)) */
  function HalfHeight(zNear: real, tanHalfFov: real): real
  {
    zNear * tanHalfFov
  }

  /** rightVal = top * aspect */
  function HalfWidth(top: real, aspect: real): real
  {
    top * aspect
  }

  /** frustumShift = 0.5 * ipd * (zNear / viewDistance): how far each eye's
      frustum is slid sideways so that both meet at the convergence distance. */
  function FrustumShift(ipd: real, zNear: real, viewDistance: real): (shift: real)
    requires viewDistance != 0.0
    ensures shift == 0.0 <==> ipd == 0.0 || zNear == 0.0
    ensures ipd >= 0.0 && zNear >= 0.0 && viewDistance > 0.0 ==> shift >= 0.0
  {
    0.5 * ipd * (zNear / viewDistance)
  }

  /** The left eye's frustum is shifted to the right by frustumShift. */
  function LeftEyeBounds(rightVal: real, top: real, shift: real): (b: Bounds)
    ensures b.left + b.right == 2.0 * shift && b.right - b.left == 2.0 * rightVal
    ensures b.bottom == -b.top == -top
  {
    Bounds(-rightVal + shift, rightVal + shift, -top, top)
  }

  /** The right eye's frustum is shifted to the left by frustumShift. */
  function RightEyeBounds(rightVal: real, top: real, shift: real): (b: Bounds)
    ensures b.left + b.right == -2.0 * shift && b.right - b.left == 2.0 * rightVal
    ensures b.bottom == -b.top == -top
  {
    Bounds(-rightVal - shift, rightVal - shift, -top, top)
  }

  /** Both frusta keep the symmetric width and height whatever the ipd; the
      left one is the right one moved by 2·shift; they mirror each other; and
      with no shift they are the same symmetric frustum. */
  lemma FrustumBoundsRelation(rightVal: real, top: real, shift: real)
    ensures var l, r := LeftEyeBounds(rightVal, top, shift), RightEyeBounds(rightVal, top, shift);
            && l.right - l.left == 2.0 * rightVal == r.right - r.left
            && l.top - l.bottom == 2.0 * top == r.top - r.bottom
            && l.left == r.left + 2.0 * shift && l.right == r.right + 2.0 * shift
            && l.left == -r.right && l.right == -r.left
            && (shift == 0.0 ==> l == r == Bounds(-rightVal, rightVal, -top, top))
  {
  }

  /** The horizontal normalized-device coordinate that a glm::frustum(l, r, b,
      t, zNear, zFar) projection gives a point lying `lateral` to the right of
      the eye's optical axis and `depth` in front of the eye. */
  function NdcX(b: Bounds, zNear: real, lateral: real, depth: real): real
    requires depth > 0.0 && b.right != b.left
  {
    (2.0 * zNear * lateral / depth - (b.right + b.left)) / (b.right - b.left)
  }

  lemma DotOfCombination(a: real, u: Vec3, c: real, v: Vec3, w: Vec3)
    ensures Dot(Add(Scale(a, u), Scale(c, v)), w) == a * Dot(u, w) + c * Dot(v, w)
  {
    calc {
      Dot(Add(Scale(a, u), Scale(c, v)), w);
      (a * u.x + c * v.x) * w.x + (a * u.y + c * v.y) * w.y + (a * u.z + c * v.z) * w.z;
      a * (u.x * w.x + u.y * w.y + u.z * w.z) + c * (v.x * w.x + v.y * w.y + v.z * w.z);
    }
  }

  /** A point `along` units straight ahead of the mono eye, seen from an eye
      displaced by `offset` along rightDir, lies -offset to the side and `along`
      deep. */
  lemma EyeCoordinatesOfForwardPoint(eyeCenter: Vec3, offset: real, along: real, lens: Lens)
    requires Orthonormal(lens)
    ensures var p := Add(eyeCenter, Scale(along, lens.forwardDir));
            var eye := Add(eyeCenter, Scale(offset, lens.rightDir));
            Dot(Sub(p, eye), lens.rightDir) == -offset && Dot(Sub(p, eye), lens.forwardDir) == along
  {
    var p := Add(eyeCenter, Scale(along, lens.forwardDir));
    var eye := Add(eyeCenter, Scale(offset, lens.rightDir));
    assert Sub(p, eye) == Add(Scale(along, lens.forwardDir), Scale(-offset, lens.rightDir));
    DotOfCombination(along, lens.forwardDir, -offset, lens.rightDir, lens.rightDir);
    DotOfCombination(along, lens.forwardDir, -offset, lens.rightDir, lens.forwardDir);
  }

  /** Asymmetric mode: a point straight ahead of the mono eye sits ipd/2 to
      the right of the left eye's axis and ipd/2 to the left of the right
      eye's, at the same depth; it lands at mirrored screen positions in the
      two eyes, and at the convergence distance (viewDistance) at the same
      position, the centre: zero parallax there. */
  lemma AsymmetricParallax(eyeCenter: Vec3, ipd: real, lens: Lens, zNear: real, rightVal: real, top: real,
                           viewDistance: real, along: real)
    requires Orthonormal(lens)
    requires rightVal > 0.0 && viewDistance > 0.0 && along > 0.0
    ensures var p := Add(eyeCenter, Scale(along, lens.forwardDir));
            var leftEye, rightEye := LeftEyePos(eyeCenter, ipd, lens.rightDir), RightEyePos(eyeCenter, ipd, lens.rightDir);
            && Dot(Sub(p, leftEye), lens.rightDir) == 0.5 * ipd && Dot(Sub(p, leftEye), lens.forwardDir) == along
            && Dot(Sub(p, rightEye), lens.rightDir) == -(0.5 * ipd) && Dot(Sub(p, rightEye), lens.forwardDir) == along
    ensures var shift := FrustumShift(ipd, zNear, viewDistance);
            var xl := NdcX(LeftEyeBounds(rightVal, top, shift), zNear, 0.5 * ipd, along);
            var xr := NdcX(RightEyeBounds(rightVal, top, shift), zNear, -(0.5 * ipd), along);
            && xl == (zNear * (0.5 * ipd) / along - shift) / rightVal
            && xr == -xl
            && (along == viewDistance ==> xl == 0.0 == xr)
  {
    ForwardPointFromEyes(eyeCenter, ipd, lens, along);
    var shift := FrustumShift(ipd, zNear, viewDistance);
    MirroredNdcX(zNear, rightVal, top, shift, ipd, along);
    var offset := zNear * (0.5 * ipd) / along - shift;
    if along == viewDistance {
      ShiftMatchesConvergence(zNear, ipd, viewDistance);
      assert offset == 0.0;
    }
  }

  /** The forward point lies ipd/2 right of the left eye's axis and ipd/2 left
      of the right eye's, at the same depth. */
  lemma ForwardPointFromEyes(eyeCenter: Vec3, ipd: real, lens: Lens, along: real)
    requires Orthonormal(lens)
    ensures var p := Add(eyeCenter, Scale(along, lens.forwardDir));
            var leftEye, rightEye := LeftEyePos(eyeCenter, ipd, lens.rightDir), RightEyePos(eyeCenter, ipd, lens.rightDir);
            && Dot(Sub(p, leftEye), lens.rightDir) == 0.5 * ipd && Dot(Sub(p, leftEye), lens.forwardDir) == along
            && Dot(Sub(p, rightEye), lens.rightDir) == -(0.5 * ipd) && Dot(Sub(p, rightEye), lens.forwardDir) == along
  {
    var h := 0.5 * ipd;
    assert LeftEyePos(eyeCenter, ipd, lens.rightDir) == Add(eyeCenter, Scale(-h, lens.rightDir));
    EyeCoordinatesOfForwardPoint(eyeCenter, -h, along, lens);
    EyeCoordinatesOfForwardPoint(eyeCenter, h, along, lens);
  }

  /** The two shifted frusta place the mirrored lateral offsets ±ipd/2 at
      mirrored screen positions. */
  lemma MirroredNdcX(zNear: real, rightVal: real, top: real, shift: real, ipd: real, along: real)
    requires rightVal > 0.0 && along > 0.0
    ensures NdcX(LeftEyeBounds(rightVal, top, shift), zNear, 0.5 * ipd, along)
            == (zNear * (0.5 * ipd) / along - shift) / rightVal
    ensures NdcX(RightEyeBounds(rightVal, top, shift), zNear, -(0.5 * ipd), along)
            == -((zNear * (0.5 * ipd) / along - shift) / rightVal)
  {
    var h := 0.5 * ipd;
    var a := zNear * h / along;
    NdcXOfCentredBounds(LeftEyeBounds(rightVal, top, shift), zNear, h, along, shift, rightVal);
    NdcXOfCentredBounds(RightEyeBounds(rightVal, top, shift), zNear, -h, along, -shift, rightVal);
    DivScale(-1.0, zNear * h, along);
    assert zNear * (-h) == -1.0 * (zNear * h);
    assert zNear * (-h) / along == -a;
    Negate(a, shift, rightVal);
  }

  /** At the convergence distance the eye's lateral offset, projected to the
      near plane, is exactly the frustum shift. */
  lemma ShiftMatchesConvergence(zNear: real, ipd: real, viewDistance: real)
    requires viewDistance > 0.0
    ensures zNear * (0.5 * ipd) / viewDistance == FrustumShift(ipd, zNear, viewDistance)
  {
    DivScale(0.5 * ipd, zNear, viewDistance);
    assert zNear * (0.5 * ipd) == 0.5 * ipd * zNear;
  }

  /** NdcX for bounds centred on `centre` with half-width `halfWidth`. */
  lemma NdcXOfCentredBounds(b: Bounds, zNear: real, lateral: real, depth: real, centre: real, halfWidth: real)
    requires depth > 0.0 && halfWidth != 0.0
    requires b.right + b.left == 2.0 * centre && b.right - b.left == 2.0 * halfWidth
    ensures NdcX(b, zNear, lateral, depth) == (zNear * lateral / depth - centre) / halfWidth
  {
    DivScale(2.0, zNear * lateral, depth);
    assert 2.0 * zNear * lateral == 2.0 * (zNear * lateral);
    var x := zNear * lateral / depth;
    assert NdcX(b, zNear, lateral, depth) == (2.0 * x - 2.0 * centre) / (2.0 * halfWidth);
    HalveQuotient(x, centre, halfWidth);
  }

  lemma Negate(x: real, y: real, z: real)
    requires z != 0.0
    ensures (-x - -y) / z == -((x - y) / z)
  {
  }

  lemma DivScale(c: real, x: real, d: real)
    requires d != 0.0
    ensures (c * x) / d == c * (x / d)
  {
  }

  lemma HalveQuotient(x: real, y: real, z: real)
    requires z != 0.0
    ensures (2.0 * x - 2.0 * y) / (2.0 * z) == (x - y) / z
  {
  }

  // ---------------------------------------------------------------------------
  // View-projection terms of each mode

  /** The mono camera: the fixed projection times lookAt(eyeCenter, lookat, up). */
  function MonoViewProjection(eyeCenter: Vec3): Mat4
  {
    Product(Projection, LookAt(eyeCenter, Lookat, Up))
  }

  /** Toe-in: both eyes keep the shared projection and rotate to look at the
      same lookat point. */
  function ToeInViews(eyeCenter: Vec3, ipd: real, lens: Lens): (views: (Mat4, Mat4))
  {
    (Product(Projection, LookAt(LeftEyePos(eyeCenter, ipd, lens.rightDir), Lookat, Up)),
     Product(Projection, LookAt(RightEyePos(eyeCenter, ipd, lens.rightDir), Lookat, Up)))
  }

  /** Asymmetric frustum: both eyes look along forwardDir from their own
      position, through frusta slid towards each other. */
  function AsymmetricViews(eyeCenter: Vec3, ipd: real, lens: Lens): (views: (Mat4, Mat4))
  {
    var top := HalfHeight(ZNear, lens.tanHalfFov);
    var rightVal := HalfWidth(top, Aspect);
    var shift := FrustumShift(ipd, ZNear, ViewDistance);
    var l := LeftEyeBounds(rightVal, top, shift);
    var r := RightEyeBounds(rightVal, top, shift);
    var leftEye := LeftEyePos(eyeCenter, ipd, lens.rightDir);
    var rightEye := RightEyePos(eyeCenter, ipd, lens.rightDir);
    (Product(Frustum(l.left, l.right, -top, top, ZNear, ZFar), LookAt(leftEye, Add(leftEye, lens.forwardDir), Up)),
     Product(Frustum(r.left, r.right, -top, top, ZNear, ZFar), LookAt(rightEye, Add(rightEye, lens.forwardDir), Up)))
  }

  /** Toe-in: both eyes aim at the same point with the same projection, and
      with ipd = 0 both eyes see exactly the mono view. */
  lemma ToeInConverges(eyeCenter: Vec3, ipd: real, lens: Lens)
    ensures var (l, r) := ToeInViews(eyeCenter, ipd, lens);
            && l.Product? && r.Product? && l.lhs == r.lhs == Projection
            && l.rhs.LookAt? && r.rhs.LookAt? && l.rhs.center == r.rhs.center == Lookat
            && (ipd == 0.0 ==> l == r == MonoViewProjection(eyeCenter))
  {
    EyesStraddleCenter(eyeCenter, ipd, lens.rightDir);
  }

  /** Asymmetric: both eyes look in the same direction (parallel axes), their
      frusta are the mirrored shifted bounds, and with ipd = 0 both eyes get
      the same symmetric frustum from the mono eye. */
  lemma AsymmetricStaysParallel(eyeCenter: Vec3, ipd: real, lens: Lens)
    ensures var (l, r) := AsymmetricViews(eyeCenter, ipd, lens);
            && l.Product? && r.Product? && l.rhs.LookAt? && r.rhs.LookAt?
            && Sub(l.rhs.center, l.rhs.eye) == Sub(r.rhs.center, r.rhs.eye) == lens.forwardDir
            && l.lhs.Frustum? && r.lhs.Frustum?
            && l.lhs.left == -r.lhs.right && l.lhs.right == -r.lhs.left
    ensures ipd == 0.0 ==>
              var top := HalfHeight(ZNear, lens.tanHalfFov);
              var rightVal := HalfWidth(top, Aspect);
              AsymmetricViews(eyeCenter, ipd, lens).0 == AsymmetricViews(eyeCenter, ipd, lens).1
              == Product(Frustum(-rightVal, rightVal, -top, top, ZNear, ZFar),
                         LookAt(eyeCenter, Add(eyeCenter, lens.forwardDir), Up))
  {
    EyesStraddleCenter(eyeCenter, ipd, lens.rightDir);
  }

  /** The worked scenario of the defaults: ipd 2 at zNear 0.1 and distance 100
      slides each eye's frustum by 0.001, the left one to the right and the
      right one to the left. */
  lemma DefaultShift(eyeCenter: Vec3, lens: Lens)
    ensures FrustumShift(2.0, ZNear, ViewDistance) == 0.001
    ensures var rightVal := HalfWidth(HalfHeight(ZNear, lens.tanHalfFov), Aspect);
            var (l, r) := AsymmetricViews(eyeCenter, 2.0, lens);
            && l.Product? && l.lhs.Frustum? && r.Product? && r.lhs.Frustum?
            && l.lhs.left == -rightVal + 0.001 && l.lhs.right == rightVal + 0.001
            && r.lhs.left == -rightVal - 0.001 && r.lhs.right == rightVal - 0.001
  {
  }
}
