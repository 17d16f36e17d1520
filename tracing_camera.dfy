/** The pinhole camera of the CPU path tracer (src/path_tracing/tracing_camera.rs):
    an origin and a basis (forward, left, up), the basis updates made by the
    rotation controls, and the pixel loop that shoots one ray per pixel. */
module Cameras {
  import opened Vectors
  import opened Cubes
  import opened Scenes
  import opened RenderImages
  import opened RowMajor
  import opened Quaternions

  /** `normalize_vector`, a square root outside this model, as a parameter. */
  type Normalize = Vec3 -> Vec3

  /** `[usize; 2]`: width and height in pixels. */
  type Size2 = s: seq<nat> | |s| == 2 witness [0, 0]

  /** The world's up direction the camera starts its basis from. */
  const WORLD_UP: Vec3 := [0.0, 0.0, 1.0]

  /** The basis built by `TracingCamera::new` from the forward direction:
      `left = forward x (0, 0, 1)` and `up = forward x left`. Left is horizontal,
      and the three directions are pairwise orthogonal. */
  function CameraBasis(forward: Vec3): (basis: (Vec3, Vec3))
    ensures basis.0[2] == 0.0
    ensures Orthogonal(forward, basis.0, basis.1)
  {
    var left := Cross(forward, WORLD_UP);
    var up := Cross(forward, left);
    CrossOrthogonal(forward, WORLD_UP);
    CrossOrthogonal(forward, left);
    assert Dot(forward, left) == Dot(left, forward);
    assert Dot(forward, up) == Dot(up, forward);
    assert Dot(left, up) == Dot(up, left);
    (left, up)
  }

  /** The basis of a camera looking along `(0.6, 0, 0.8)` has a left and an up
      of length 0.6, not 1. Pitching it by a half turn (sine 1 and cosine 0 at
      the half angle) builds its quaternion from that short left axis, so the
      quaternion has squared norm 0.36 and `rotate_vector` shrinks up by that
      factor instead of turning it over. */
  lemma PitchShrinksUp(rad: real, sinCos: SinCos)
    requires sinCos(rad / 2.0) == (1.0, 0.0)
    ensures CameraBasis([0.6, 0.0, 0.8]) == ([0.0, -0.6, 0.0], [0.48, 0.0, -0.36])
    ensures FromAxisAngle([0.0, -0.6, 0.0], rad, sinCos).Norm2() == 0.36
    ensures FromAxisAngle([0.0, -0.6, 0.0], rad, sinCos).RotateVector([0.48, 0.0, -0.36]) == [-0.1728, 0.0, 0.1296]
  {
    SlantedBasis();
    var p := Quaternion(0.0, 0.0, -0.6, 0.0);
    assert FromAxisAngle([0.0, -0.6, 0.0], rad, sinCos) == p;
    Norm2Components(p);
    ShortAxisHalfTurn();
  }

  /** The basis of the forward direction `(0.6, 0, 0.8)`. */
  lemma SlantedBasis()
    ensures CameraBasis([0.6, 0.0, 0.8]) == ([0.0, -0.6, 0.0], [0.48, 0.0, -0.36])
  {
    var forward: Vec3 := [0.6, 0.0, 0.8];
    var left := Cross(forward, WORLD_UP);
    assert left == [0.0, -0.6, 0.0];
    var up := Cross(forward, left);
    assert up == [0.48, 0.0, -0.36];
  }

  /** The half turn about the short axis `(0, -0.6, 0)` applied to `(0.48, 0, -0.36)`. */
  lemma ShortAxisHalfTurn()
    ensures Quaternion(0.0, 0.0, -0.6, 0.0).RotateVector([0.48, 0.0, -0.36]) == [-0.1728, 0.0, 0.1296]
  {
    var v: Vec3 := [0.48, 0.0, -0.36];
    assert Quaternion(0.0, v[0], v[1], v[2]) == Quaternion(0.0, 0.48, 0.0, -0.36);
    HalfTurnFirstProduct();
    HalfTurnConjugate();
    HalfTurnSecondProduct();
  }

  /** `q (0, v)` for the half turn above. */
  lemma HalfTurnFirstProduct()
    ensures Quaternion(0.0, 0.0, -0.6, 0.0).Multiply(Quaternion(0.0, 0.48, 0.0, -0.36))
            == Quaternion(0.0, 0.216, 0.0, 0.288)
  {
  }

  /** `q*` for the half turn above. */
  lemma HalfTurnConjugate()
    ensures Quaternion(0.0, 0.0, -0.6, 0.0).Conjugate() == Quaternion(0.0, 0.0, 0.6, 0.0)
  {
  }

  /** `(q (0, v)) q*` for the half turn above. */
  lemma HalfTurnSecondProduct()
    ensures Quaternion(0.0, 0.216, 0.0, 0.288).Multiply(Quaternion(0.0, 0.0, 0.6, 0.0))
            == Quaternion(0.0, -0.1728, 0.0, 0.1296)
  {
  }

  /** The point of the image plane that pixel `(x, y)` of a `w x h` screen looks
      through, as `render_scene` computes it: the plane centre `focal * forward`,
      moved `aspect` along left and 1 along up to the top-left corner, then back
      by `2 u aspect` along left and `2 v` along up, with `u = x / w` and
      `v = y / h`. In closed form it is the centre plus `(1 - 2u) aspect` left
      plus `(1 - 2v)` up. */
  function ScreenPlace(forward: Vec3, left: Vec3, up: Vec3, aspect: real, focal: real,
                       w: nat, h: nat, x: nat, y: nat): (p: Vec3)
    requires w > 0 && h > 0
    ensures forall d :: 0 <= d < 3 ==>
              p[d] == focal * forward[d] + (1.0 - 2.0 * (x as real / w as real)) * aspect * left[d]
                                         + (1.0 - 2.0 * (y as real / h as real)) * up[d]
  {
    var planeCenter := [forward[0] * focal, forward[1] * focal, forward[2] * focal];
    var topLeft := [planeCenter[0] + left[0] * aspect + up[0],
                    planeCenter[1] + left[1] * aspect + up[1],
                    planeCenter[2] + left[2] * aspect + up[2]];
    var u, v := x as real / w as real, y as real / h as real;
    [topLeft[0] - left[0] * u * 2.0 * aspect - up[0] * v * 2.0,
     topLeft[1] - left[1] * u * 2.0 * aspect - up[1] * v * 2.0,
     topLeft[2] - left[2] * u * 2.0 * aspect - up[2] * v * 2.0]
  }

  /** Pixel `(0, 0)` looks through the top-left corner of the plane, and a pixel
      at half the width and half the height through the plane centre. */
  lemma ScreenCorners(forward: Vec3, left: Vec3, up: Vec3, aspect: real, focal: real, w: nat, h: nat)
    requires w > 0 && h > 0
    ensures forall d :: 0 <= d < 3 ==>
              ScreenPlace(forward, left, up, aspect, focal, w, h, 0, 0)[d]
              == focal * forward[d] + aspect * left[d] + up[d]
    ensures w % 2 == 0 && h % 2 == 0 ==>
              forall d :: 0 <= d < 3 ==>
                ScreenPlace(forward, left, up, aspect, focal, w, h, w / 2, h / 2)[d] == focal * forward[d]
  {
    if w % 2 == 0 && h % 2 == 0 {
      assert (w / 2) as real / w as real == 0.5;
      assert (h / 2) as real / h as real == 0.5;
    }
  }

  class TracingCamera {
    var origin: Vec3
    var forwardVec: Vec3
    var leftVec: Vec3
    var upVec: Vec3
    var aspectRatio: real
    var focalDistance: real
    var screenSize: Size2

    /** `TracingCamera::new`: forward is the normalised direction to `lookingAt`,
        left and up come from `CameraBasis`, and the aspect ratio is width over
        height. The height is positive (see the README on a zero height). */
    constructor(origin: Vec3, focalDistance: real, screenSize: Size2, lookingAt: Vec3, normalize: Normalize)
      requires screenSize[1] > 0
      ensures this.origin == origin && this.focalDistance == focalDistance && this.screenSize == screenSize
      ensures aspectRatio * screenSize[1] as real == screenSize[0] as real
      ensures forwardVec == normalize(Sub(lookingAt, origin))
      ensures (leftVec, upVec) == CameraBasis(forwardVec)
      ensures leftVec[2] == 0.0 && FrameOrthogonal()
    {
      var lookingAtN := normalize(Sub(lookingAt, origin));
      var upVector := WORLD_UP;
      var left := Cross(lookingAtN, upVector);
      upVector := Cross(lookingAtN, left);
      this.origin := origin;
      forwardVec := lookingAtN;
      leftVec := left;
      upVec := upVector;
      aspectRatio := screenSize[0] as real / screenSize[1] as real;
      this.focalDistance := focalDistance;
      this.screenSize := screenSize;
    }

    /** The basis is pairwise orthogonal. */
    predicate FrameOrthogonal()
      reads this
    {
      Orthogonal(forwardVec, leftVec, upVec)
    }

    /** `rotate_camera_yaw`: turn left and forward about up. The basis stays
        orthogonal; each turned direction's squared length is multiplied by the
        square of the quaternion's squared norm. */
    method RotateCameraYaw(rad: real, sinCos: SinCos)
      modifies this
      ensures leftVec == FromAxisAngle(old(upVec), rad, sinCos).RotateVector(old(leftVec))
      ensures forwardVec == FromAxisAngle(old(upVec), rad, sinCos).RotateVector(old(forwardVec))
      ensures upVec == old(upVec) && origin == old(origin) && aspectRatio == old(aspectRatio)
      ensures focalDistance == old(focalDistance) && screenSize == old(screenSize)
      ensures old(FrameOrthogonal()) ==> FrameOrthogonal()
      ensures old(FrameOrthogonal()) ==>
                && LengthScaled(old(leftVec), leftVec, FromAxisAngle(old(upVec), rad, sinCos).Norm2())
                && LengthScaled(old(forwardVec), forwardVec, FromAxisAngle(old(upVec), rad, sinCos).Norm2())
    {
      var q := FromAxisAngle(upVec, rad, sinCos);
      var up, left, forward := upVec, leftVec, forwardVec;
      leftVec := q.RotateVector(leftVec);
      forwardVec := q.RotateVector(forwardVec);
      if Orthogonal(forward, left, up) {
        SwapOrthogonal(forward, left, up);
        TurnPair(up, rad, sinCos, left, forward);
        SwapOrthogonal(up, leftVec, forwardVec);
      }
    }

    /** `rotate_camera_pitch`: turn up and forward about left, with the same
        consequences as the yaw. */
    method RotateCameraPitch(rad: real, sinCos: SinCos)
      modifies this
      ensures upVec == FromAxisAngle(old(leftVec), rad, sinCos).RotateVector(old(upVec))
      ensures forwardVec == FromAxisAngle(old(leftVec), rad, sinCos).RotateVector(old(forwardVec))
      ensures leftVec == old(leftVec) && origin == old(origin) && aspectRatio == old(aspectRatio)
      ensures focalDistance == old(focalDistance) && screenSize == old(screenSize)
      ensures old(FrameOrthogonal()) ==> FrameOrthogonal()
      ensures old(FrameOrthogonal()) ==>
                && LengthScaled(old(upVec), upVec, FromAxisAngle(old(leftVec), rad, sinCos).Norm2())
                && LengthScaled(old(forwardVec), forwardVec, FromAxisAngle(old(leftVec), rad, sinCos).Norm2())
    {
      var q := FromAxisAngle(leftVec, rad, sinCos);
      var up, left, forward := upVec, leftVec, forwardVec;
      upVec := q.RotateVector(upVec);
      forwardVec := q.RotateVector(forwardVec);
      if Orthogonal(forward, left, up) {
        SwapOrthogonal(forward, left, up);
        TurnPair(left, rad, sinCos, up, forward);
        SwapOrthogonal(left, upVec, forwardVec);
      }
    }

    /** `rotate_camera_roll`: turn up and left about forward, with the same
        consequences as the yaw. */
    method RotateCameraRoll(rad: real, sinCos: SinCos)
      modifies this
      ensures upVec == FromAxisAngle(old(forwardVec), rad, sinCos).RotateVector(old(upVec))
      ensures leftVec == FromAxisAngle(old(forwardVec), rad, sinCos).RotateVector(old(leftVec))
      ensures forwardVec == old(forwardVec) && origin == old(origin) && aspectRatio == old(aspectRatio)
      ensures focalDistance == old(focalDistance) && screenSize == old(screenSize)
      ensures old(FrameOrthogonal()) ==> FrameOrthogonal()
      ensures old(FrameOrthogonal()) ==>
                && LengthScaled(old(upVec), upVec, FromAxisAngle(old(forwardVec), rad, sinCos).Norm2())
                && LengthScaled(old(leftVec), leftVec, FromAxisAngle(old(forwardVec), rad, sinCos).Norm2())
    {
      var q := FromAxisAngle(forwardVec, rad, sinCos);
      var up, left, forward := upVec, leftVec, forwardVec;
      upVec := q.RotateVector(upVec);
      leftVec := q.RotateVector(leftVec);
      if Orthogonal(forward, left, up) {
        TurnPair(forward, rad, sinCos, left, up);
      }
    }

    /** The primary ray of pixel `(x, y)`: it starts at the camera origin with the
        f32::MAX sentinel distance and a zero colour, and its velocity runs from
        the origin to the pixel's screen point. */
    function PixelRay(x: nat, y: nat): (r: Ray)
      reads this
      requires x < screenSize[0] && y < screenSize[1]
      ensures r.origin == origin && r.distance == F32_MAX && r.color == ZERO4
      ensures forall d :: 0 <= d < 3 ==>
                r.origin[d] + r.velocity[d]
                == ScreenPlace(forwardVec, leftVec, upVec, aspectRatio, focalDistance,
                               screenSize[0], screenSize[1], x, y)[d]
    {
      var screenPlace := ScreenPlace(forwardVec, leftVec, upVec, aspectRatio, focalDistance,
                                     screenSize[0], screenSize[1], x, y);
      Ray(origin, Sub(screenPlace, origin), F32_MAX, ZERO4)
    }

    /** `render_scene`: a fresh zeroed image of the screen's size, in which the
        nested loop (y outer, x inner) writes pixel `(x, y)` at `y * w + x` with
        the colour the scene gives that pixel's ray. Every pixel is written, so
        every pixel ends up holding its ray's colour. */
    method RenderScene(scene: Scene) returns (img: RenderImage)
      ensures img.xSize == screenSize[0] && img.ySize == screenSize[1] && img.WellSized()
      ensures forall x: nat, y: nat :: x < screenSize[0] && y < screenSize[1] ==>
                Painted(img.pixels, screenSize[0], x, y, ColorOf(scene, PixelRay(x, y)))
    {
      var w, h := screenSize[0], screenSize[1];
      img := NewRenderImage(w, h);
      for y := 0 to h
        invariant img.xSize == w && img.ySize == h && |img.pixels| == w * h
        invariant forall xx: nat, yy: nat :: xx < w && yy < y ==>
                    Painted(img.pixels, w, xx, yy, ColorOf(scene, PixelRay(xx, yy)))
      {
        for x := 0 to w
          invariant img.xSize == w && img.ySize == h && |img.pixels| == w * h
          invariant forall xx: nat, yy: nat :: xx < w && yy < y ==>
                      Painted(img.pixels, w, xx, yy, ColorOf(scene, PixelRay(xx, yy)))
          invariant forall xx: nat :: xx < x ==> Painted(img.pixels, w, xx, y, ColorOf(scene, PixelRay(xx, y)))
        {
          var ray := PixelRay(x, y);
          var color := GetColor(scene, ray);
          PixelIndex(w, h, x, y);
          var before := img.pixels;
          img := img.(pixels := img.pixels[y * w + x := color]);
          forall xx: nat, yy: nat | xx < w && (yy < y || (yy == y && xx < x))
            ensures Painted(img.pixels, w, xx, yy, ColorOf(scene, PixelRay(xx, yy)))
          {
            DistinctPixels(w, xx, yy, x, y);
            assert Painted(before, w, xx, yy, ColorOf(scene, PixelRay(xx, yy)));
          }
        }
      }
    }
  }

  /** Pixel `(x, y)` of a `w`-wide image holds `color`. */
  ghost predicate Painted(pixels: seq<Vec4>, w: nat, x: nat, y: nat, color: Vec4)
  {
    0 <= y * w + x < |pixels| && pixels[y * w + x] == color
  }

  /** The same three directions in another order are still pairwise
      orthogonal. */
  lemma SwapOrthogonal(a: Vec3, b: Vec3, c: Vec3)
    requires Orthogonal(a, b, c) || Orthogonal(c, b, a) || Orthogonal(b, c, a)
             || Orthogonal(a, c, b) || Orthogonal(b, a, c) || Orthogonal(c, a, b)
    ensures Orthogonal(a, b, c) && Orthogonal(c, b, a) && Orthogonal(b, c, a)
            && Orthogonal(a, c, b) && Orthogonal(b, a, c) && Orthogonal(c, a, b)
  {
    DotSymmetric(a, b);
    DotSymmetric(a, c);
    DotSymmetric(b, c);
  }

  /** A turn about `axis` of two directions orthogonal to it and to each other:
      the turned pair stays orthogonal to the axis and to each other, and each
      squared length is scaled by the square of the quaternion's squared norm. */
  lemma TurnPair(axis: Vec3, rad: real, sinCos: SinCos, a: Vec3, b: Vec3)
    requires Orthogonal(axis, a, b)
    ensures var q := FromAxisAngle(axis, rad, sinCos);
            && Orthogonal(axis, q.RotateVector(a), q.RotateVector(b))
            && LengthScaled(a, q.RotateVector(a), q.Norm2())
            && LengthScaled(b, q.RotateVector(b), q.Norm2())
  {
    RotationKeepsOrthogonal(axis, rad, sinCos, a, b);
    RotationScalesLength(axis, rad, sinCos, a);
    RotationScalesLength(axis, rad, sinCos, b);
  }

  /** Distinct pixels of a `w`-wide image have distinct slots. */
  lemma DistinctPixels(w: nat, x1: nat, y1: nat, x2: nat, y2: nat)
    requires x1 < w && x2 < w
    ensures (x1 != x2 || y1 != y2) ==> y1 * w + x1 != y2 * w + x2
  {
    if y1 * w + x1 == y2 * w + x2 {
      RowMajorUnique(w, y1, x1, y2, x2);
    }
  }
}
