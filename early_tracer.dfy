/** The earlier stand-alone path tracer (src/path_tracing.rs): three-component
    cubes, a scene without a chunk grid, an image stored as a list of rows, and a
    camera that aims a fixed 16:9 plane at `lookingAt`. Its slab test and colour
    query are shown to agree with the later ones of `Cubes` and `Scenes`. */
module EarlyTracer {
  import opened Vectors
  import opened Cubes
  import opened Scenes

  /** The earlier `Cube`: corners without the padding component. */
  datatype EarlyCube = EarlyCube(min: Vec3, max: Vec3, color: Vec4)

  /** The earlier `Scene`: cubes and a background colour. */
  datatype EarlyScene = EarlyScene(cubes: seq<EarlyCube>, backgroundRgba: Vec4)

  /** The earlier `RenderImage`: the dimensions and one list of pixels per row. */
  datatype EarlyRenderImage = EarlyRenderImage(dimensions: seq<nat>, pixels: seq<seq<Vec4>>)

  /** The earlier `TracingCamera`: the screen is a `renderRatio`-sized rectangle at
      height `focalDistance`, centred on the line towards `lookingAt`. */
  datatype EarlyCamera = EarlyCamera(origin: Vec3, lookingAt: Vec3, focalDistance: real,
                                     screenSize: seq<nat>, renderRatio: seq<nat>)

  /** The earlier cube as a later one: the same corners padded with 0. */
  function Widen(c: EarlyCube): (w: Cube)
    ensures forall d :: 0 <= d < 3 ==> w.min[d] == c.min[d] && w.max[d] == c.max[d]
    ensures w.color == c.color
  {
    Cube([c.min[0], c.min[1], c.min[2], 0.0], [c.max[0], c.max[1], c.max[2], 0.0], c.color)
  }

  /** The earlier scene as a later one with an empty chunk grid: the same cubes,
      widened, in the same order, and the same background. */
  function AsScene(s: EarlyScene): (t: Scene)
    ensures |t.cubes| == |s.cubes| && t.background == s.backgroundRgba
    ensures forall i :: 0 <= i < |s.cubes| ==> t.cubes[i] == Widen(s.cubes[i])
  {
    Scene(seq(|s.cubes|, i requires 0 <= i < |s.cubes| => Widen(s.cubes[i])), s.backgroundRgba, [], 0)
  }

  /** The earlier `Cube::intersect_ray`: the same slab test, on three-component
      corners; it gives exactly the later test's result. */
  method EarlyIntersectRay(c: EarlyCube, ray: Ray) returns (r: Ray)
    ensures r == Intersect(Widen(c), ray)
  {
    var tnear, tfar := F32_MIN, F32_MAX;
    for d := 0 to 3
      invariant SlabAfter(Widen(c), ray, d) == Window(tnear, tfar)
    {
      if ray.velocity[d] == 0.0 {
        if ray.origin[d] >= c.min[d] && ray.origin[d] <= c.max[d] {
          continue;
        } else {
          BlockedStaysBlocked(Widen(c), ray, d + 1);
          return ray;
        }
      }
      var t1 := (c.min[d] - ray.origin[d]) / ray.velocity[d];
      var t2 := (c.max[d] - ray.origin[d]) / ray.velocity[d];
      var tmin := Min(t1, t2);
      var tmax := Max(t1, t2);
      tnear := Max(tnear, tmin);
      tfar := Min(tfar, tmax);
    }
    if tnear > tfar || tfar < 0.0 {
      return ray;
    } else {
      r := ray.(distance := tnear, color := c.color);
    }
  }

  /** The earlier `Scene::get_color`: every cube in turn, then the background
      unless the distance left the sentinel. It gives the later query's colour. */
  method EarlyGetColor(scene: EarlyScene, ray: Ray) returns (rgba: Vec4)
    ensures rgba == ColorOf(AsScene(scene), ray)
  {
    ghost var later := AsScene(scene).cubes;
    rgba := scene.backgroundRgba;
    var r := ray;
    for i := 0 to |scene.cubes|
      invariant r == Trace(later[..i], ray)
    {
      assert later[..i + 1][..i] == later[..i];
      r := EarlyIntersectRay(scene.cubes[i], r);
    }
    assert later[..|scene.cubes|] == later;
    if r.distance < F32_MAX {
      rgba := r.color;
    }
  }

  /** For a fresh ray the earlier query gives the background when no cube is hit,
      and otherwise the colour of the last cube hit in list order (unless that
      hit lies at the sentinel distance itself). */
  lemma EarlyColorCases(scene: EarlyScene, ray: Ray)
    requires ray.distance == F32_MAX
    ensures (forall j :: 0 <= j < |scene.cubes| ==> !Hits(Widen(scene.cubes[j]), ray)) ==>
              ColorOf(AsScene(scene), ray) == scene.backgroundRgba
    ensures forall k :: 0 <= k < |scene.cubes| && Hits(Widen(scene.cubes[k]), ray) &&
                        (forall j :: k < j < |scene.cubes| ==> !Hits(Widen(scene.cubes[j]), ray)) ==>
              ColorOf(AsScene(scene), ray) ==
                if SlabOf(Widen(scene.cubes[k]), ray).tnear < F32_MAX
                then scene.cubes[k].color else scene.backgroundRgba
  {
    var s := AsScene(scene);
    if forall j :: 0 <= j < |scene.cubes| ==> !Hits(Widen(scene.cubes[j]), ray) {
      ColorOfNoHit(s, ray);
    }
    forall k | 0 <= k < |scene.cubes| && Hits(Widen(scene.cubes[k]), ray) &&
               (forall j :: k < j < |scene.cubes| ==> !Hits(Widen(scene.cubes[j]), ray))
      ensures ColorOf(s, ray) ==
                if SlabOf(Widen(scene.cubes[k]), ray).tnear < F32_MAX
                then scene.cubes[k].color else scene.backgroundRgba
    {
      ColorOfLastHit(s, ray, k);
    }
  }

  /** The earlier `RenderImage::new`: the dimensions, and no rows yet. */
  function NewEarlyRenderImage(xDimension: nat, yDimension: nat): (img: EarlyRenderImage)
    ensures img.dimensions == [xDimension, yDimension] && img.pixels == []
  {
    EarlyRenderImage([xDimension, yDimension], [])
  }

  /** The earlier `TracingCamera::new`: at the world origin, looking at
      `(10, 10, 5)`, a 1920 x 1080 screen on a 16 x 9 plane at height 0.5. Screen
      and plane have the same proportions, and the camera can be rendered with. */
  function NewEarlyCamera(): (cam: EarlyCamera)
    ensures cam.origin == [0.0, 0.0, 0.0] && cam.lookingAt == [10.0, 10.0, 5.0] && cam.focalDistance == 0.5
    ensures cam.screenSize == [1920, 1080] && cam.renderRatio == [16, 9]
    ensures cam.renderRatio[0] * cam.screenSize[1] == cam.renderRatio[1] * cam.screenSize[0]
    ensures cam.screenSize[0] > 0 && cam.screenSize[1] > 0 && ValidCamera(cam)
  {
    EarlyCamera([0.0, 0.0, 0.0], [10.0, 10.0, 5.0], 0.5, [1920, 1080], [16, 9])
  }

  /** A camera the earlier `render_scene` can be run with: two-component sizes
      and a target off the height-0 plane (the plane centre divides by its
      height). */
  predicate ValidCamera(cam: EarlyCamera)
  {
    |cam.screenSize| == 2 && |cam.renderRatio| == 2 && cam.lookingAt[2] != 0.0
  }

  /** The screen point of pixel `(x, y)` in the earlier camera: the plane centre is
      where the line towards `lookingAt` meets height `focalDistance`, the top-left
      corner is half the plane to the lower x and y, and the pixel sits a
      fraction `x / w` and `y / h` across. The point lies on the plane, inside the
      rectangle centred on the plane centre. */
  function EarlyScreenPlace(cam: EarlyCamera, x: nat, y: nat): (p: Vec3)
    requires ValidCamera(cam) && x < cam.screenSize[0] && y < cam.screenSize[1]
    ensures p[2] == cam.focalDistance
    ensures var cx := cam.lookingAt[0] * (cam.focalDistance / cam.lookingAt[2]);
            var half := cam.renderRatio[0] as real / 2.0;
            cx - half <= p[0] < cx + half || cam.renderRatio[0] == 0
    ensures var cy := cam.lookingAt[1] * (cam.focalDistance / cam.lookingAt[2]);
            var half := cam.renderRatio[1] as real / 2.0;
            cy - half <= p[1] < cy + half || cam.renderRatio[1] == 0
  {
    var center := [cam.lookingAt[0] * (cam.focalDistance / cam.lookingAt[2]),
                   cam.lookingAt[1] * (cam.focalDistance / cam.lookingAt[2]),
                   cam.focalDistance];
    var topLeft := [center[0] - cam.renderRatio[0] as real / 2.0,
                    center[1] - cam.renderRatio[1] as real / 2.0,
                    center[2]];
    var u := x as real / cam.screenSize[0] as real;
    var v := y as real / cam.screenSize[1] as real;
    FractionBelowOne(x, cam.screenSize[0], cam.renderRatio[0]);
    FractionBelowOne(y, cam.screenSize[1], cam.renderRatio[1]);
    [topLeft[0] + u * cam.renderRatio[0] as real,
     topLeft[1] + v * cam.renderRatio[1] as real,
     topLeft[2]]
  }

  /** `0 <= (i / n) * k < k` for `i < n` and `k > 0`. */
  lemma FractionBelowOne(i: nat, n: nat, k: nat)
    requires i < n
    ensures 0.0 <= (i as real / n as real) * k as real
    ensures k > 0 ==> (i as real / n as real) * k as real < k as real
  {
    var f := i as real / n as real;
    assert f * n as real == i as real;
    assert 0.0 <= f < 1.0;
  }

  /** The primary ray of pixel `(x, y)`: from the camera origin towards the
      pixel's screen point, with the sentinel distance and a zero colour. */
  function EarlyPixelRay(cam: EarlyCamera, x: nat, y: nat): (r: Ray)
    requires ValidCamera(cam) && x < cam.screenSize[0] && y < cam.screenSize[1]
    ensures r.origin == cam.origin && r.distance == F32_MAX && r.color == ZERO4
    ensures forall d :: 0 <= d < 3 ==> r.origin[d] + r.velocity[d] == EarlyScreenPlace(cam, x, y)[d]
  {
    Ray(cam.origin, Sub(EarlyScreenPlace(cam, x, y), cam.origin), F32_MAX, ZERO4)
  }

  /** The earlier `render_scene`: for each row y, a fresh row of `w` colours is
      built by pushing pixel after pixel, and then pushed onto the image. The
      result holds exactly `h` rows of `w` colours, each the colour of its pixel's
      ray, in row-major order. */
  method EarlyRenderScene(cam: EarlyCamera, scene: EarlyScene) returns (img: EarlyRenderImage)
    requires ValidCamera(cam)
    ensures img.dimensions == cam.screenSize && |img.pixels| == cam.screenSize[1]
    ensures forall y :: 0 <= y < |img.pixels| ==> |img.pixels[y]| == cam.screenSize[0]
    ensures forall y, x :: 0 <= y < |img.pixels| && 0 <= x < cam.screenSize[0] ==>
              img.pixels[y][x] == ColorOf(AsScene(scene), EarlyPixelRay(cam, x, y))
  {
    img := NewEarlyRenderImage(cam.screenSize[0], cam.screenSize[1]);
    for y := 0 to cam.screenSize[1]
      invariant img.dimensions == cam.screenSize && |img.pixels| == y
      invariant forall yy :: 0 <= yy < y ==> |img.pixels[yy]| == cam.screenSize[0]
      invariant forall yy, x :: 0 <= yy < y && 0 <= x < cam.screenSize[0] ==>
                  img.pixels[yy][x] == ColorOf(AsScene(scene), EarlyPixelRay(cam, x, yy))
    {
      var xVec: seq<Vec4> := [];
      for x := 0 to cam.screenSize[0]
        invariant |xVec| == x
        invariant forall xx :: 0 <= xx < x ==> xVec[xx] == ColorOf(AsScene(scene), EarlyPixelRay(cam, xx, y))
      {
        var ray := EarlyPixelRay(cam, x, y);
        var color := EarlyGetColor(scene, ray);
        xVec := xVec + [color];
      }
      img := img.(pixels := img.pixels + [xVec]);
    }
  }
}
