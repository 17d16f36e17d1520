/** The data the GPU path tracer is handed (src/path_tracing/pt_render.rs): a
    fixed-capacity cube array filled from the scene, the camera packed into 16
    floats with zero padding, and the zeroed output buffer with its row layout. */
module GpuLayout {
  import opened Vectors
  import opened Cubes
  import opened Scenes
  import opened Cameras
  import PathChunk

  /** The capacity of the cube storage buffer. */
  const MAX_CUBES: nat := 200000

  /** `Cube` with every component zero. */
  const ZERO_CUBE: Cube := Cube(ZERO4, ZERO4, ZERO4)

  /** The cube fill of `PTRender::new`: `MAX_CUBES` zero cubes, then entry `i`
      overwritten with `cubes[i]` for each cube in turn. Writing past the capacity
      is an index panic, reported as `None`; it happens exactly when there are more
      cubes than the capacity. Otherwise the buffer starts with the cubes in order
      and is zero after them. */
  method FillCubeBuffer(cubes: seq<Cube>) returns (result: Option<seq<Cube>>)
    ensures result.None? <==> |cubes| > MAX_CUBES
    ensures result.Some? ==>
              && |result.value| == MAX_CUBES
              && result.value[..|cubes|] == cubes
              && forall i :: |cubes| <= i < MAX_CUBES ==> result.value[i] == ZERO_CUBE
  {
    var initialCubeData := new Cube[MAX_CUBES](_ => ZERO_CUBE);
    for i := 0 to |cubes|
      invariant i <= MAX_CUBES
      invariant forall j :: 0 <= j < i ==> initialCubeData[j] == cubes[j]
      invariant forall j :: i <= j < MAX_CUBES ==> initialCubeData[j] == ZERO_CUBE
    {
      if i >= initialCubeData.Length {
        return None;
      }
      initialCubeData[i] := cubes[i];
    }
    result := Some(initialCubeData[..]);
  }

  /** The scene side of `PTRender::new`: the scene of `Scene::new`, its cubes
      copied into the fixed buffer, and the cube count handed to the kernel as a
      float. The scene's 4096 cubes fit, so the fill never panics. */
  method PrepareCubeUpload(noise: PathChunk.Noise, draws: (int, int) -> PathChunk.Draws)
    returns (scene: Scene, cubeData: seq<Cube>, amountOfCubes: real)
    ensures |scene.cubes| == 4096 && amountOfCubes == 4096.0
    ensures |cubeData| == MAX_CUBES && cubeData[..4096] == scene.cubes
    ensures forall i :: 4096 <= i < MAX_CUBES ==> cubeData[i] == ZERO_CUBE
  {
    scene := NewScene(noise, draws);
    var filled := FillCubeBuffer(scene.cubes);
    cubeData := filled.value;
    amountOfCubes := |scene.cubes| as real;
  }

  // ---------------------------------------------------------------------------
  // The camera uniform
  // ---------------------------------------------------------------------------

  /** The 16-float camera block: origin, forward, left and up, each followed by one
      padding zero, so that vector `k` sits at slots `4k .. 4k + 2`. */
  function PackCameraVectors(origin: Vec3, forward: Vec3, left: Vec3, up: Vec3): (v: seq<real>)
    ensures |v| == 16
    ensures forall k :: 0 <= k < 4 ==> v[4 * k + 3] == 0.0
  {
    [origin[0], origin[1], origin[2], 0.0,
     forward[0], forward[1], forward[2], 0.0,
     left[0], left[1], left[2], 0.0,
     up[0], up[1], up[2], 0.0]
  }

  /** What the kernel reads back from the block: the four vectors at slots
      `4k .. 4k + 2`. */
  function UnpackCameraVectors(v: seq<real>): (Vec3, Vec3, Vec3, Vec3)
    requires |v| == 16
  {
    ([v[0], v[1], v[2]], [v[4], v[5], v[6]], [v[8], v[9], v[10]], [v[12], v[13], v[14]])
  }

  /** Reading the block back gives the four vectors packed into it. */
  lemma UnpackPack(origin: Vec3, forward: Vec3, left: Vec3, up: Vec3)
    ensures UnpackCameraVectors(PackCameraVectors(origin, forward, left, up)) == (origin, forward, left, up)
  {
    var u := UnpackCameraVectors(PackCameraVectors(origin, forward, left, up));
    assert u.0 == [origin[0], origin[1], origin[2]];
    assert u.1 == [forward[0], forward[1], forward[2]];
    assert u.2 == [left[0], left[1], left[2]];
    assert u.3 == [up[0], up[1], up[2]];
    assert origin == [origin[0], origin[1], origin[2]] && forward == [forward[0], forward[1], forward[2]];
    assert left == [left[0], left[1], left[2]] && up == [up[0], up[1], up[2]];
  }

  /** A 16-float block is a packed camera exactly when its four padding slots are
      zero, and then it is the packing of what it unpacks to. */
  lemma PackUnpack(v: seq<real>)
    requires |v| == 16
    ensures (forall k :: 0 <= k < 4 ==> v[4 * k + 3] == 0.0) <==>
            v == var u := UnpackCameraVectors(v); PackCameraVectors(u.0, u.1, u.2, u.3)
  {
    var u := UnpackCameraVectors(v);
    var p := PackCameraVectors(u.0, u.1, u.2, u.3);
    if forall k :: 0 <= k < 4 ==> v[4 * k + 3] == 0.0 {
      assert v[3] == 0.0 && v[7] == 0.0 && v[11] == 0.0 && v[15] == 0.0 by {
        assert v[4 * 0 + 3] == 0.0 && v[4 * 1 + 3] == 0.0 && v[4 * 2 + 3] == 0.0 && v[4 * 3 + 3] == 0.0;
      }
      assert forall i :: 0 <= i < 16 ==> v[i] == p[i];
    }
  }

  /** The camera block of `PTRender::new`, read from the camera's fields. */
  function CameraVectors(camera: TracingCamera): (v: seq<real>)
    reads camera
    ensures |v| == 16 && forall k :: 0 <= k < 4 ==> v[4 * k + 3] == 0.0
    ensures UnpackCameraVectors(v) == (camera.origin, camera.forwardVec, camera.leftVec, camera.upVec)
  {
    UnpackPack(camera.origin, camera.forwardVec, camera.leftVec, camera.upVec);
    PackCameraVectors(camera.origin, camera.forwardVec, camera.leftVec, camera.upVec)
  }

  /** `update_camera_uniform`: the block written to the camera buffer, built
      element by element as the source does; it has exactly the layout of the
      block created in `PTRender::new`. */
  method UpdateCameraUniform(camera: TracingCamera) returns (written: seq<real>)
    ensures written == CameraVectors(camera)
  {
    written := [
      camera.origin[0], camera.origin[1], camera.origin[2], 0.0,
      camera.forwardVec[0], camera.forwardVec[1], camera.forwardVec[2], 0.0,
      camera.leftVec[0], camera.leftVec[1], camera.leftVec[2], 0.0,
      camera.upVec[0], camera.upVec[1], camera.upVec[2], 0.0
    ];
  }

  // ---------------------------------------------------------------------------
  // The output buffer
  // ---------------------------------------------------------------------------

  const OUTPUT_WIDTH: nat := 1920
  const OUTPUT_HEIGHT: nat := 1080
  const FLOATS_PER_PIXEL: nat := 4
  const BYTES_PER_FLOAT: nat := 4

  /** `bytes_per_row` and `rows_per_image` of the texture copy. */
  const BYTES_PER_ROW: nat := 1920 * 4 * 4
  const ROWS_PER_IMAGE: nat := 1080

  /** The zeroed output buffer: four floats per pixel of a 1920 x 1080 image. Its
      size in bytes is exactly what the texture copy reads: `bytes_per_row`
      covers one row of four-float pixels, times `rows_per_image` rows. */
  function InitialOutputValues(): (v: seq<real>)
    ensures |v| == OUTPUT_WIDTH * OUTPUT_HEIGHT * FLOATS_PER_PIXEL
    ensures forall i :: 0 <= i < |v| ==> v[i] == 0.0
    ensures BYTES_PER_ROW == OUTPUT_WIDTH * FLOATS_PER_PIXEL * BYTES_PER_FLOAT
    ensures |v| * BYTES_PER_FLOAT == BYTES_PER_ROW * ROWS_PER_IMAGE
  {
    seq(1920 * 1080 * 4, _ => 0.0)
  }
}
