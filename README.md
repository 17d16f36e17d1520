# Voxel tracer core in Dafny

This project models the core of a small Rust voxel engine. The engine builds a
terrain of unit cubes from a height field, in chunks of 32 x 32 columns. It
renders the terrain two ways:

- a rasterised mesh (eight vertices and 36 triangle indices per cube);
- a CPU path tracer that sends one ray per pixel through an axis-aligned slab
  test against every cube.

The GPU variant of the tracer receives the same cubes and camera packed into
fixed buffers.

The model covers:

- the slab test `Cube::intersect_ray` and `Cube::new_cube_at` (module `Cubes`);
- the scene: the centred chunk grid, the assembly of four chunks, the empty
  scene and the colour query `Scene::get_color` (module `Scenes`);
- heightfield chunk generation `PTObject::new` (module `PathChunk`);
- the rasterised chunk mesh: the index table, `create_cube_mesh` and the
  array-filling loop of `Object::new_chunk` (module `ChunkMesh`);
- the pixel buffer `RenderImage::new` (module `RenderImages`);
- the quaternion of `src/quaternion.rs`: the Hamilton product, the conjugate,
  `rotate_vector` and `from_axis_angle` (module `Quaternions`);
- the camera: construction, the three rotations and the pixel loop of
  `render_scene` (module `Cameras`, class `TracingCamera`);
- the earlier stand-alone tracer in `src/path_tracing.rs` (module
  `EarlyTracer`), proved to agree with the later slab test and colour query;
- the GPU buffer layout: the cube fill, the camera block and the output buffer
  of `src/path_tracing/pt_render.rs` (module `GpuLayout`);
- a corrected nearest-hit colour query, for the finding below (module
  `NearestHit`).

`f32` values are modelled as exact reals. `f32::MIN` and `f32::MAX` are
explicit sentinel constants. Imperative code is modelled as methods with loops,
each proved against a specification function: `IntersectRay` against
`Intersect`, `GetColor` against `ColorOf`, `NewPTObject` against `ChunkCubes`,
and `NewChunkMesh` against `MeshVertex`/`MeshIndex`. The camera is a class
whose rotation methods update its fields in place.

The Perlin height sampler and the thread-local random generator are library
calls. They become parameters:

- `noise`: a function from the sample point to the height;
- `draw`: a function giving the k-th random draw in `[0, 100)`.

`f32::sin_cos` and `normalize_vector` (a square root) are parameters too. The
quaternion arithmetic and the cross product are modelled exactly.

The colour query keeps the last cube hit in list order, not the nearest one.
The model follows the code and records the nearest-hit version under
"Findings".

## Model

| member | source | states |
|---|---|---|
| Cubes.NewCubeAt | src/path_tracing/cube.rs:13-19 | min is the location and max the location plus 1 on each of the three axes, both padding components are 0, and the colour is passed through |
| Cubes.NewCubeAtWellFormed | src/path_tracing/cube.rs:13-19 | a cube made by `new_cube_at` has min <= max on every axis |
| Cubes.IntersectRay | src/path_tracing/cube.rs:21-54 | the in-place slab test yields exactly the specification `Intersect`: the per-axis fold from the f32::MIN/f32::MAX sentinels, the early return on a parallel axis with the origin outside, and the final hit/miss decision |
| Cubes.BlockedStaysBlocked | src/path_tracing/cube.rs:30-36 | once a parallel axis has its origin outside the slab, the whole test reports no hit, whatever the later axes say |
| Cubes.BlockedIff | src/path_tracing/cube.rs:28-36 | the test returns early exactly when some axis is parallel to the ray with the origin outside its closed slab |
| Cubes.ParallelOutsideMisses | src/path_tracing/cube.rs:30-36 | a parallel axis with the origin outside the closed slab leaves the ray completely unchanged |
| Cubes.ParallelInsideUnconstrained | src/path_tracing/cube.rs:30-33 | a parallel axis with the origin inside the closed slab leaves tnear and tfar untouched |
| Cubes.WindowClosedForm | src/path_tracing/cube.rs:25-26 | the window stays within the sentinels, lies inside `[min(t1,t2), max(t1,t2)]` of every non-parallel axis, and each bound is its sentinel or one axis's bound |
| Cubes.ZeroVelocity | src/path_tracing/cube.rs:25-51 | with zero velocity the ray hits at distance f32::MIN when its origin lies in the closed box, and is unchanged otherwise |
| Cubes.HitsIgnoresRecord | src/path_tracing/cube.rs:21-47 | whether a cube is hit, and the window, do not depend on the ray's recorded distance and colour |
| Cubes.IntersectShape | src/path_tracing/cube.rs:47-51 | origin and velocity are never changed; the ray is either unchanged or a hit that carries the cube's colour |
| Vectors.CrossOrthogonal | src/path_tracing/vector_funcs.rs:6-12 | `cross_vector(v, u)` is orthogonal to both v and u |
| Vectors.CrossLagrange | src/path_tracing/vector_funcs.rs:6-12 | the Lagrange identity: (u x a) . (u x b) = (u . u)(a . b) - (u . a)(u . b) |
| Vectors.Min | src/path_tracing/cube.rs:40 | `f32::min` gives the smaller of its arguments |
| Vectors.Max | src/path_tracing/cube.rs:41 | `f32::max` gives the larger of its arguments |
| Cubes.AxisInterval | src/path_tracing/cube.rs:38-41 | on a non-parallel axis, `t` lies between min(t1,t2) and max(t1,t2) exactly when the point at `t` lies in that axis's closed slab |
| Cubes.WindowMeaning | src/path_tracing/cube.rs:28-45 | a parameter t within the sentinels lies in the window after n axes exactly when the point `origin + t * velocity` lies in the slabs of those n axes |
| Cubes.HitMeaning | src/path_tracing/cube.rs:47-51 | a well-formed cube is hit exactly when some point of the ray with 0 <= t <= f32::MAX lies in the closed box |
| Cubes.HitDistanceIsEntry | src/path_tracing/cube.rs:49-50 | on a hit, the recorded distance is the entry point: the point there is in the box and no earlier parameter above f32::MIN is |
| Cubes.InsideOriginHitsBehind | src/path_tracing/cube.rs:47-50 | a ray starting strictly inside a cube hits it with a negative distance |
| Scenes.GridLocation | src/path_tracing/scene.rs:12-17 | for a chunk on the grid the slot lies in `[0, g*g)`, and `/` and `%` by g give back the centred row `g/2 + y` and column `g/2 + x` |
| Scenes.GridLocationInBounds | src/path_tracing/scene.rs:12-17 | for chunk coordinates the centring maps into the grid, the index lies in `[0, g*g)` |
| Scenes.GridLocationInjective | src/path_tracing/scene.rs:12-17 | distinct in-grid chunk coordinates get distinct grid slots |
| Scenes.GridCoordsRoundTrip | src/path_tracing/scene.rs:12-17 | every slot of the grid is the location of the in-grid chunk `GridCoords` gives for it |
| Scenes.GridLocationRoundTrip | src/path_tracing/scene.rs:12-17 | `GridCoords` inverts `chunk_xy_to_grid_location` on in-grid chunks |
| Scenes.GridAfter | src/path_tracing/scene.rs:27 | the grid keeps its 16 * 16 length while slots are marked |
| Scenes.GridAfterLoading | src/path_tracing/scene.rs:35-41 | after the four loop iterations a slot is marked exactly when it is the location of a chunk in {-1, 0}^2 |
| Scenes.LoadStep | src/path_tracing/scene.rs:35-39 | iteration 2(x+1) + (y+1) appends chunk (x, y)'s cubes and marks its in-bounds slot |
| Scenes.LoadedSlot | src/path_tracing/scene.rs:35-39 | the four loaded chunks have slots 119, 120, 135 and 136 |
| Scenes.LoadedCubesAll | src/path_tracing/scene.rs:35-37 | the cube list after the loops is the four chunks' lists in loop order: x outer, y inner |
| Scenes.NewScene | src/path_tracing/scene.rs:21-49 | grid size 16, the sky background, a 256-slot grid in which exactly the four loaded chunks are marked, and the four chunks' cubes concatenated in loop order, 4096 cubes |
| Scenes.LoadedScene | src/path_tracing/scene.rs:35-48 | the cube list and grid after the four iterations hold the four chunks' 4096 cubes in loop order and mark exactly their slots |
| Scenes.EmptyScene | src/path_tracing/scene.rs:51-62 | no cubes, an all-false 256-slot grid, and the same background as `Scene::new` |
| Scenes.GetColor | src/path_tracing/scene.rs:65-78 | the loop over every cube (no early exit) gives exactly `ColorOf`: the recorded colour if the distance left the f32::MAX sentinel, else the background |
| Scenes.TraceKeepsRay | src/path_tracing/scene.rs:69-71 | tracing through the cubes only ever changes the recorded distance and colour |
| Scenes.LastCubeSeesOriginalRay | src/path_tracing/scene.rs:69-71 | each cube is tested against the original ray's geometry, whatever was recorded before |
| Scenes.TraceNoHit | src/path_tracing/scene.rs:69-71 | when no cube is hit the ray comes back unchanged |
| Scenes.TraceLastHit | src/path_tracing/scene.rs:69-71 | when cube k is the last one hit, the result carries cube k's entry distance and colour, whatever earlier cubes recorded |
| Scenes.ColorOfNoHit | src/path_tracing/scene.rs:73-77 | with no hit the ray is untouched, so the colour is its own colour if its distance is below the sentinel and the background otherwise |
| Scenes.ColorOfLastHit | src/path_tracing/scene.rs:69-77 | with a hit, the colour is that of the last cube hit in list order |
| Scenes.FreshRayBackground | src/path_tracing/scene.rs:73-75 | for a fresh ray, the distance leaves the sentinel exactly when some cube is hit with an entry distance below it |
| Scenes.LastHitIndex | src/path_tracing/scene.rs:69-71 | when some cube is hit, there is a last one |
| Scenes.EmptySceneColor | src/path_tracing/scene.rs:51-78 | a fresh ray in the empty scene sees the background |
| PathChunk.ChunkCubes | src/path_tracing/chunk.rs:10 | a chunk has CHUNK_SIZE^2 = 1024 cubes |
| PathChunk.NewPTObject | src/path_tracing/chunk.rs:13-40 | the nested loop pushes exactly 1024 cubes, the cube of column (i % 32, i / 32) at position i |
| PathChunk.CubeAtColumn | src/path_tracing/chunk.rs:16-31 | position 32y + x holds the cube with min corner (cx*32 + x, cy*32 + y, height), so the loop runs y outer, x inner |
| PathChunk.CubesInFootprint | src/path_tracing/chunk.rs:23-29 | every cube is a unit cube standing in the chunk footprint at integral coordinates, its z the floor of the height sample |
| PathChunk.OneCubePerColumn | src/path_tracing/chunk.rs:23-29 | two positions stand on the same column exactly when they are the same position |
| PathChunk.EveryColumnCovered | src/path_tracing/chunk.rs:23-29 | every column of the footprint has a cube |
| PathChunk.ChunkColors | src/path_tracing/chunk.rs:28 | every colour has alpha 1 and r, g, b of the form k/100 with k an integer in [0, 100) |
| ChunkMesh.IndicesInRange | src/chunk.rs:9-33 | the table has 36 entries, all in [0, 8) |
| ChunkMesh.CornersOfUnitCube | src/chunk.rs:43-52 | the eight corners are distinct, with offsets 0 or 1 on every axis |
| ChunkMesh.TrianglesLieOnFaces | src/chunk.rs:9-33 | every triangle's three corners share the coordinate of the face its comment names (top +z, bottom -z, front -y, back +y, left -x, right +x) |
| ChunkMesh.CreateCubeMesh | src/chunk.rs:36-61 | eight vertices at corner 0 plus the listed offsets, all of one colour, and the table shifted by the offset, so every index lies in [offset, offset + 8) below 65536 |
| ChunkMesh.PlaceColumn | src/chunk.rs:79-87 | one inner-loop iteration extends the filled prefix of both arrays by one cube |
| ChunkMesh.PlaceVertices | src/chunk.rs:83-84 | the copy writes cube n's vertices to slots [8n, 8n+8) and keeps the earlier slots |
| ChunkMesh.PlaceIndices | src/chunk.rs:85-86 | the copy writes cube n's indices to slots [36n, 36n+36) and keeps the earlier slots |
| ChunkMesh.NewChunkMesh | src/chunk.rs:68-89 | 8192 vertices and 36864 indices: slot i holds corner i % 8 of cube i / 8, index slot i holds table entry i % 36 shifted by 8 * (i / 36), and num_vertices is the index count |
| ChunkMesh.VertexSlot | src/chunk.rs:83-84 | slot 8n + k is corner k of cube n |
| ChunkMesh.IndexSlot | src/chunk.rs:85-87 | index slot 36n + k is table entry k shifted by cube n's offset 8n |
| ChunkMesh.ColumnSlots | src/chunk.rs:72-86 | each column's vertex and index blocks lie in the arrays, blocks of different columns are disjoint, and together they cover both arrays |
| ChunkMesh.IndicesStayInOwnCube | src/chunk.rs:70-87 | every index points into the vertex block of its own cube |
| ChunkMesh.IndicesFitU16 | src/chunk.rs:57 | the largest index written is 8191, so the u16 additions never overflow |
| RenderImages.NewRenderImage | src/path_tracing/render_image.rs:8-16 | the sizes are stored, there are exactly x * y pixels, and every pixel is [0, 0, 0, 0] |
| RenderImages.PixelIndex | src/path_tracing/tracing_camera.rs:98 | pixel (x, y) of a w x h image has slot y*w + x in [0, w*h), from which % and / recover x and y |
| RenderImages.SlotPixel | src/path_tracing/tracing_camera.rs:73-98 | every slot of a w x h image is the slot of pixel (i % w, i / w), inside the image |
| Quaternions.MultiplyParts | src/quaternion.rs:19-26 | the product of (w1, u1) and (w2, u2) has scalar part w1 w2 - u1 . u2 and vector part w1 u2 + w2 u1 + u1 x u2 |
| Quaternions.ConjugateProduct | src/quaternion.rs:19-31 | conjugating twice is the identity, and q times its conjugate is (squared norm, 0, 0, 0) |
| Quaternions.RotateClosedForm | src/quaternion.rs:19-38 | `rotate_vector` of v is (w^2 - u . u) v + 2 (u . v) u + 2 w (u x v), for every quaternion |
| Quaternions.RotatePerpendicular | src/quaternion.rs:34-38 | a direction orthogonal to the vector part u is sent to (w^2 - u . u) v + 2 w (u x v) |
| Quaternions.FromAxisAngle | src/quaternion.rs:41-50 | the scalar part is the cosine of the half angle, the vector part the axis times its sine, so the squared norm is cos^2 + sin^2 times the axis's squared length |
| Quaternions.RotateAxis | src/quaternion.rs:34-50 | the axis is sent to itself times the quaternion's squared norm, so only a unit quaternion leaves it in place |
| Quaternions.RotationKeepsOrthogonal | src/quaternion.rs:34-50 | two directions orthogonal to the axis and to each other stay orthogonal to the axis and to each other, for every axis length |
| Quaternions.AxisStaysOrthogonal | src/quaternion.rs:34-50 | a direction orthogonal to the axis stays orthogonal to it |
| Quaternions.PairStaysOrthogonal | src/quaternion.rs:34-50 | two directions orthogonal to the axis and to each other stay orthogonal to each other |
| Quaternions.PerpendicularToAxis | src/quaternion.rs:34-50 | a direction orthogonal to the axis is orthogonal to the vector part and is rotated by the perpendicular formula |
| Quaternions.RotationScalesLength | src/quaternion.rs:34-50 | a direction orthogonal to the axis has its squared length multiplied by the square of the squared norm |
| Quaternions.PerpendicularLength | src/quaternion.rs:34-38 | the perpendicular formula multiplies the squared length by the square of the squared norm |
| Quaternions.PairAfterRotation | src/quaternion.rs:34-38 | two directions orthogonal to u and to each other stay orthogonal under the perpendicular formula |
| Quaternions.FromUnitAxisAngle | src/quaternion.rs:41-50 | built from the normalised axis, with sin^2 + cos^2 = 1, the quaternion has norm 1 |
| Quaternions.UnitAxisRotationIsRigid | src/quaternion.rs:34-50 | with a unit axis the axis stays fixed and two directions orthogonal to it and to each other keep their lengths and stay orthogonal |
| Cameras.CameraBasis | src/path_tracing/tracing_camera.rs:23-25 | left is horizontal, and forward, left and up are pairwise orthogonal |
| Cameras.PitchShrinksUp | src/path_tracing/tracing_camera.rs:21-51 | a camera looking along (0.6, 0, 0.8) gets a left and up of length 0.6; pitching by a half turn builds a quaternion of squared norm 0.36, which sends up (0.48, 0, -0.36) to (-0.1728, 0, 0.1296) instead of turning it over |
| Cameras.TurnPair | src/path_tracing/tracing_camera.rs:41-57 | turning two directions orthogonal to the axis and to each other keeps all three pairwise orthogonal and scales each squared length by the square of the quaternion's squared norm |
| Cameras.ScreenPlace | src/path_tracing/tracing_camera.rs:63-82 | the pixel's screen point is the plane centre plus (1 - 2u) * aspect along left plus (1 - 2v) along up |
| Cameras.ScreenCorners | src/path_tracing/tracing_camera.rs:65-82 | pixel (0, 0) looks through the top-left corner, and the middle pixel of an even screen through the plane centre |
| Cameras.TracingCamera.constructor | src/path_tracing/tracing_camera.rs:15-39 | origin, focal distance and screen size stored, aspect * h == w, forward the normalised direction to the target, and an orthogonal basis with a horizontal left |
| Cameras.TracingCamera.RotateCameraYaw | src/path_tracing/tracing_camera.rs:41-45 | only left and forward change, each to `from_axis_angle(old up, rad).rotate_vector` of its old value; an orthogonal basis stays orthogonal, and each turned squared length is multiplied by the square of the quaternion's squared norm |
| Cameras.TracingCamera.RotateCameraPitch | src/path_tracing/tracing_camera.rs:47-51 | only up and forward change, each to `from_axis_angle(old left, rad).rotate_vector` of its old value; an orthogonal basis stays orthogonal, and each turned squared length is multiplied by the square of the quaternion's squared norm |
| Cameras.TracingCamera.RotateCameraRoll | src/path_tracing/tracing_camera.rs:53-57 | only up and left change, each to `from_axis_angle(old forward, rad).rotate_vector` of its old value; an orthogonal basis stays orthogonal, and each turned squared length is multiplied by the square of the quaternion's squared norm |
| Cameras.TracingCamera.PixelRay | src/path_tracing/tracing_camera.rs:84-95 | each primary ray starts at the camera origin with distance f32::MAX and zero colour, and reaches the pixel's screen point |
| Cameras.TracingCamera.RenderScene | src/path_tracing/tracing_camera.rs:60-104 | the image has the screen's sizes and w*h pixels, and every pixel (x, y) holds the colour the scene gives its ray |
| Cameras.DistinctPixels | src/path_tracing/tracing_camera.rs:98 | distinct pixels are written to distinct slots, so no pixel overwrites another |
| EarlyTracer.Widen | src/path_tracing.rs:21-25 | the earlier cube as a later one keeps corners and colour |
| EarlyTracer.AsScene | src/path_tracing.rs:27-30 | the earlier scene as a later one keeps the cubes in order and the background |
| EarlyTracer.EarlyIntersectRay | src/path_tracing.rs:118-153 | the earlier slab test gives exactly the later test's result, so it too returns early on a parallel axis with the origin outside and overwrites distance and colour on a hit without comparing |
| EarlyTracer.EarlyGetColor | src/path_tracing.rs:101-114 | the earlier colour query gives exactly the later query's colour |
| EarlyTracer.EarlyColorCases | src/path_tracing.rs:101-114 | for a fresh ray: the background when no cube is hit, otherwise the colour of the last cube hit |
| EarlyTracer.NewEarlyRenderImage | src/path_tracing.rs:157-164 | the dimensions are stored and the image starts with no rows |
| EarlyTracer.NewEarlyCamera | src/path_tracing.rs:46-54 | the camera constants: origin 0, looking at (10, 10, 5), focal distance 0.5, a 1920 x 1080 screen and a 16:9 render ratio, whose proportions agree |
| EarlyTracer.EarlyScreenPlace | src/path_tracing.rs:60-74 | the pixel's screen point lies on the plane at the focal height, inside the render-ratio rectangle centred on the plane centre |
| EarlyTracer.EarlyPixelRay | src/path_tracing.rs:76-86 | each ray starts at the camera origin with distance f32::MAX and zero colour, and reaches the pixel's screen point |
| EarlyTracer.EarlyRenderScene | src/path_tracing.rs:56-96 | exactly h rows of w colours, row-major, each the colour of its pixel's ray |
| GpuLayout.FillCubeBuffer | src/path_tracing/pt_render.rs:234-246 | an index panic exactly when there are more than 200000 cubes; otherwise 200000 entries, the cubes in order first and zero cubes after |
| GpuLayout.PrepareCubeUpload | src/path_tracing/pt_render.rs:234-255 | the 4096 cubes of `Scene::new` fit: the buffer starts with them, is zero after them, and the count handed over is 4096 |
| GpuLayout.PackCameraVectors | src/path_tracing/pt_render.rs:263-280 | 16 floats with slots 3, 7, 11 and 15 zero |
| GpuLayout.UnpackPack | src/path_tracing/pt_render.rs:263-280 | reading slots 4k..4k+2 back gives origin, forward, left and up |
| GpuLayout.PackUnpack | src/path_tracing/pt_render.rs:263-280 | a 16-float block is a packed camera exactly when its padding slots are zero |
| GpuLayout.CameraVectors | src/path_tracing/pt_render.rs:263-280 | the camera block holds the camera's origin, forward, left and up at slots 4k..4k+2, with zero padding |
| GpuLayout.UpdateCameraUniform | src/path_tracing/pt_render.rs:347-364 | the block written on update has exactly the layout of the block created at start-up |
| GpuLayout.InitialOutputValues | src/path_tracing/pt_render.rs:288 | 1920 * 1080 * 4 zeros, whose byte size is bytes_per_row (1920 pixels of four 4-byte floats) times 1080 rows |
| NearestHit.LastHitNotNearest | src/path_tracing/cube.rs:47-51 | on two cubes along one ray, entered at 3 and 7, the query returns the far cube's colour |
| NearestHit.TraceNearestIsNearest | src/path_tracing/cube.rs:47-51 | with the corrected comparison the final distance is at most every hit's entry distance, and is the ray's own or that of a cube hit, with its colour |
| NearestHit.NearestShowsNearCube | src/path_tracing/cube.rs:47-51 | with the corrected comparison the two-cube ray sees the near cube |

## Left out

- IEEE-754 arithmetic: rounding, NaN, infinities and overflow are not modelled. `f32` is an exact real, and f32::MIN/MAX are constants.
- Cameras.TracingCamera.constructor: requires a positive screen height. In IEEE arithmetic a zero height gives an infinite or NaN aspect ratio, which a real cannot represent.
- EarlyTracer.EarlyRenderScene: requires a target off the height-0 plane, for the same reason. The plane centre divides by `looking_at[2]`.
- The Perlin sampler and `rand::thread_rng` are foreign library calls. They are parameters (`noise`, `draw`/`draws`). The model assumes the k-th draw of a chunk serves cube k / 3, in push order.
- `f32::sin_cos` and `normalize_vector` (a square root) are parameters. The quaternion arithmetic around them is modelled exactly.
- The camera imports `src/path_tracing/quaternion.rs`, which is not part of this model. `src/quaternion.rs`, the engine's quaternion, stands in for it.
- Scenes.GridLocation: the `i32` to `usize` casts and the `usize` arithmetic are modelled as unbounded integers. Outside the grid (where a negative value would wrap) the model gives a negative index instead. `Scene::new` only uses in-grid chunks.
- Integer widths of chunk offsets (`chunk_x * 32` in `i32`) are unbounded integers. Huge chunk coordinates that overflow are not modelled.
- ChunkMesh.CreateCubeMesh: requires `index_offset + 7 < 65536`. A debug build panics on the `u16` overflow; the one caller stays below 8192 (ChunkMesh.IndicesFitU16).
- PathChunk.PTObject.GetCubes: returns the stored list. It has no contract beyond its definition, so it has no row.
- The heights in the rasterised mesh are not rounded: `new_chunk` passes the raw sample. The path-tracer chunk floors it. Both are modelled as written.
- The camera ray velocity is the screen point minus the origin, although the screen point is computed relative to the camera. This is modelled as written. The only camera the GPU path creates sits at the world origin, where the two agree.
- `amount_of_cubes` is the cube count as `f32`. It is exact for the 4096 cubes of `Scene::new`.
- wgpu device, pipeline, bind group, buffer upload and texture code; the `println!` in `new_chunk`; `src/state.rs`, `src/objects.rs`, `src/main.rs` and `src/texture.rs`. These are GPU plumbing and an event loop with no statable logic.
- `pt_render.rs` calls `camera.render_scene_cpu`, while `tracing_camera.rs` defines `render_scene`. The model follows the definition.
- Sparse octree construction and flattening do not exist in the code, so they are not modelled.

## Findings

| source | as written | input that shows it | evidently intended | confidence | as-written member | corrected member |
|---|---|---|---|---|---|---|
| src/path_tracing/cube.rs:47-51 | every hit overwrites `ray.distance` and `ray.color` without comparing with the distance already recorded, so `get_color` shows the last cube hit in list order | unit cubes at x = 3 (red, listed first) and x = 7 (blue); ray from (0, 0.5, 0.5) along +x with distance f32::MAX: both are hit (at 3 and 7) and the pixel is blue | record a hit only when `tnear < ray.distance`, so the nearest cube's colour is shown | medium (the f32::MAX starting distance only makes sense as best-hit bookkeeping; not executed) | NearestHit.LastHitNotNearest | NearestHit.TraceNearestIsNearest |
| src/quaternion.rs:41-50 | `from_axis_angle` scales the axis by the sine without normalising it, so its quaternion is unit only for a unit axis, and the camera's left and up are not unit (they are cross products of unit vectors that are not orthogonal to (0, 0, 1)) | a camera looking along (0.6, 0, 0.8) has left (0, -0.6, 0) and up (0.48, 0, -0.36); a pitch whose half angle has sine 1 and cosine 0 sends up to (-0.1728, 0, 0.1296), a turn combined with a shrink by 0.36 | a unit quaternion, so that each rotation is rigid | high (not executed) | Cameras.PitchShrinksUp | Quaternions.UnitAxisRotationIsRigid |
