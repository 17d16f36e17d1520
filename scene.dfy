/** The scene of the CPU path tracer (src/path_tracing/scene.rs): the chunk
    occupancy grid, the cube list assembled from four chunks, and the per-ray
    colour query. */
module Scenes {
  import opened Vectors
  import opened Cubes
  import opened PathChunk
  import opened RowMajor

  /** The number of chunks along each side of the occupancy grid. */
  const GRID_SIZE: nat := 16

  /** The sky colour returned for rays that hit nothing. */
  const BACKGROUND: Vec4 := [0.4, 0.5, 0.6, 1.0]

  datatype Scene = Scene(cubes: seq<Cube>, background: Vec4, chunkGrid: seq<bool>, gridSize: nat)

  // ---------------------------------------------------------------------------
  // The centred chunk grid
  // ---------------------------------------------------------------------------

  /** `chunk_xy_to_grid_location`: the slot of row `gridSize/2 + chunkY`,
      column `gridSize/2 + chunkX` of a row-major `gridSize x gridSize` grid. For
      a chunk on the grid the slot lies in the grid, and `/` and `%` give back
      the centred row and column. */
  function GridLocation(gridSize: nat, chunkX: int, chunkY: int): (loc: int)
    ensures InGrid(gridSize, chunkX, chunkY) ==>
              && 0 <= loc < gridSize * gridSize
              && loc / gridSize == gridSize / 2 + chunkY
              && loc % gridSize == gridSize / 2 + chunkX
  {
    var row, col := gridSize / 2 + chunkY, gridSize / 2 + chunkX;
    if InGrid(gridSize, chunkX, chunkY) then
      RowMajorBounds(gridSize, row, col);
      RowMajorDivMod(gridSize, row, col);
      row * gridSize + col
    else
      row * gridSize + col
  }

  /** The chunk coordinates that the centring offset maps onto the grid. */
  predicate InGrid(gridSize: nat, chunkX: int, chunkY: int)
  {
    0 <= gridSize / 2 + chunkX < gridSize && 0 <= gridSize / 2 + chunkY < gridSize
  }

  /** The chunk coordinates of grid slot `i`, the inverse of `GridLocation`. */
  function GridCoords(gridSize: nat, i: int): (int, int)
    requires gridSize > 0
  {
    (i % gridSize - gridSize / 2, i / gridSize - gridSize / 2)
  }

  /** Chunks on the grid map into `[0, gridSize * gridSize)`, so `Scene::new` may
      index `chunk_grid` with the result. */
  lemma GridLocationInBounds(gridSize: nat, chunkX: int, chunkY: int)
    requires InGrid(gridSize, chunkX, chunkY)
    ensures 0 <= GridLocation(gridSize, chunkX, chunkY) < gridSize * gridSize
  {
    RowMajorBounds(gridSize, gridSize / 2 + chunkY, gridSize / 2 + chunkX);
  }

  /** Distinct chunks on the grid have distinct slots. */
  lemma GridLocationInjective(gridSize: nat, x1: int, y1: int, x2: int, y2: int)
    requires InGrid(gridSize, x1, y1) && InGrid(gridSize, x2, y2)
    requires GridLocation(gridSize, x1, y1) == GridLocation(gridSize, x2, y2)
    ensures x1 == x2 && y1 == y2
  {
    RowMajorUnique(gridSize, gridSize / 2 + y1, gridSize / 2 + x1, gridSize / 2 + y2, gridSize / 2 + x2);
  }

  /** Every slot of the grid belongs to a chunk on the grid: `GridCoords` is a
      right inverse of `GridLocation`. */
  lemma GridCoordsRoundTrip(gridSize: nat, i: int)
    requires gridSize > 0 && 0 <= i < gridSize * gridSize
    ensures InGrid(gridSize, GridCoords(gridSize, i).0, GridCoords(gridSize, i).1)
    ensures GridLocation(gridSize, GridCoords(gridSize, i).0, GridCoords(gridSize, i).1) == i
  {
    var row, col := i / gridSize, i % gridSize;
    SlotRowColumn(gridSize, i);
    var half := gridSize / 2;
    assert GridCoords(gridSize, i) == (col - half, row - half);
    assert half + (row - half) == row && half + (col - half) == col;
  }

  /** ... and a left inverse: a chunk on the grid is recovered from its slot. */
  lemma GridLocationRoundTrip(gridSize: nat, chunkX: int, chunkY: int)
    requires gridSize > 0 && InGrid(gridSize, chunkX, chunkY)
    ensures GridCoords(gridSize, GridLocation(gridSize, chunkX, chunkY)) == (chunkX, chunkY)
  {
    var j := GridLocation(gridSize, chunkX, chunkY);
    assert j == (j / gridSize) * gridSize + j % gridSize;
    RowMajorUnique(gridSize, j / gridSize, j % gridSize, gridSize / 2 + chunkY, gridSize / 2 + chunkX);
  }

  // ---------------------------------------------------------------------------
  // Building a scene
  // ---------------------------------------------------------------------------

  /** The chunk loaded by iteration `k` of `Scene::new`'s loops (x outer, y inner,
      both over `-1..1`). */
  function LoadOrder(k: nat): (int, int)
    requires k < 4
  {
    if k == 0 then (-1, -1) else if k == 1 then (-1, 0) else if k == 2 then (0, -1) else (0, 0)
  }

  /** The cube list after the first `n` iterations. */
  function LoadedCubes(noise: Noise, draws: (int, int) -> Draws, n: nat): seq<Cube>
    requires n <= 4
  {
    if n == 0 then []
    else
      var (cx, cy) := LoadOrder(n - 1);
      LoadedCubes(noise, draws, n - 1) + ChunkCubes(cx, cy, noise, draws(cx, cy))
  }

  /** The occupancy grid after the first `n` iterations. */
  function GridAfter(n: nat): (grid: seq<bool>)
    requires n <= 4
    ensures |grid| == GRID_SIZE * GRID_SIZE
  {
    if n == 0 then seq(GRID_SIZE * GRID_SIZE, _ => false)
    else
      var (cx, cy) := LoadOrder(n - 1);
      GridLocationInBounds(GRID_SIZE, cx, cy);
      GridAfter(n - 1)[GridLocation(GRID_SIZE, cx, cy) := true]
  }

  /** Iteration `k = 2 (x + 1) + (y + 1)` loads chunk `(x, y)`: it appends
      that chunk's cubes to the list of the first `k` iterations and marks its
      slot in their grid. */
  lemma LoadStep(noise: Noise, draws: (int, int) -> Draws, k: nat, x: int, y: int, cubes: seq<Cube>, grid: seq<bool>)
    requires -1 <= x < 1 && -1 <= y < 1 && k == 2 * (x + 1) + (y + 1)
    requires cubes == LoadedCubes(noise, draws, k) && grid == GridAfter(k)
    ensures 0 <= GridLocation(GRID_SIZE, x, y) < |grid|
    ensures cubes + ChunkCubes(x, y, noise, draws(x, y)) == LoadedCubes(noise, draws, k + 1)
    ensures grid[GridLocation(GRID_SIZE, x, y) := true] == GridAfter(k + 1)
  {
    assert LoadOrder(k) == (x, y);
    GridLocationInBounds(GRID_SIZE, x, y);
  }

  /** After the four iterations exactly the slots of the chunks in {-1, 0}^2 are
      marked. */
  lemma GridAfterLoading(i: int)
    requires 0 <= i < GRID_SIZE * GRID_SIZE
    ensures GridAfter(4)[i] <==> exists cx, cy :: -1 <= cx < 1 && -1 <= cy < 1 && i == GridLocation(GRID_SIZE, cx, cy)
  {
    assert GridAfter(4)[i] <==> i in {119, 120, 135, 136} by {
      assert GridAfter(1)[i] <==> i == 119;
      assert GridAfter(2)[i] <==> i in {119, 135};
      assert GridAfter(3)[i] <==> i in {119, 135, 120};
    }
    if i == 119 {
      assert GridLocation(GRID_SIZE, -1, -1) == i;
    } else if i == 135 {
      assert GridLocation(GRID_SIZE, -1, 0) == i;
    } else if i == 120 {
      assert GridLocation(GRID_SIZE, 0, -1) == i;
    } else if i == 136 {
      assert GridLocation(GRID_SIZE, 0, 0) == i;
    } else {
      forall cx, cy | -1 <= cx < 1 && -1 <= cy < 1
        ensures GridLocation(GRID_SIZE, cx, cy) != i
      {
        LoadedSlot(cx, cy);
      }
    }
  }

  /** The slots of the four loaded chunks. */
  lemma LoadedSlot(cx: int, cy: int)
    requires -1 <= cx < 1 && -1 <= cy < 1
    ensures GridLocation(GRID_SIZE, cx, cy) in {119, 120, 135, 136}
  {
  }

  /** The cube list after the four iterations. */
  lemma LoadedCubesAll(noise: Noise, draws: (int, int) -> Draws)
    ensures LoadedCubes(noise, draws, 4) ==
      ChunkCubes(-1, -1, noise, draws(-1, -1)) + ChunkCubes(-1, 0, noise, draws(-1, 0))
      + ChunkCubes(0, -1, noise, draws(0, -1)) + ChunkCubes(0, 0, noise, draws(0, 0))
  {
    assert LoadOrder(0) == (-1, -1) && LoadOrder(1) == (-1, 0) && LoadOrder(2) == (0, -1) && LoadOrder(3) == (0, 0);
    assert LoadedCubes(noise, draws, 1) == ChunkCubes(-1, -1, noise, draws(-1, -1));
  }

  /** `Scene::new`: loads the four chunks `(x, y)` with x, y in {-1, 0}, appending
      their cubes and marking their grid slots. `draws(x, y)` stands for the
      random draws made while chunk `(x, y)` is generated. */
  method NewScene(noise: Noise, draws: (int, int) -> Draws) returns (s: Scene)
    ensures s.gridSize == GRID_SIZE && s.background == BACKGROUND
    ensures |s.chunkGrid| == GRID_SIZE * GRID_SIZE
    ensures forall i :: 0 <= i < |s.chunkGrid| ==>
              (s.chunkGrid[i] <==> exists cx, cy :: -1 <= cx < 1 && -1 <= cy < 1 && i == GridLocation(GRID_SIZE, cx, cy))
    ensures s.cubes == ChunkCubes(-1, -1, noise, draws(-1, -1)) + ChunkCubes(-1, 0, noise, draws(-1, 0))
                     + ChunkCubes(0, -1, noise, draws(0, -1)) + ChunkCubes(0, 0, noise, draws(0, 0))
    ensures |s.cubes| == 4 * CHUNK_SIZE * CHUNK_SIZE
  {
    var cubes: seq<Cube> := [];
    var gridSize := GRID_SIZE;
    var chunkGrid: seq<bool> := seq(gridSize * gridSize, _ => false);
    ghost var k: nat := 0;
    for x := -1 to 1
      invariant k == 2 * (x + 1)
      invariant cubes == LoadedCubes(noise, draws, k)
      invariant chunkGrid == GridAfter(k)
    {
      for y := -1 to 1
        invariant k == 2 * (x + 1) + (y + 1)
        invariant cubes == LoadedCubes(noise, draws, k)
        invariant chunkGrid == GridAfter(k)
      {
        LoadStep(noise, draws, k, x, y, cubes, chunkGrid);
        var chunk := NewPTObject(x, y, noise, draws(x, y));
        cubes := cubes + chunk.GetCubes();
        var index := GridLocation(gridSize, x, y);
        chunkGrid := chunkGrid[index := true];
        k := k + 1;
      }
    }
    s := Scene(cubes, BACKGROUND, chunkGrid, gridSize);
    LoadedScene(noise, draws, s);
  }

  /** The scene holding the cube list and the grid after the four iterations
      has the cubes of the four chunks and marks exactly their slots. */
  lemma LoadedScene(noise: Noise, draws: (int, int) -> Draws, s: Scene)
    requires s.cubes == LoadedCubes(noise, draws, 4) && s.chunkGrid == GridAfter(4)
    ensures |s.chunkGrid| == GRID_SIZE * GRID_SIZE
    ensures forall i :: 0 <= i < |s.chunkGrid| ==>
              (s.chunkGrid[i] <==> exists cx, cy :: -1 <= cx < 1 && -1 <= cy < 1 && i == GridLocation(GRID_SIZE, cx, cy))
    ensures s.cubes == ChunkCubes(-1, -1, noise, draws(-1, -1)) + ChunkCubes(-1, 0, noise, draws(-1, 0))
                     + ChunkCubes(0, -1, noise, draws(0, -1)) + ChunkCubes(0, 0, noise, draws(0, 0))
    ensures |s.cubes| == 4 * CHUNK_SIZE * CHUNK_SIZE
  {
    LoadedCubesAll(noise, draws);
    GridAfterLoadingAll();
  }

  /** `GridAfterLoading` for every slot at once. */
  lemma GridAfterLoadingAll()
    ensures forall i :: 0 <= i < GRID_SIZE * GRID_SIZE ==>
              (GridAfter(4)[i] <==> exists cx, cy :: -1 <= cx < 1 && -1 <= cy < 1 && i == GridLocation(GRID_SIZE, cx, cy))
  {
    forall i | 0 <= i < GRID_SIZE * GRID_SIZE
      ensures GridAfter(4)[i] <==> exists cx, cy :: -1 <= cx < 1 && -1 <= cy < 1 && i == GridLocation(GRID_SIZE, cx, cy)
    {
      GridAfterLoading(i);
    }
  }

  /** `Scene::empty_scene`: no cubes, no chunk marked, the same background. */
  function EmptyScene(): (s: Scene)
    ensures s.cubes == [] && s.background == BACKGROUND && s.gridSize == GRID_SIZE
    ensures |s.chunkGrid| == GRID_SIZE * GRID_SIZE && forall i :: 0 <= i < |s.chunkGrid| ==> !s.chunkGrid[i]
  {
    Scene([], BACKGROUND, seq(GRID_SIZE * GRID_SIZE, _ => false), GRID_SIZE)
  }

  // ---------------------------------------------------------------------------
  // The colour of a ray
  // ---------------------------------------------------------------------------

  /** The ray after `intersect_ray` has been applied with every cube in list order. */
  function Trace(cubes: seq<Cube>, ray: Ray): Ray
  {
    if cubes == [] then ray
    else Intersect(cubes[|cubes| - 1], Trace(cubes[..|cubes| - 1], ray))
  }

  /** The colour `get_color` returns: the recorded colour if the final distance is
      below the f32::MAX sentinel, the background otherwise. */
  function ColorOf(scene: Scene, ray: Ray): Vec4
  {
    var r := Trace(scene.cubes, ray);
    if r.distance < F32_MAX then r.color else scene.background
  }

  /** `Scene::get_color`: every cube is tested in turn, with no early exit. */
  method GetColor(scene: Scene, ray: Ray) returns (rgba: Vec4)
    ensures rgba == ColorOf(scene, ray)
  {
    rgba := scene.background;
    var r := ray;
    for i := 0 to |scene.cubes|
      invariant r == Trace(scene.cubes[..i], ray)
    {
      assert scene.cubes[..i + 1][..i] == scene.cubes[..i];
      r := IntersectRay(scene.cubes[i], r);
    }
    assert scene.cubes[..|scene.cubes|] == scene.cubes;
    if r.distance < F32_MAX {
      rgba := r.color;
    }
  }

  /** Tracing only ever changes the recorded distance and colour. */
  lemma {:induction false} TraceKeepsRay(cubes: seq<Cube>, ray: Ray)
    ensures Trace(cubes, ray) == ray.(distance := Trace(cubes, ray).distance, color := Trace(cubes, ray).color)
  {
    if cubes != [] {
      TraceKeepsRay(cubes[..|cubes| - 1], ray);
    }
  }

  /** The cube at the end of the list is tested with the original ray's origin and
      velocity, so whether it hits does not depend on the cubes before it. */
  lemma LastCubeSeesOriginalRay(cubes: seq<Cube>, ray: Ray)
    requires cubes != []
    ensures var c, prev := cubes[|cubes| - 1], Trace(cubes[..|cubes| - 1], ray);
      Hits(c, prev) == Hits(c, ray) && SlabOf(c, prev) == SlabOf(c, ray)
  {
    var prev := Trace(cubes[..|cubes| - 1], ray);
    TraceKeepsRay(cubes[..|cubes| - 1], ray);
    HitsIgnoresRecord(cubes[|cubes| - 1], ray, prev.distance, prev.color);
  }

  /** When no cube is hit, the ray comes back unchanged. */
  lemma {:induction false} TraceNoHit(cubes: seq<Cube>, ray: Ray)
    requires forall j :: 0 <= j < |cubes| ==> !Hits(cubes[j], ray)
    ensures Trace(cubes, ray) == ray
  {
    if cubes != [] {
      TraceNoHit(cubes[..|cubes| - 1], ray);
      LastCubeSeesOriginalRay(cubes, ray);
    }
  }

  /** When cube `k` is the last one in list order that the ray hits, the ray comes
      back carrying that cube's entry distance and colour, whatever cubes before
      it were hit and at whatever distance. */
  lemma {:induction false} TraceLastHit(cubes: seq<Cube>, ray: Ray, k: nat)
    requires k < |cubes| && Hits(cubes[k], ray)
    requires forall j :: k < j < |cubes| ==> !Hits(cubes[j], ray)
    ensures Trace(cubes, ray) == ray.(distance := SlabOf(cubes[k], ray).tnear, color := cubes[k].color)
  {
    LastCubeSeesOriginalRay(cubes, ray);
    var init := cubes[..|cubes| - 1];
    if k < |cubes| - 1 {
      TraceLastHit(init, ray, k);
    } else {
      TraceKeepsRay(init, ray);
    }
  }

  /** `get_color` of a ray that hits nothing is the background for a fresh ray and
      the ray's own colour if it already carried a distance below the sentinel. */
  lemma ColorOfNoHit(scene: Scene, ray: Ray)
    requires forall j :: 0 <= j < |scene.cubes| ==> !Hits(scene.cubes[j], ray)
    ensures ColorOf(scene, ray) == if ray.distance < F32_MAX then ray.color else scene.background
  {
    TraceNoHit(scene.cubes, ray);
  }

  /** `get_color` returns the colour of the last cube hit in list order, not of the
      nearest one (unless that hit's distance sits at the sentinel itself). */
  lemma ColorOfLastHit(scene: Scene, ray: Ray, k: nat)
    requires k < |scene.cubes| && Hits(scene.cubes[k], ray)
    requires forall j :: k < j < |scene.cubes| ==> !Hits(scene.cubes[j], ray)
    ensures ColorOf(scene, ray) ==
      if SlabOf(scene.cubes[k], ray).tnear < F32_MAX then scene.cubes[k].color else scene.background
  {
    TraceLastHit(scene.cubes, ray, k);
  }

  /** For a fresh ray (distance at the sentinel), `get_color` falls back to the
      background exactly when the final distance stayed at the sentinel: no cube
      was hit, or the last hit was at the sentinel distance itself. */
  lemma FreshRayBackground(scene: Scene, ray: Ray)
    requires ray.distance == F32_MAX
    ensures (Trace(scene.cubes, ray).distance < F32_MAX) <==>
      exists k :: 0 <= k < |scene.cubes| && Hits(scene.cubes[k], ray) &&
                  (forall j :: k < j < |scene.cubes| ==> !Hits(scene.cubes[j], ray)) &&
                  SlabOf(scene.cubes[k], ray).tnear < F32_MAX
  {
    var cs := scene.cubes;
    if exists k :: 0 <= k < |cs| && Hits(cs[k], ray) {
      var k := LastHitIndex(cs, ray);
      TraceLastHit(cs, ray, k);
    } else {
      TraceNoHit(cs, ray);
    }
  }

  /** The index of the last cube in the list that the ray hits. */
  lemma LastHitIndex(cubes: seq<Cube>, ray: Ray) returns (k: nat)
    requires exists k :: 0 <= k < |cubes| && Hits(cubes[k], ray)
    ensures k < |cubes| && Hits(cubes[k], ray)
    ensures forall j :: k < j < |cubes| ==> !Hits(cubes[j], ray)
  {
    k := |cubes| - 1;
    while !Hits(cubes[k], ray)
      invariant 0 <= k < |cubes|
      invariant forall j :: k < j < |cubes| ==> !Hits(cubes[j], ray)
      invariant exists i :: 0 <= i <= k && Hits(cubes[i], ray)
      decreases k
    {
      k := k - 1;
    }
  }

  /** A fresh ray in the empty scene sees the background. */
  lemma EmptySceneColor(ray: Ray)
    requires ray.distance == F32_MAX
    ensures ColorOf(EmptyScene(), ray) == BACKGROUND
  {
  }
}
