/** Heightfield chunk generation for the CPU path tracer
    (src/path_tracing/chunk.rs): one unit cube per column of a 32 x 32 chunk. */
module PathChunk {
  import opened Vectors
  import opened Cubes

  const CHUNK_SIZE: int := 32

  /** The Perlin noise sampler `perlin.get([x, y])`, a library call, as a parameter. */
  type Noise = (real, real) -> real

  /** One draw of `rng.gen_range(0..100)`. */
  type Percent = k: int | 0 <= k < 100

  /** The successive draws of the thread-local random generator during one call:
      `draw(k)` is the k-th draw. */
  type Draws = nat -> Percent

  /** `PTObject`: the cubes of one chunk. */
  datatype PTObject = PTObject(cubes: seq<Cube>)
  {
    /** `PTObject::get_cubes`: the stored list, unchanged. */
    function GetCubes(): seq<Cube>
    {
      cubes
    }
  }

  /** The height sample of world column `(wx, wy)`: the noise at a tenth of the
      coordinate, times 4, rounded down. */
  function ColumnHeight(noise: Noise, wx: int, wy: int): int
  {
    (noise(wx as real / 10.0, wy as real / 10.0) * 4.0).Floor
  }

  /** The colour made from three draws: each of r, g, b is k / 100, alpha is 1. */
  function DrawColor(draw: Draws, k: nat): Vec4
  {
    [draw(k) as real / 100.0, draw(k + 1) as real / 100.0, draw(k + 2) as real / 100.0, 1.0]
  }

  /** The cube emitted for local column `(x, y)` of chunk `(cx, cy)`; it is the
      `32 * y + x`-th cube pushed, so it uses the draws from `3 * (32 * y + x)`. */
  function ColumnCube(cx: int, cy: int, noise: Noise, draw: Draws, x: nat, y: nat): Cube
    requires x < CHUNK_SIZE && y < CHUNK_SIZE
  {
    var wx, wy := cx * CHUNK_SIZE + x, cy * CHUNK_SIZE + y;
    NewCubeAt([wx as real, wy as real, ColumnHeight(noise, wx, wy) as real],
              DrawColor(draw, 3 * (CHUNK_SIZE * y + x)))
  }

  /** The cube list of chunk `(cx, cy)` as a specification: position `i` holds the
      cube of column `(i % 32, i / 32)` (row-major, y outer). */
  function ChunkCubes(cx: int, cy: int, noise: Noise, draw: Draws): (cs: seq<Cube>)
    ensures |cs| == CHUNK_SIZE * CHUNK_SIZE
  {
    seq(CHUNK_SIZE * CHUNK_SIZE, i requires 0 <= i < CHUNK_SIZE * CHUNK_SIZE =>
      ColumnCube(cx, cy, noise, draw, i % CHUNK_SIZE, i / CHUNK_SIZE))
  }

  /** `PTObject::new`: a nested loop, y outer and x inner, pushing one cube per
      column. */
  method NewPTObject(cx: int, cy: int, noise: Noise, draw: Draws) returns (o: PTObject)
    ensures |o.cubes| == CHUNK_SIZE * CHUNK_SIZE
    ensures o.cubes == ChunkCubes(cx, cy, noise, draw)
  {
    var xOffset := cx * CHUNK_SIZE;
    var yOffset := cy * CHUNK_SIZE;
    var cubes: seq<Cube> := [];
    for y := 0 to CHUNK_SIZE
      invariant |cubes| == CHUNK_SIZE * y
      invariant forall i :: 0 <= i < |cubes| ==> cubes[i] == ColumnCube(cx, cy, noise, draw, i % CHUNK_SIZE, i / CHUNK_SIZE)
    {
      for x := 0 to CHUNK_SIZE
        invariant |cubes| == CHUNK_SIZE * y + x
        invariant forall i :: 0 <= i < |cubes| ==> cubes[i] == ColumnCube(cx, cy, noise, draw, i % CHUNK_SIZE, i / CHUNK_SIZE)
      {
        var zVal := ColumnHeight(noise, xOffset + x, yOffset + y);
        var k := 3 * |cubes|;
        var color := [draw(k) as real / 100.0, draw(k + 1) as real / 100.0, draw(k + 2) as real / 100.0, 1.0];
        var cube := NewCubeAt([(xOffset + x) as real, (yOffset + y) as real, zVal as real], color);
        cubes := cubes + [cube];
      }
    }
    o := PTObject(cubes);
  }

  // ---------------------------------------------------------------------------
  // Properties of the generated chunk
  // ---------------------------------------------------------------------------

  /** Position `32 * y + x` holds the cube whose minimum corner is
      `(cx * 32 + x, cy * 32 + y, height)`: the loop order is y outer, x inner. */
  lemma CubeAtColumn(cx: int, cy: int, noise: Noise, draw: Draws, x: nat, y: nat)
    requires x < CHUNK_SIZE && y < CHUNK_SIZE
    ensures var c := ChunkCubes(cx, cy, noise, draw)[CHUNK_SIZE * y + x];
      && c.min[0] == (cx * CHUNK_SIZE + x) as real
      && c.min[1] == (cy * CHUNK_SIZE + y) as real
      && c.min[2] == ColumnHeight(noise, cx * CHUNK_SIZE + x, cy * CHUNK_SIZE + y) as real
  {
    var i := CHUNK_SIZE * y + x;
    assert i % CHUNK_SIZE == x && i / CHUNK_SIZE == y;
  }

  /** The footprint of a chunk: every cube is a unit cube standing on a column of
      `[cx*32, cx*32+32) x [cy*32, cy*32+32)` at an integral height. */
  lemma CubesInFootprint(cx: int, cy: int, noise: Noise, draw: Draws, i: nat)
    requires i < CHUNK_SIZE * CHUNK_SIZE
    ensures var c := ChunkCubes(cx, cy, noise, draw)[i];
      && (cx * CHUNK_SIZE) as real <= c.min[0] < (cx * CHUNK_SIZE + CHUNK_SIZE) as real
      && (cy * CHUNK_SIZE) as real <= c.min[1] < (cy * CHUNK_SIZE + CHUNK_SIZE) as real
      && c.min[0] == c.min[0].Floor as real && c.min[1] == c.min[1].Floor as real
      && c.min[2] == c.min[2].Floor as real
      && (forall d :: 0 <= d < 3 ==> c.max[d] == c.min[d] + 1.0)
  {
  }

  /** Exactly one cube per column: distinct positions stand on distinct columns. */
  lemma OneCubePerColumn(cx: int, cy: int, noise: Noise, draw: Draws, i: nat, j: nat)
    requires i < CHUNK_SIZE * CHUNK_SIZE && j < CHUNK_SIZE * CHUNK_SIZE
    ensures var cs := ChunkCubes(cx, cy, noise, draw);
      (cs[i].min[0] == cs[j].min[0] && cs[i].min[1] == cs[j].min[1]) <==> i == j
  {
    var cs := ChunkCubes(cx, cy, noise, draw);
    if cs[i].min[0] == cs[j].min[0] && cs[i].min[1] == cs[j].min[1] {
      assert i % CHUNK_SIZE == j % CHUNK_SIZE && i / CHUNK_SIZE == j / CHUNK_SIZE;
      assert i == CHUNK_SIZE * (i / CHUNK_SIZE) + i % CHUNK_SIZE;
      assert j == CHUNK_SIZE * (j / CHUNK_SIZE) + j % CHUNK_SIZE;
    }
  }

  /** Every column of the footprint has a cube. */
  lemma EveryColumnCovered(cx: int, cy: int, noise: Noise, draw: Draws, wx: int, wy: int)
    requires cx * CHUNK_SIZE <= wx < cx * CHUNK_SIZE + CHUNK_SIZE
    requires cy * CHUNK_SIZE <= wy < cy * CHUNK_SIZE + CHUNK_SIZE
    ensures exists i :: 0 <= i < CHUNK_SIZE * CHUNK_SIZE &&
                        ChunkCubes(cx, cy, noise, draw)[i].min[0] == wx as real &&
                        ChunkCubes(cx, cy, noise, draw)[i].min[1] == wy as real
  {
    var x, y := wx - cx * CHUNK_SIZE, wy - cy * CHUNK_SIZE;
    CubeAtColumn(cx, cy, noise, draw, x, y);
  }

  /** Every colour is opaque with r, g, b of the form k / 100 for an integer k in
      `[0, 100)`. */
  lemma ChunkColors(cx: int, cy: int, noise: Noise, draw: Draws, i: nat)
    requires i < CHUNK_SIZE * CHUNK_SIZE
    ensures var col := ChunkCubes(cx, cy, noise, draw)[i].color;
      && col[3] == 1.0
      && forall j :: 0 <= j < 3 ==>
           0.0 <= col[j] < 1.0 && col[j] * 100.0 == (col[j] * 100.0).Floor as real
  {
  }
}
