/** The rasterised chunk mesh (src/chunk.rs): eight vertices and 36 triangle
    indices per column cube, laid out in fixed-size vertex and index arrays. */
module ChunkMesh {
  import opened Vectors
  import PathChunk

  const CHUNK_SIZE: int := 32

  /** One past the largest `u16`. */
  const U16_LIMIT: int := 0x1_0000

  /** The twelve triangles of a cube over its corners 0..7, two per face:
      top (+z), bottom (-z), front (-y), back (+y), left (-x), right (+x). */
  const INDICES: seq<int> := [
    7, 4, 5,  7, 5, 6,
    3, 1, 0,  3, 2, 1,
    4, 0, 1,  4, 1, 5,
    6, 2, 3,  6, 3, 7,
    7, 3, 0,  7, 0, 4,
    5, 2, 6,  5, 1, 2
  ]

  datatype Vertex = Vertex(position: Vec3, color: Vec3)

  /** `Vertex::default()` */
  const DEFAULT_VERTEX: Vertex := Vertex([0.0, 0.0, 0.0], [0.0, 0.0, 0.0])

  /** The offset of corner `k` from corner 0: corners 0..3 go round the bottom
      face counter-clockwise from the minimum corner, 4..7 lie above them. */
  function CornerOffset(k: nat): (o: Vec3)
    requires k < 8
  {
    [if k % 4 == 1 || k % 4 == 2 then 1.0 else 0.0,
     if k % 4 == 2 || k % 4 == 3 then 1.0 else 0.0,
     if k >= 4 then 1.0 else 0.0]
  }

  function Add(a: Vec3, b: Vec3): Vec3
  {
    [a[0] + b[0], a[1] + b[1], a[2] + b[2]]
  }

  /** Every index names one of the eight corners. */
  lemma IndicesInRange()
    ensures |INDICES| == 36
    ensures forall i :: 0 <= i < 36 ==> 0 <= INDICES[i] < 8
  {
  }

  /** The eight corners are distinct corners of the unit cube. */
  lemma CornersOfUnitCube(j: nat, k: nat)
    requires j < 8 && k < 8
    ensures forall d :: 0 <= d < 3 ==> CornerOffset(k)[d] == 0.0 || CornerOffset(k)[d] == 1.0
    ensures CornerOffset(j) == CornerOffset(k) ==> j == k
  {
    if CornerOffset(j) == CornerOffset(k) {
      assert CornerOffset(j)[0] == CornerOffset(k)[0] && CornerOffset(j)[1] == CornerOffset(k)[1]
          && CornerOffset(j)[2] == CornerOffset(k)[2];
    }
  }

  /** The axis and side of the face that triangles `2f` and `2f + 1` cover. */
  function FaceAxis(f: nat): nat
    requires f < 6
  {
    [2, 2, 1, 1, 0, 0][f]
  }

  function FaceSide(f: nat): real
    requires f < 6
  {
    [1.0, 0.0, 0.0, 1.0, 0.0, 1.0][f]
  }

  /** Each triangle of the table lies in the face its comment names: all three of
      its corners share that face's coordinate. */
  lemma TrianglesLieOnFaces(t: nat, j: nat)
    requires t < 12 && j < 3
    ensures CornerOffset(INDICES[3 * t + j])[FaceAxis(t / 2)] == FaceSide(t / 2)
  {
  }

  /** `create_cube_mesh`: the eight corners of the unit cube at `(x, y, z)`, all of
      one colour, and the index table shifted by `indexOffset`. The colour comes
      from the random generator and is a parameter here. The `u16` addition must
      not overflow (a debug build panics), which the caller guarantees. */
  method CreateCubeMesh(x: real, y: real, z: real, indexOffset: int, color: Vec3)
    returns (vertices: seq<Vertex>, indices: seq<int>)
    requires 0 <= indexOffset && indexOffset + 7 < U16_LIMIT
    ensures |vertices| == 8
    ensures forall k :: 0 <= k < 8 ==>
              vertices[k].color == color && vertices[k].position == Add([x, y, z], CornerOffset(k))
    ensures |indices| == 36
    ensures forall i :: 0 <= i < 36 ==> indices[i] == INDICES[i] + indexOffset
    ensures forall i :: 0 <= i < 36 ==> indexOffset <= indices[i] <= indexOffset + 7 < U16_LIMIT
  {
    vertices := [
      Vertex([x, y, z], color),
      Vertex([x + 1.0, y, z], color),
      Vertex([x + 1.0, y + 1.0, z], color),
      Vertex([x, y + 1.0, z], color),
      Vertex([x, y, z + 1.0], color),
      Vertex([x + 1.0, y, z + 1.0], color),
      Vertex([x + 1.0, y + 1.0, z + 1.0], color),
      Vertex([x, y + 1.0, z + 1.0], color)
    ];
    var table := new int[36](i requires 0 <= i < 36 => INDICES[i]);
    for i := 0 to 36
      invariant forall j :: 0 <= j < i ==> table[j] == INDICES[j] + indexOffset
      invariant forall j :: i <= j < 36 ==> table[j] == INDICES[j]
    {
      table[i] := table[i] + indexOffset;
    }
    indices := table[..];
    IndicesInRange();
  }

  // ---------------------------------------------------------------------------
  // The chunk's vertex and index arrays
  // ---------------------------------------------------------------------------

  /** The number of column cubes in a chunk. */
  const CUBES: int := CHUNK_SIZE * CHUNK_SIZE

  /** The corner 0 of cube `n` (column `(n % 32, n / 32)`): its world column and the
      noise height, not rounded. */
  function MeshCubeOrigin(chunkX: int, chunkY: int, noise: PathChunk.Noise, n: nat): Vec3
    requires n < CUBES
  {
    var wx, wy := chunkX * CHUNK_SIZE + n % CHUNK_SIZE, chunkY * CHUNK_SIZE + n / CHUNK_SIZE;
    [wx as real, wy as real, noise(wx as real / 10.0, wy as real / 10.0) * 4.0]
  }

  /** The colour of cube `n`, from the three draws it makes. */
  function MeshColor(draw: PathChunk.Draws, n: nat): Vec3
  {
    [draw(3 * n) as real / 100.0, draw(3 * n + 1) as real / 100.0, draw(3 * n + 2) as real / 100.0]
  }

  /** Vertex slot `i` holds corner `i % 8` of cube `i / 8`. */
  function MeshVertex(chunkX: int, chunkY: int, noise: PathChunk.Noise, draw: PathChunk.Draws, i: nat): Vertex
    requires i < 8 * CUBES
  {
    Vertex(Add(MeshCubeOrigin(chunkX, chunkY, noise, i / 8), CornerOffset(i % 8)), MeshColor(draw, i / 8))
  }

  /** Index slot `i` holds entry `i % 36` of the table shifted to cube `i / 36`'s
      vertex block. */
  function MeshIndex(i: nat): int
    requires i < 36 * CUBES
  {
    INDICES[i % 36] + 8 * (i / 36)
  }

  /** Slot `8n + k` of the vertex array is corner `k` of cube `n`. */
  lemma VertexSlot(chunkX: int, chunkY: int, noise: PathChunk.Noise, draw: PathChunk.Draws, n: nat, k: nat)
    requires n < CUBES && k < 8
    ensures MeshVertex(chunkX, chunkY, noise, draw, 8 * n + k)
         == Vertex(Add(MeshCubeOrigin(chunkX, chunkY, noise, n), CornerOffset(k)), MeshColor(draw, n))
  {
    assert (8 * n + k) / 8 == n && (8 * n + k) % 8 == k;
  }

  /** Slot `36n + k` of the index array is table entry `k` shifted to cube `n`. */
  lemma IndexSlot(n: nat, k: nat)
    requires n < CUBES && k < 36
    ensures MeshIndex(36 * n + k) == INDICES[k] + 8 * n
  {
    assert (36 * n + k) / 36 == n && (36 * n + k) % 36 == k;
  }

  /** The vertex array holds the first `n` cubes' vertices. */
  ghost predicate VerticesFilled(vertices: array<Vertex>, chunkX: int, chunkY: int,
                                 noise: PathChunk.Noise, draw: PathChunk.Draws, n: nat)
    reads vertices
  {
    && vertices.Length == 8 * CUBES && n <= CUBES
    && forall i :: 0 <= i < 8 * n ==> vertices[i] == MeshVertex(chunkX, chunkY, noise, draw, i)
  }

  /** The index array holds the first `n` cubes' indices. */
  ghost predicate IndicesFilled(indices: array<int>, n: nat)
    reads indices
  {
    && indices.Length == 36 * CUBES && n <= CUBES
    && forall i :: 0 <= i < 36 * n ==> indices[i] == MeshIndex(i)
  }

  /** The body of the inner loop of `Object::new_chunk` for column `(x, y)`: build
      the cube at the column's noise height with the running index offset and copy
      its vertices and indices to the column's slots. */
  method PlaceColumn(vertices: array<Vertex>, indices: array<int>, chunkX: int, chunkY: int,
                     noise: PathChunk.Noise, draw: PathChunk.Draws, x: nat, y: nat, currentOffsetIndices: int)
    requires x < CHUNK_SIZE && y < CHUNK_SIZE && currentOffsetIndices == 8 * (CHUNK_SIZE * y + x)
    requires VerticesFilled(vertices, chunkX, chunkY, noise, draw, CHUNK_SIZE * y + x)
    requires IndicesFilled(indices, CHUNK_SIZE * y + x)
    modifies vertices, indices
    ensures VerticesFilled(vertices, chunkX, chunkY, noise, draw, CHUNK_SIZE * y + x + 1)
    ensures IndicesFilled(indices, CHUNK_SIZE * y + x + 1)
  {
    var n := CHUNK_SIZE * y + x;
    var xOffset, yOffset := chunkX * CHUNK_SIZE, chunkY * CHUNK_SIZE;
    var zVal := noise((xOffset + x) as real / 10.0, (yOffset + y) as real / 10.0) * 4.0;
    var cubeVertex, cubeIndex := CreateCubeMesh((xOffset + x) as real, (yOffset + y) as real, zVal,
                                                 currentOffsetIndices, MeshColor(draw, n));
    assert n % CHUNK_SIZE == x && n / CHUNK_SIZE == y;
    assert [(xOffset + x) as real, (yOffset + y) as real, zVal] == MeshCubeOrigin(chunkX, chunkY, noise, n);
    forall k | 0 <= k < 8
      ensures cubeVertex[k] == MeshVertex(chunkX, chunkY, noise, draw, 8 * n + k)
    {
      VertexSlot(chunkX, chunkY, noise, draw, n, k);
    }
    forall k | 0 <= k < 36
      ensures cubeIndex[k] == MeshIndex(36 * n + k)
    {
      IndexSlot(n, k);
    }
    PlaceVertices(vertices, chunkX, chunkY, noise, draw, n, cubeVertex);
    PlaceIndices(indices, n, cubeIndex);
  }

  /** Copies cube `n`'s vertices into slots `[8n, 8n+8)`. */
  method PlaceVertices(vertices: array<Vertex>, chunkX: int, chunkY: int,
                       noise: PathChunk.Noise, draw: PathChunk.Draws, n: nat, cubeVertex: seq<Vertex>)
    requires n < CUBES && VerticesFilled(vertices, chunkX, chunkY, noise, draw, n)
    requires |cubeVertex| == 8
    requires forall k :: 0 <= k < 8 ==> cubeVertex[k] == MeshVertex(chunkX, chunkY, noise, draw, 8 * n + k)
    modifies vertices
    ensures VerticesFilled(vertices, chunkX, chunkY, noise, draw, n + 1)
  {
    var vIndex := n * 8;
    forall k | 0 <= k < 8 {
      vertices[vIndex + k] := cubeVertex[k];
    }
    forall i | vIndex <= i < vIndex + 8
      ensures vertices[i] == MeshVertex(chunkX, chunkY, noise, draw, i)
    {
      assert vertices[vIndex + (i - vIndex)] == cubeVertex[i - vIndex];
    }
  }

  /** Copies cube `n`'s indices into slots `[36n, 36n+36)`. */
  method PlaceIndices(indices: array<int>, n: nat, cubeIndex: seq<int>)
    requires n < CUBES && IndicesFilled(indices, n)
    requires |cubeIndex| == 36
    requires forall k :: 0 <= k < 36 ==> cubeIndex[k] == MeshIndex(36 * n + k)
    modifies indices
    ensures IndicesFilled(indices, n + 1)
  {
    var iIndex := n * 36;
    forall k | 0 <= k < 36 {
      indices[iIndex + k] := cubeIndex[k];
    }
    forall i | iIndex <= i < iIndex + 36
      ensures indices[i] == MeshIndex(i)
    {
      assert indices[iIndex + (i - iIndex)] == cubeIndex[i - iIndex];
    }
  }

  /** The array-filling loop of `Object::new_chunk`: column `(x, y)` copies its
      eight vertices to slots `[(32y+x)*8, +8)` and its 36 indices, shifted by
      the running offset, to slots `[(32y+x)*36, +36)`. Returns the contents of
      the two arrays handed to the GPU and `num_vertices`, which the source sets
      to the number of indices. */
  method NewChunkMesh(chunkX: int, chunkY: int, noise: PathChunk.Noise, draw: PathChunk.Draws)
    returns (vertexData: seq<Vertex>, indexData: seq<int>, numVertices: nat)
    ensures |vertexData| == 8 * CUBES && |indexData| == 36 * CUBES && numVertices == 36 * CUBES
    ensures forall i :: 0 <= i < |vertexData| ==> vertexData[i] == MeshVertex(chunkX, chunkY, noise, draw, i)
    ensures forall i :: 0 <= i < |indexData| ==> indexData[i] == MeshIndex(i)
  {
    var currentOffsetIndices := 0;
    var vertices := new Vertex[8 * CHUNK_SIZE * CHUNK_SIZE](_ => DEFAULT_VERTEX);
    var indices := new int[36 * CHUNK_SIZE * CHUNK_SIZE](_ => 0);
    for y := 0 to CHUNK_SIZE
      invariant currentOffsetIndices == 8 * (CHUNK_SIZE * y)
      invariant VerticesFilled(vertices, chunkX, chunkY, noise, draw, CHUNK_SIZE * y)
      invariant IndicesFilled(indices, CHUNK_SIZE * y)
    {
      for x := 0 to CHUNK_SIZE
        invariant currentOffsetIndices == 8 * (CHUNK_SIZE * y + x)
        invariant VerticesFilled(vertices, chunkX, chunkY, noise, draw, CHUNK_SIZE * y + x)
        invariant IndicesFilled(indices, CHUNK_SIZE * y + x)
      {
        PlaceColumn(vertices, indices, chunkX, chunkY, noise, draw, x, y, currentOffsetIndices);
        currentOffsetIndices := currentOffsetIndices + 8;
      }
    }
    vertexData, indexData, numVertices := vertices[..], indices[..], indices.Length;
  }

  // ---------------------------------------------------------------------------
  // Layout properties
  // ---------------------------------------------------------------------------

  /** Column `(x, y)` owns vertex slots `[8n, 8n+8)` and index slots `[36n, 36n+36)`
      for `n = 32y + x`: these blocks lie inside the arrays, blocks of different
      columns are disjoint, and together they cover both arrays. */
  lemma ColumnSlots(x1: nat, y1: nat, k1: nat, x2: nat, y2: nat, k2: nat, i: nat)
    requires x1 < CHUNK_SIZE && y1 < CHUNK_SIZE && x2 < CHUNK_SIZE && y2 < CHUNK_SIZE
    ensures k1 < 8 ==> 8 * (CHUNK_SIZE * y1 + x1) + k1 < 8 * CUBES
    ensures k1 < 36 ==> 36 * (CHUNK_SIZE * y1 + x1) + k1 < 36 * CUBES
    ensures k1 < 8 && k2 < 8 && 8 * (CHUNK_SIZE * y1 + x1) + k1 == 8 * (CHUNK_SIZE * y2 + x2) + k2 ==>
              x1 == x2 && y1 == y2 && k1 == k2
    ensures k1 < 36 && k2 < 36 && 36 * (CHUNK_SIZE * y1 + x1) + k1 == 36 * (CHUNK_SIZE * y2 + x2) + k2 ==>
              x1 == x2 && y1 == y2 && k1 == k2
    ensures i < 8 * CUBES ==> i == 8 * (CHUNK_SIZE * (i / 8 / CHUNK_SIZE) + (i / 8) % CHUNK_SIZE) + i % 8
    ensures i < 36 * CUBES ==> i == 36 * (CHUNK_SIZE * (i / 36 / CHUNK_SIZE) + (i / 36) % CHUNK_SIZE) + i % 36
  {
  }

  /** Each cube's indices point only into its own vertex block: index slot `i`
      belongs to cube `i / 36` and names a vertex of cube `i / 36`. */
  lemma IndicesStayInOwnCube(i: nat)
    requires i < 36 * CUBES
    ensures MeshIndex(i) / 8 == i / 36
    ensures 0 <= MeshIndex(i) < 8 * CUBES
  {
    IndicesInRange();
  }

  /** The largest index written is 8 * 1024 - 1 = 8191, so the `u16` additions
      never overflow. */
  lemma IndicesFitU16()
    ensures forall i :: 0 <= i < 36 * CUBES ==> MeshIndex(i) <= 8 * CUBES - 1 < U16_LIMIT
    ensures MeshIndex(36 * CUBES - 36) == 8 * CUBES - 1
  {
    forall i | 0 <= i < 36 * CUBES
      ensures MeshIndex(i) <= 8 * CUBES - 1
    {
      IndicesStayInOwnCube(i);
    }
  }
}
