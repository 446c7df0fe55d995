/**
 * One square tile of the terrain: its world-space bounding box and one mesh
 * per level of detail. Level `lod` samples every `2^lod`-th heightmap point
 * of the tile; each sample becomes an 11-float vertex (position, normal,
 * texture coordinate, tangent) and each grid cell two triangles.
 *
 * The GPU upload is recorded as the two streams handed to the mesh.
 * glm::normalize takes a square root and is a parameter `normalize`.
 */
module TerrainChunks {
  import opened Glm
  import opened Heightmap
  import opened Wrappers
  import Meshes

  /** Number of detail levels (TerrainChunk::LOD_LEVELS). */
  const LodLevels := 4

  /** Floats per vertex in the position-normal-texture-tangent layout: 3 + 3 + 2 + 3. */
  const FloatsPerVertex := 11

  /** Sampling stride of a level: `1 << lod`. */
  function Step(lod: nat): (s: nat)
    ensures s >= 1
  {
    if lod == 0 then 1 else 2 * Step(lod - 1)
  }

  /** The sampling strides of the four levels are 1, 2, 4 and 8. */
  lemma {:induction false} LevelSteps()
    ensures Step(0) == 1 && Step(1) == 2 && Step(2) == 4 && Step(3) == 8
  {
    assert Step(1) == 2 * Step(0);
    assert Step(2) == 2 * Step(1);
    assert Step(3) == 2 * Step(2);
  }

  // ---------------------------------------------------------------------------
  // Scan ranges
  // ---------------------------------------------------------------------------

  /** The last coordinate a scan `c <= start + size && c < dim` reaches. */
  function ScanLimit(start: int, size: int, dim: int): int {
    MinInt(start + size, dim - 1)
  }

  /** How many of `start, start + step, ...` are at most `limit`. */
  function SampleCount(start: int, limit: int, step: nat): nat
    requires step >= 1
  {
    if limit < start then 0 else (limit - start) / step + 1
  }

  /** The i-th stride point lies within the limit exactly when i is below the count. */
  lemma SampleCountBound(start: int, limit: int, step: nat, i: nat)
    requires step >= 1
    ensures start + i * step <= limit <==> i < SampleCount(start, limit, step)
  {
    if limit >= start {
      var q, r := (limit - start) / step, (limit - start) % step;
      assert limit - start == q * step + r && 0 <= r < step;
      if i <= q {
        MulMonotone(i, q, step);
      } else {
        MulMonotone(q + 1, i, step);
        assert (q + 1) * step == q * step + step;
      }
    } else {
      MulMonotone(0, i, step);
    }
  }

  lemma MulMonotone(a: nat, b: nat, step: nat)
    requires a <= b
    ensures a * step <= b * step
  {
    assert b * step == a * step + (b - a) * step;
  }

  /** The coordinates `for (c = start; c <= start + size && c < dim; c += step)` visits, in order. */
  function Samples(start: int, size: int, dim: int, step: nat): seq<int>
    requires step >= 1
  {
    seq(SampleCount(start, ScanLimit(start, size, dim), step), i => start + i * step)
  }

  /** One turn of a scan loop: the guard holds exactly while samples remain, and the counter's coordinate is the next one. */
  lemma ScanStep(start: int, size: int, dim: int, step: nat, k: nat)
    requires step >= 1
    ensures var c := start + k * step;
      && (c <= start + size && c < dim <==> k < |Samples(start, size, dim, step)|)
      && (k < |Samples(start, size, dim, step)| ==> Samples(start, size, dim, step)[k] == c)
      && c + step == start + (k + 1) * step
  {
    SampleCountBound(start, ScanLimit(start, size, dim), step, k);
    assert (k + 1) * step == k * step + step;
  }

  /** A coordinate is visited exactly when it lies in the scanned range on the stride. */
  lemma SamplesCharacterised(start: int, size: int, dim: int, step: nat, c: int)
    requires step >= 1
    ensures c in Samples(start, size, dim, step)
        <==> start <= c <= ScanLimit(start, size, dim) && (c - start) % step == 0
  {
    var limit := ScanLimit(start, size, dim);
    var cs := Samples(start, size, dim, step);
    if c in cs {
      var i :| 0 <= i < |cs| && cs[i] == c;
      SampleCountBound(start, limit, step, i);
      assert c - start == i * step;
      assert (i * step) % step == 0 by { ModOfMultiple(i, step); }
    }
    if start <= c <= limit && (c - start) % step == 0 {
      var q := (c - start) / step;
      assert c - start == q * step;
      SampleCountBound(start, limit, step, q);
      assert cs[q] == c;
    }
  }

  /** A nonzero multiple of `step` is at least `step` away from 0. */
  lemma MultipleAwayFromZero(d: int, step: int)
    requires step >= 1
    ensures d >= 1 ==> d * step >= step
    ensures d <= -1 ==> d * step <= -step
  {
    if d >= 1 {
      assert d * step == (d - 1) * step + step;
      assert (d - 1) * step >= 0;
    } else if d <= -1 {
      assert d * step == (d + 1) * step - step;
      assert (d + 1) * step <= 0;
    }
  }

  /** The only multiple of `step` in [0, step) is 0 itself. */
  lemma SmallMultipleIsZero(d: int, step: int, r: int)
    requires step >= 1 && d * step == r && 0 <= r < step
    ensures d == 0
  {
    MultipleAwayFromZero(d, step);
  }

  lemma ModOfMultiple(i: nat, step: nat)
    requires step >= 1
    ensures (i * step) % step == 0
  {
    var q, r := (i * step) / step, (i * step) % step;
    assert i * step == q * step + r && 0 <= r < step;
    assert (i - q) * step == r;
    SmallMultipleIsZero(i - q, step, r);
  }

  /** A tile whose extent fits the grid is sampled at `size / step + 1` coordinates per axis. */
  lemma FittingExtentCount(start: int, size: int, dim: int, step: nat)
    requires step >= 1 && 0 <= size && start + size <= dim - 1
    ensures |Samples(start, size, dim, step)| == size / step + 1
  {
  }

  // ---------------------------------------------------------------------------
  // Placement and bounding box
  // ---------------------------------------------------------------------------

  /** Where a tile sits: its first grid point, its extent and its world-space offset. */
  datatype Placement = Placement(startX: int, startZ: int, chunkSize: int,
                                 offsetX: real, offsetZ: real, cellSize: real, maxHeight: real)

  /**
   * The placement `generate` computes on a heightmap `width` samples wide:
   * the cell size is the terrain size over the number of cells along the
   * width, and the terrain is centred on the origin.
   */
  function PlacementOf(width: int, startX: int, startZ: int, chunkSize: int,
                       terrainSize: real, maxHeight: real): (p: Placement)
    requires width >= 2
    ensures p.startX == startX && p.startZ == startZ && p.chunkSize == chunkSize && p.maxHeight == maxHeight
    ensures p.cellSize * (width - 1) as real == terrainSize
  {
    var cellSize := terrainSize / (width - 1) as real;
    var halfTerrain := terrainSize * 0.5;
    Placement(startX, startZ, chunkSize, startX as real * cellSize - halfTerrain,
              startZ as real * cellSize - halfTerrain, cellSize, maxHeight)
  }

  /** The first column of tiles starts at -size/2 and a tile ending on the last column ends at +size/2. */
  lemma PlacementSpansTerrain(width: int, startZ: int, chunkSize: int, terrainSize: real, maxHeight: real)
    requires width >= 2
    ensures PlacementOf(width, 0, startZ, chunkSize, terrainSize, maxHeight).offsetX == -terrainSize / 2.0
    ensures var last := PlacementOf(width, width - 1 - chunkSize, startZ, chunkSize, terrainSize, maxHeight);
            last.offsetX + chunkSize as real * last.cellSize == terrainSize / 2.0
  {
    var p := PlacementOf(width, width - 1 - chunkSize, startZ, chunkSize, terrainSize, maxHeight);
    calc {
      p.offsetX + chunkSize as real * p.cellSize;
      (width - 1 - chunkSize) as real * p.cellSize + chunkSize as real * p.cellSize - terrainSize * 0.5;
      (width - 1) as real * p.cellSize - terrainSize * 0.5;
    }
  }

  /** Neighbouring tiles meet: one tile's far edge is the next tile's offset, on both axes. */
  lemma NeighbouringTilesMeet(width: int, startX: int, startZ: int, chunkSize: int,
                              terrainSize: real, maxHeight: real)
    requires width >= 2
    ensures var p := PlacementOf(width, startX, startZ, chunkSize, terrainSize, maxHeight);
            var right := PlacementOf(width, startX + chunkSize, startZ, chunkSize, terrainSize, maxHeight);
            var below := PlacementOf(width, startX, startZ + chunkSize, chunkSize, terrainSize, maxHeight);
            && right.offsetX == p.offsetX + chunkSize as real * p.cellSize
            && below.offsetZ == p.offsetZ + chunkSize as real * p.cellSize
  {
    var p := PlacementOf(width, startX, startZ, chunkSize, terrainSize, maxHeight);
    assert (startX + chunkSize) as real * p.cellSize == startX as real * p.cellSize + chunkSize as real * p.cellSize;
    assert (startZ + chunkSize) as real * p.cellSize == startZ as real * p.cellSize + chunkSize as real * p.cellSize;
  }

  /** A height sample scaled to world units. */
  function ScaledHeight(g: HeightGrid, x: int, z: int, maxHeight: real): real {
    SampleAt(g, x, z) * maxHeight
  }

  /** The grid points the bounding-box scan visits: every point of the tile that lies on the grid. */
  predicate InScan(g: HeightGrid, p: Placement, x: int, z: int) {
    && p.startX <= x <= ScanLimit(p.startX, p.chunkSize, g.width)
    && p.startZ <= z <= ScanLimit(p.startZ, p.chunkSize, g.height)
  }

  /** Every scanned height lies in [lo, hi]. */
  ghost predicate BoxCoversScan(g: HeightGrid, p: Placement, lo: real, hi: real) {
    forall x, z :: InScan(g, p, x, z) ==> lo <= ScaledHeight(g, x, z, p.maxHeight) <= hi
  }

  /** Some scanned point has height v. */
  ghost predicate ScanAttains(g: HeightGrid, p: Placement, v: real) {
    exists x, z :: InScan(g, p, x, z) && ScaledHeight(g, x, z, p.maxHeight) == v
  }

  /**
   * [lo, hi] is the vertical extent the scan reports: it covers every
   * scanned height, starts from [maxHeight, 0], and each end is either its
   * starting value or a height some scanned point attains.
   */
  ghost predicate ScannedRange(g: HeightGrid, p: Placement, lo: real, hi: real) {
    && BoxCoversScan(g, p, lo, hi)
    && lo <= p.maxHeight && 0.0 <= hi
    && (lo == p.maxHeight || ScanAttains(g, p, lo))
    && (hi == 0.0 || ScanAttains(g, p, hi))
  }

  /**
   * The box a tile gets: its floor corner at the tile's world offset, its far
   * corner `chunkSize` cells further along x and z, and its centre halfway between.
   */
  predicate BoxPlaced(p: Placement, chunkSize: int, min: Vec3, max: Vec3, center: Vec3) {
    && min == Vec3(p.offsetX, min.y, p.offsetZ)
    && max == Vec3(p.offsetX + chunkSize as real * p.cellSize, max.y, p.offsetZ + chunkSize as real * p.cellSize)
    && center == Scale3(Add3(min, max), 0.5)
  }

  /** `v` is its starting value `v0`, or the scaled height at the scanned point (x, z). */
  predicate Witnessed(g: HeightGrid, p: Placement, v: real, v0: real, x: int, z: int) {
    v == v0 || (InScan(g, p, x, z) && ScaledHeight(g, x, z, p.maxHeight) == v)
  }

  /**
   * One row of the scan (the inner loop of the bounding-box pass): folds
   * the scanned points of row `z` into the running minimum and maximum.
   */
  method ScanRow(g: HeightGrid, p: Placement, z: int, minY0: real, maxY0: real,
                 ghost w0: (int, int, int, int))
    returns (minY: real, maxY: real, ghost w: (int, int, int, int))
    requires p.startZ <= z <= ScanLimit(p.startZ, p.chunkSize, g.height)
    requires minY0 <= p.maxHeight && 0.0 <= maxY0
    requires forall xx, zz :: InScan(g, p, xx, zz) && zz < z ==> minY0 <= ScaledHeight(g, xx, zz, p.maxHeight) <= maxY0
    requires Witnessed(g, p, minY0, p.maxHeight, w0.0, w0.1) && Witnessed(g, p, maxY0, 0.0, w0.2, w0.3)
    ensures minY <= p.maxHeight && 0.0 <= maxY
    ensures forall xx, zz :: InScan(g, p, xx, zz) && zz <= z ==> minY <= ScaledHeight(g, xx, zz, p.maxHeight) <= maxY
    ensures Witnessed(g, p, minY, p.maxHeight, w.0, w.1) && Witnessed(g, p, maxY, 0.0, w.2, w.3)
  {
    ghost var xLimit := ScanLimit(p.startX, p.chunkSize, g.width);
    minY, maxY, w := minY0, maxY0, w0;
    var x := p.startX;
    while x <= p.startX + p.chunkSize && x < g.width
      invariant p.startX <= x <= MaxInt(p.startX, xLimit + 1)
      invariant minY <= p.maxHeight && 0.0 <= maxY
      invariant forall xx, zz :: InScan(g, p, xx, zz) && zz < z ==> minY <= ScaledHeight(g, xx, zz, p.maxHeight) <= maxY
      invariant forall xx :: p.startX <= xx < x ==> minY <= ScaledHeight(g, xx, z, p.maxHeight) <= maxY
      invariant Witnessed(g, p, minY, p.maxHeight, w.0, w.1) && Witnessed(g, p, maxY, 0.0, w.2, w.3)
      decreases xLimit + 1 - x
    {
      var h := ScaledHeight(g, x, z, p.maxHeight);
      if h < minY {
        w := (x, z, w.2, w.3);
      }
      if h > maxY {
        w := (w.0, w.1, x, z);
      }
      minY := MinReal(minY, h);
      maxY := MaxReal(maxY, h);
      x := x + 1;
    }
  }

  /**
   * The vertical extent of the tile: starting from `minY = maxHeight` and
   * `maxY = 0`, the running minimum and maximum over every scanned point.
   */
  method ScanHeightRange(g: HeightGrid, p: Placement) returns (minY: real, maxY: real)
    ensures ScannedRange(g, p, minY, maxY)
  {
    ghost var zLimit := ScanLimit(p.startZ, p.chunkSize, g.height);
    minY, maxY := p.maxHeight, 0.0;
    ghost var w := (0, 0, 0, 0);
    var z := p.startZ;
    while z <= p.startZ + p.chunkSize && z < g.height
      invariant p.startZ <= z <= MaxInt(p.startZ, zLimit + 1)
      invariant minY <= p.maxHeight && 0.0 <= maxY
      invariant forall xx, zz :: InScan(g, p, xx, zz) && zz < z ==> minY <= ScaledHeight(g, xx, zz, p.maxHeight) <= maxY
      invariant Witnessed(g, p, minY, p.maxHeight, w.0, w.1) && Witnessed(g, p, maxY, 0.0, w.2, w.3)
      decreases zLimit + 1 - z
    {
      minY, maxY, w := ScanRow(g, p, z, minY, maxY, w);
      z := z + 1;
    }
    assert minY == p.maxHeight || ScanAttains(g, p, minY);
    assert maxY == 0.0 || ScanAttains(g, p, maxY);
  }

  // ---------------------------------------------------------------------------
  // Normals and tangents
  // ---------------------------------------------------------------------------

  /**
   * The unnormalised central-difference normal at a grid point: the
   * height differences to the left/right and down/up neighbours (each
   * clamped to the grid) across two cells.
   */
  function RawNormal(g: HeightGrid, x: int, z: int, cellSize: real, maxHeight: real): Vec3 {
    var hL := SampleAt(g, MaxInt(0, x - 1), z) * maxHeight;
    var hR := SampleAt(g, MinInt(g.width - 1, x + 1), z) * maxHeight;
    var hD := SampleAt(g, x, MaxInt(0, z - 1)) * maxHeight;
    var hU := SampleAt(g, x, MinInt(g.height - 1, z + 1)) * maxHeight;
    Vec3(hL - hR, 2.0 * cellSize, hD - hU)
  }

  function CalculateNormal(g: HeightGrid, x: int, z: int, cellSize: real, maxHeight: real,
                           normalize: Vec3 -> Vec3): Vec3 {
    normalize(RawNormal(g, x, z, cellSize, maxHeight))
  }

  /** The raw normal points upwards for a positive cell size and is vertical over flat ground. */
  lemma RawNormalPointsUp(g: HeightGrid, x: int, z: int, cellSize: real, maxHeight: real)
    requires cellSize > 0.0
    ensures RawNormal(g, x, z, cellSize, maxHeight).y > 0.0
    ensures SampleAt(g, MaxInt(0, x - 1), z) == SampleAt(g, MinInt(g.width - 1, x + 1), z)
         && SampleAt(g, x, MaxInt(0, z - 1)) == SampleAt(g, x, MinInt(g.height - 1, z + 1))
        ==> RawNormal(g, x, z, cellSize, maxHeight) == Vec3(0.0, 2.0 * cellSize, 0.0)
  {
  }

  /** One Gram-Schmidt step: `e - dot(e, n) * n`. */
  function GramSchmidt(e: Vec3, n: Vec3): Vec3 {
    Sub3(e, Scale3(n, Dot3(e, n)))
  }

  /**
   * The tangent before normalisation: +X made orthogonal to the normal, or
   * +Z made orthogonal when the first is shorter than 0.001 (compared here
   * on the squared length, which is equivalent).
   */
  function TangentDirection(n: Vec3): Vec3 {
    var t := GramSchmidt(Vec3(1.0, 0.0, 0.0), n);
    if Dot3(t, t) < 0.001 * 0.001 then GramSchmidt(Vec3(0.0, 0.0, 1.0), n) else t
  }

  function CalculateTangent(n: Vec3, normalize: Vec3 -> Vec3): Vec3 {
    normalize(TangentDirection(n))
  }

  /** Against a unit normal, a Gram-Schmidt step leaves a vector orthogonal to it. */
  lemma GramSchmidtOrthogonal(e: Vec3, n: Vec3)
    requires Dot3(n, n) == 1.0
    ensures Dot3(GramSchmidt(e, n), n) == 0.0
  {
    var d := Dot3(e, n);
    calc {
      Dot3(GramSchmidt(e, n), n);
      Dot3(e, n) - d * Dot3(n, n);
      0.0;
    }
  }

  /** The tangent direction is orthogonal to a unit normal. */
  lemma TangentOrthogonalToNormal(n: Vec3)
    requires Dot3(n, n) == 1.0
    ensures Dot3(TangentDirection(n), n) == 0.0
  {
    GramSchmidtOrthogonal(Vec3(1.0, 0.0, 0.0), n);
    GramSchmidtOrthogonal(Vec3(0.0, 0.0, 1.0), n);
  }

  /** Gram-Schmidt against a unit X-axis normal: +X vanishes and +Z is kept. */
  lemma GramSchmidtAlongX(a: real)
    requires a * a == 1.0
    ensures GramSchmidt(Vec3(1.0, 0.0, 0.0), Vec3(a, 0.0, 0.0)) == Vec3(0.0, 0.0, 0.0)
    ensures GramSchmidt(Vec3(0.0, 0.0, 1.0), Vec3(a, 0.0, 0.0)) == Vec3(0.0, 0.0, 1.0)
  {
    var n := Vec3(a, 0.0, 0.0);
    assert Dot3(Vec3(1.0, 0.0, 0.0), n) == a;
    assert Scale3(n, a) == Vec3(1.0, 0.0, 0.0);
    assert Dot3(Vec3(0.0, 0.0, 1.0), n) == 0.0;
    assert Scale3(n, 0.0) == Vec3(0.0, 0.0, 0.0);
  }

  /** Gram-Schmidt of +X against a normal without an X component leaves +X. */
  lemma GramSchmidtAcrossX(n: Vec3)
    requires n.x == 0.0
    ensures GramSchmidt(Vec3(1.0, 0.0, 0.0), n) == Vec3(1.0, 0.0, 0.0)
  {
    assert Dot3(Vec3(1.0, 0.0, 0.0), n) == 0.0;
  }

  /** When the +X step leaves +X unchanged, +X (of length 1, above 0.001) is the tangent direction. */
  lemma UnitStepIsTangent(n: Vec3)
    requires GramSchmidt(Vec3(1.0, 0.0, 0.0), n) == Vec3(1.0, 0.0, 0.0)
    ensures TangentDirection(n) == Vec3(1.0, 0.0, 0.0)
  {
  }

  /** A unit normal along the X axis leaves nothing of +X, so the tangent falls back to +Z. */
  lemma TangentFallsBackAlongX(a: real)
    requires a * a == 1.0
    ensures TangentDirection(Vec3(a, 0.0, 0.0)) == Vec3(0.0, 0.0, 1.0)
  {
    GramSchmidtAlongX(a);
    assert Dot3(Vec3(0.0, 0.0, 0.0), Vec3(0.0, 0.0, 0.0)) == 0.0;
  }

  /** A normal without an X component keeps +X itself as the tangent direction. */
  lemma TangentKeepsXAcrossX(n: Vec3)
    requires n.x == 0.0
    ensures TangentDirection(n) == Vec3(1.0, 0.0, 0.0)
  {
    GramSchmidtAcrossX(n);
    UnitStepIsTangent(n);
  }

  // ---------------------------------------------------------------------------
  // Vertex stream
  // ---------------------------------------------------------------------------

  /** The texture coordinate `c / (dim - 1)`; a grid narrower than two samples is never meshed. */
  function TexCoord(c: int, dim: int): real {
    if dim >= 2 then c as real / (dim - 1) as real else 0.0
  }

  /** A grid coordinate's texture coordinate lies in [0, 1]: 0 at the first sample and 1 at the last. */
  lemma TexCoordInUnitRange(c: int, dim: int)
    requires 0 <= c < dim
    ensures 0.0 <= TexCoord(c, dim) <= 1.0
    ensures c == 0 ==> TexCoord(c, dim) == 0.0
    ensures dim >= 2 && c == dim - 1 ==> TexCoord(c, dim) == 1.0
  {
  }

  /** The world position of grid point (x, z): offset plus cells from the tile's corner, and the scaled height. */
  function VertexPosition(g: HeightGrid, p: Placement, x: int, z: int): Vec3 {
    Vec3(p.offsetX + (x - p.startX) as real * p.cellSize,
         ScaledHeight(g, x, z, p.maxHeight),
         p.offsetZ + (z - p.startZ) as real * p.cellSize)
  }

  /** The 11 floats of the vertex at grid point (x, z): position, normal, (u, v), tangent. */
  function VertexRecord(g: HeightGrid, p: Placement, normalize: Vec3 -> Vec3, x: int, z: int): (r: seq<real>)
    ensures |r| == FloatsPerVertex
  {
    var pos := VertexPosition(g, p, x, z);
    var n := CalculateNormal(g, x, z, p.cellSize, p.maxHeight, normalize);
    var t := CalculateTangent(n, normalize);
    [ pos.x, pos.y, pos.z,
      n.x, n.y, n.z,
      TexCoord(x, g.width), TexCoord(z, g.height),
      t.x, t.y, t.z ]
  }

  /** The vertex records of a tile as a function of the grid point. */
  function Record(g: HeightGrid, p: Placement, normalize: Vec3 -> Vec3): (int, int) -> seq<real> {
    (x, z) => VertexRecord(g, p, normalize, x, z)
  }

  lemma RecordWidth(g: HeightGrid, p: Placement, normalize: Vec3 -> Vec3)
    ensures forall x, z :: |Record(g, p, normalize)(x, z)| == FloatsPerVertex
  {
    forall x, z ensures |Record(g, p, normalize)(x, z)| == FloatsPerVertex {
      assert Record(g, p, normalize)(x, z) == VertexRecord(g, p, normalize, x, z);
    }
  }

  /** The records of one row of samples, left to right. */
  function RowRecords(rec: (int, int) -> seq<real>, xs: seq<int>, z: int): seq<real>
    decreases |xs|
  {
    if xs == [] then [] else RowRecords(rec, xs[..|xs| - 1], z) + rec(xs[|xs| - 1], z)
  }

  /** The records of all rows, row after row. */
  function GridRecords(rec: (int, int) -> seq<real>, xs: seq<int>, zs: seq<int>): seq<real>
    decreases |zs|
  {
    if zs == [] then [] else GridRecords(rec, xs, zs[..|zs| - 1]) + RowRecords(rec, xs, zs[|zs| - 1])
  }

  lemma {:induction false} RowRecordsLength(rec: (int, int) -> seq<real>, xs: seq<int>, z: int)
    requires forall x, z :: |rec(x, z)| == FloatsPerVertex
    ensures |RowRecords(rec, xs, z)| == FloatsPerVertex * |xs|
    decreases |xs|
  {
    if xs != [] {
      RowRecordsLength(rec, xs[..|xs| - 1], z);
    }
  }

  lemma {:induction false} GridRecordsLength(rec: (int, int) -> seq<real>, xs: seq<int>, zs: seq<int>)
    requires forall x, z :: |rec(x, z)| == FloatsPerVertex
    ensures |GridRecords(rec, xs, zs)| == FloatsPerVertex * (|xs| * |zs|)
    decreases |zs|
  {
    if zs != [] {
      GridRecordsLength(rec, xs, zs[..|zs| - 1]);
      RowRecordsLength(rec, xs, zs[|zs| - 1]);
      assert |xs| * |zs| == |xs| * (|zs| - 1) + |xs|;
    }
  }

  lemma SliceOfLeft<T>(a: seq<T>, b: seq<T>, lo: int, hi: int)
    requires 0 <= lo <= hi <= |a|
    ensures (a + b)[lo..hi] == a[lo..hi]
  {
  }

  lemma SliceOfRight<T>(a: seq<T>, b: seq<T>, lo: int, hi: int)
    requires |a| <= lo <= hi <= |a| + |b|
    ensures (a + b)[lo..hi] == b[lo - |a|..hi - |a|]
  {
  }

  /** The i-th record of a row is the record of its i-th sample. */
  lemma {:induction false} RowRecordAt(rec: (int, int) -> seq<real>, xs: seq<int>, z: int, i: int)
    requires (forall x, z :: |rec(x, z)| == FloatsPerVertex) && 0 <= i < |xs|
    ensures |RowRecords(rec, xs, z)| == FloatsPerVertex * |xs|
    ensures RowRecords(rec, xs, z)[FloatsPerVertex * i .. FloatsPerVertex * i + FloatsPerVertex] == rec(xs[i], z)
    decreases |xs|
  {
    var init := xs[..|xs| - 1];
    RowRecordsLength(rec, xs, z);
    RowRecordsLength(rec, init, z);
    var front := RowRecords(rec, init, z);
    var last := rec(xs[|xs| - 1], z);
    if i < |xs| - 1 {
      RowRecordAt(rec, init, z, i);
      SliceOfLeft(front, last, FloatsPerVertex * i, FloatsPerVertex * i + FloatsPerVertex);
    } else {
      SliceOfRight(front, last, FloatsPerVertex * i, FloatsPerVertex * i + FloatsPerVertex);
    }
  }

  /** Record j * |xs| + i of the grid is the record of sample (xs[i], zs[j]): the stream is row-major. */
  lemma {:induction false} GridRecordAt(rec: (int, int) -> seq<real>, xs: seq<int>, zs: seq<int>, i: int, j: int)
    requires (forall x, z :: |rec(x, z)| == FloatsPerVertex) && 0 <= i < |xs| && 0 <= j < |zs|
    ensures |GridRecords(rec, xs, zs)| == FloatsPerVertex * (|xs| * |zs|)
    ensures 0 <= j * |xs| + i < |xs| * |zs|
    ensures var k := j * |xs| + i;
            GridRecords(rec, xs, zs)[FloatsPerVertex * k .. FloatsPerVertex * k + FloatsPerVertex] == rec(xs[i], zs[j])
    decreases |zs|
  {
    var L, R := |xs|, |zs|;
    var init := zs[..R - 1];
    GridRecordsLength(rec, xs, zs);
    GridRecordsLength(rec, xs, init);
    RowRecordsLength(rec, xs, zs[R - 1]);
    var front := GridRecords(rec, xs, init);
    var row := RowRecords(rec, xs, zs[R - 1]);
    var k := j * L + i;
    RowMajorInRange(i, j, L, R);
    if j < R - 1 {
      GridRecordAt(rec, xs, init, i, j);
      SliceOfLeft(front, row, FloatsPerVertex * k, FloatsPerVertex * k + FloatsPerVertex);
    } else {
      assert k == (R - 1) * L + i;
      assert |front| == FloatsPerVertex * ((R - 1) * L);
      RowRecordAt(rec, xs, zs[R - 1], i);
      SliceOfRight(front, row, FloatsPerVertex * k, FloatsPerVertex * k + FloatsPerVertex);
    }
  }

  function ColumnSamples(g: HeightGrid, p: Placement, lod: nat): seq<int> {
    Samples(p.startX, p.chunkSize, g.width, Step(lod))
  }

  function RowSamples(g: HeightGrid, p: Placement, lod: nat): seq<int> {
    Samples(p.startZ, p.chunkSize, g.height, Step(lod))
  }

  /** The vertex stream of one level. */
  function VertexStream(g: HeightGrid, p: Placement, lod: nat, normalize: Vec3 -> Vec3): seq<real> {
    GridRecords(Record(g, p, normalize), ColumnSamples(g, p, lod), RowSamples(g, p, lod))
  }

  /**
   * The counters `vertexCountX` and `vertexCountZ` after the vertex loops:
   * the row length is that of the last row scanned, so 0 when no row is.
   */
  function VertexCounts(g: HeightGrid, p: Placement, lod: nat): (int, int) {
    var vcZ := |RowSamples(g, p, lod)|;
    (if vcZ > 0 then |ColumnSamples(g, p, lod)| else 0, vcZ)
  }

  /** A level's vertex stream holds 11 floats for each of its `vertexCountX * vertexCountZ` vertices. */
  lemma VertexStreamLength(g: HeightGrid, p: Placement, lod: nat, normalize: Vec3 -> Vec3)
    ensures var (vcX, vcZ) := VertexCounts(g, p, lod);
            |VertexStream(g, p, lod, normalize)| == FloatsPerVertex * (vcX * vcZ)
  {
    RecordWidth(g, p, normalize);
    GridRecordsLength(Record(g, p, normalize), ColumnSamples(g, p, lod), RowSamples(g, p, lod));
  }

  /** The i-th visited coordinate is `start + i * step`, within the scanned range. */
  lemma SampleAtIndex(start: int, size: int, dim: int, step: nat, i: int)
    requires step >= 1 && 0 <= i < |Samples(start, size, dim, step)|
    ensures Samples(start, size, dim, step)[i] == start + i * step
    ensures start <= start + i * step <= ScanLimit(start, size, dim)
  {
    SampleCountBound(start, ScanLimit(start, size, dim), step, i);
  }

  /** A level's counters are the numbers of visited columns and rows, whenever some row is visited. */
  lemma VertexCountsOfSamples(g: HeightGrid, p: Placement, lod: nat)
    ensures VertexCounts(g, p, lod).1 == |RowSamples(g, p, lod)|
    ensures VertexCounts(g, p, lod).1 > 0 ==> VertexCounts(g, p, lod).0 == |ColumnSamples(g, p, lod)|
    ensures VertexCounts(g, p, lod).1 == 0 ==> VertexCounts(g, p, lod).0 == 0
  {
  }

  /** Vertex (i, j) of a level stands on grid point (startX + i * step, startZ + j * step), inside the scanned range. */
  lemma LevelVertexInScan(g: HeightGrid, p: Placement, lod: nat, i: int, j: int)
    requires 0 <= i < |ColumnSamples(g, p, lod)| && 0 <= j < |RowSamples(g, p, lod)|
    ensures ColumnSamples(g, p, lod)[i] == p.startX + i * Step(lod)
    ensures RowSamples(g, p, lod)[j] == p.startZ + j * Step(lod)
    ensures InScan(g, p, p.startX + i * Step(lod), p.startZ + j * Step(lod))
  {
    SampleAtIndex(p.startX, p.chunkSize, g.width, Step(lod), i);
    SampleAtIndex(p.startZ, p.chunkSize, g.height, Step(lod), j);
  }

  /** Vertex `j * vertexCountX + i` of a level is the record of column i and row j of the visited samples. */
  lemma LevelVertexAt(g: HeightGrid, p: Placement, lod: nat, normalize: Vec3 -> Vec3, i: int, j: int)
    requires 0 <= i < |ColumnSamples(g, p, lod)| && 0 <= j < |RowSamples(g, p, lod)|
    ensures var vcX := |ColumnSamples(g, p, lod)|;
            var k := j * vcX + i;
            && 0 <= k < vcX * |RowSamples(g, p, lod)|
            && |VertexStream(g, p, lod, normalize)| == FloatsPerVertex * (vcX * |RowSamples(g, p, lod)|)
            && VertexStream(g, p, lod, normalize)[FloatsPerVertex * k .. FloatsPerVertex * k + FloatsPerVertex]
                 == VertexRecord(g, p, normalize, ColumnSamples(g, p, lod)[i], RowSamples(g, p, lod)[j])
  {
    var xs, zs := ColumnSamples(g, p, lod), RowSamples(g, p, lod);
    var rec := Record(g, p, normalize);
    RecordWidth(g, p, normalize);
    GridRecordAt(rec, xs, zs, i, j);
    assert rec(xs[i], zs[j]) == VertexRecord(g, p, normalize, xs[i], zs[j]);
  }

  lemma ScaleWithin(d: real, size: real, cell: real)
    requires 0.0 <= d <= size && cell >= 0.0
    ensures 0.0 <= d * cell <= size * cell
  {
    assert (size - d) * cell >= 0.0;
  }

  /** A coordinate at most `size` cells past the tile's start lies within the tile along that axis. */
  lemma AxisWithin(offset: real, start: int, coord: int, size: int, cell: real)
    requires start <= coord <= start + size && cell >= 0.0
    ensures offset <= offset + (coord - start) as real * cell <= offset + size as real * cell
  {
    ScaleWithin((coord - start) as real, size as real, cell);
  }

  /** A vertex at most `chunkSize` cells past the tile's start lies within the tile's horizontal extent. */
  lemma PositionAlongAxes(g: HeightGrid, p: Placement, x: int, z: int)
    requires p.cellSize >= 0.0
    requires p.startX <= x <= p.startX + p.chunkSize && p.startZ <= z <= p.startZ + p.chunkSize
    ensures p.offsetX <= VertexPosition(g, p, x, z).x <= p.offsetX + p.chunkSize as real * p.cellSize
    ensures p.offsetZ <= VertexPosition(g, p, x, z).z <= p.offsetZ + p.chunkSize as real * p.cellSize
  {
    AxisWithin(p.offsetX, p.startX, x, p.chunkSize, p.cellSize);
    AxisWithin(p.offsetZ, p.startZ, z, p.chunkSize, p.cellSize);
  }

  /** The position of a scanned vertex lies inside the tile's box, when the box covers the scanned heights. */
  lemma PositionInsideBox(g: HeightGrid, p: Placement, x: int, z: int, lo: real, hi: real)
    requires p.cellSize >= 0.0 && InScan(g, p, x, z) && BoxCoversScan(g, p, lo, hi)
    requires x <= p.startX + p.chunkSize && z <= p.startZ + p.chunkSize
    ensures var pos := VertexPosition(g, p, x, z);
            && p.offsetX <= pos.x <= p.offsetX + p.chunkSize as real * p.cellSize
            && lo <= pos.y <= hi
            && p.offsetZ <= pos.z <= p.offsetZ + p.chunkSize as real * p.cellSize
  {
    PositionAlongAxes(g, p, x, z);
    assert lo <= ScaledHeight(g, x, z, p.maxHeight) <= hi;
  }

  /**
   * With a non-negative cell size, every vertex of every level lies inside
   * the tile's bounding box, whenever that box's vertical extent covers
   * the scanned heights.
   */
  lemma LevelVertexInsideBox(g: HeightGrid, p: Placement, lod: nat, normalize: Vec3 -> Vec3,
                             i: int, j: int, lo: real, hi: real)
    requires p.cellSize >= 0.0
    requires 0 <= i < |ColumnSamples(g, p, lod)| && 0 <= j < |RowSamples(g, p, lod)|
    requires BoxCoversScan(g, p, lo, hi)
    ensures var k := j * |ColumnSamples(g, p, lod)| + i;
            var s := VertexStream(g, p, lod, normalize);
            && 0 <= FloatsPerVertex * k && FloatsPerVertex * k + FloatsPerVertex <= |s|
            && p.offsetX <= s[FloatsPerVertex * k] <= p.offsetX + p.chunkSize as real * p.cellSize
            && lo <= s[FloatsPerVertex * k + 1] <= hi
            && p.offsetZ <= s[FloatsPerVertex * k + 2] <= p.offsetZ + p.chunkSize as real * p.cellSize
  {
    var k := j * |ColumnSamples(g, p, lod)| + i;
    var s := VertexStream(g, p, lod, normalize);
    var x, z := p.startX + i * Step(lod), p.startZ + j * Step(lod);
    LevelVertexInScan(g, p, lod, i, j);
    LevelVertexAt(g, p, lod, normalize, i, j);
    var r := VertexRecord(g, p, normalize, x, z);
    var pos := VertexPosition(g, p, x, z);
    assert s[FloatsPerVertex * k .. FloatsPerVertex * k + FloatsPerVertex] == r;
    assert s[FloatsPerVertex * k] == r[0] && s[FloatsPerVertex * k + 1] == r[1] && s[FloatsPerVertex * k + 2] == r[2];
    assert r[0] == pos.x && r[1] == pos.y && r[2] == pos.z;
    PositionInsideBox(g, p, x, z, lo, hi);
  }

  // ---------------------------------------------------------------------------
  // Index stream
  // ---------------------------------------------------------------------------

  /**
   * The six indices of cell (x, z) in a grid `vcX` vertices wide: the
   * triangles (top-left, bottom-left, top-right) and (top-right,
   * bottom-left, bottom-right).
   */
  function CellIndices(vcX: int, x: int, z: int): seq<int> {
    var topLeft := z * vcX + x;
    var bottomLeft := (z + 1) * vcX + x;
    [topLeft, bottomLeft, topLeft + 1, topLeft + 1, bottomLeft, bottomLeft + 1]
  }

  /** The first `cells` cells of row z. */
  function IndexRow(vcX: int, z: int, cells: int): seq<int>
    decreases cells
  {
    if cells <= 0 then [] else IndexRow(vcX, z, cells - 1) + CellIndices(vcX, cells - 1, z)
  }

  /** The first `rows` rows of cells, each `cols` cells long. */
  function IndexGrid(vcX: int, cols: int, rows: int): seq<int>
    decreases rows
  {
    if rows <= 0 then [] else IndexGrid(vcX, cols, rows - 1) + IndexRow(vcX, rows - 1, cols)
  }

  /** The index stream of a `vcX` by `vcZ` vertex grid: `vcZ - 1` rows of `vcX - 1` cells. */
  function IndexStream(vcX: int, vcZ: int): seq<int> {
    IndexGrid(vcX, vcX - 1, vcZ - 1)
  }

  lemma {:induction false} IndexRowLength(vcX: int, z: int, cells: int)
    ensures |IndexRow(vcX, z, cells)| == 6 * MaxInt(cells, 0)
    decreases cells
  {
    if cells > 0 {
      IndexRowLength(vcX, z, cells - 1);
    }
  }

  lemma {:induction false} IndexGridLength(vcX: int, cols: int, rows: int)
    requires cols >= 0
    ensures |IndexGrid(vcX, cols, rows)| == 6 * (cols * MaxInt(rows, 0))
    decreases rows
  {
    if rows > 0 {
      IndexGridLength(vcX, cols, rows - 1);
      IndexRowLength(vcX, rows - 1, cols);
      assert cols * rows == cols * (rows - 1) + cols;
    }
  }

  /** Two triangles per cell: `2 * (vcX - 1) * (vcZ - 1)` triangles, none when a side has fewer than two vertices. */
  lemma IndexStreamTriangles(vcX: int, vcZ: int)
    ensures |IndexStream(vcX, vcZ)| == 6 * (MaxInt(vcX - 1, 0) * MaxInt(vcZ - 1, 0))
    ensures |IndexStream(vcX, vcZ)| / 3 == 2 * (MaxInt(vcX - 1, 0) * MaxInt(vcZ - 1, 0))
    ensures |IndexStream(vcX, vcZ)| > 0 <==> vcX >= 2 && vcZ >= 2
  {
    if vcX >= 1 {
      IndexGridLength(vcX, vcX - 1, vcZ - 1);
    } else {
      assert IndexStream(vcX, vcZ) == IndexGrid(vcX, vcX - 1, vcZ - 1);
      EmptyRowsGrid(vcX, vcX - 1, vcZ - 1);
    }
    var c := MaxInt(vcX - 1, 0) * MaxInt(vcZ - 1, 0);
    if vcX >= 2 && vcZ >= 2 {
      assert c >= 1 by { assert MaxInt(vcX - 1, 0) * MaxInt(vcZ - 1, 0) >= 1 * 1; }
    }
  }

  /** Rows of no cells hold no indices. */
  lemma {:induction false} EmptyRowsGrid(vcX: int, cols: int, rows: int)
    requires cols <= 0
    ensures IndexGrid(vcX, cols, rows) == []
    decreases rows
  {
    if rows > 0 {
      EmptyRowsGrid(vcX, cols, rows - 1);
      IndexRowLength(vcX, rows - 1, cols);
    }
  }

  /** Cell x of row z occupies positions 6 * x .. 6 * x + 6 of its row. */
  lemma {:induction false} IndexRowCellAt(vcX: int, z: int, cells: int, x: int)
    requires 0 <= x < cells
    ensures |IndexRow(vcX, z, cells)| == 6 * MaxInt(cells, 0)
    ensures IndexRow(vcX, z, cells)[6 * x .. 6 * x + 6] == CellIndices(vcX, x, z)
    decreases cells
  {
    IndexRowLength(vcX, z, cells);
    IndexRowLength(vcX, z, cells - 1);
    var front := IndexRow(vcX, z, cells - 1);
    var last := CellIndices(vcX, cells - 1, z);
    if x < cells - 1 {
      IndexRowCellAt(vcX, z, cells - 1, x);
      assert (front + last)[6 * x .. 6 * x + 6] == front[6 * x .. 6 * x + 6];
    } else {
      assert (front + last)[|front| ..] == last;
    }
  }

  /** Row z of `rows` rows of `cols` cells starts and ends inside the grid. */
  lemma RowWithinRows(cols: int, z: int, rows: int)
    requires cols >= 0 && 0 <= z < rows
    ensures 0 <= cols * z && cols * z + cols <= cols * rows
  {
    var k := rows - z - 1;
    assert cols * rows == cols * z + cols + cols * k;
    assert cols * k >= 0;
  }

  /** Row z of cells occupies the `6 * cols` positions from `6 * (cols * z)`. */
  lemma {:induction false} IndexGridRowAt(vcX: int, cols: int, rows: int, z: int)
    requires cols >= 0 && 0 <= z < rows
    ensures |IndexGrid(vcX, cols, rows)| == 6 * (cols * rows)
    ensures 0 <= cols * z && cols * z + cols <= cols * rows
    ensures IndexGrid(vcX, cols, rows)[6 * (cols * z) .. 6 * (cols * z) + 6 * cols] == IndexRow(vcX, z, cols)
    decreases rows
  {
    var init := rows - 1;
    IndexGridLength(vcX, cols, rows);
    IndexGridLength(vcX, cols, init);
    IndexRowLength(vcX, init, cols);
    RowWithinRows(cols, z, rows);
    var front := IndexGrid(vcX, cols, init);
    var row := IndexRow(vcX, init, cols);
    assert cols * init + cols == cols * rows;
    if z < init {
      IndexGridRowAt(vcX, cols, init, z);
      SliceOfLeft(front, row, 6 * (cols * z), 6 * (cols * z) + 6 * cols);
    } else {
      SliceOfRight(front, row, 6 * (cols * z), 6 * (cols * z) + 6 * cols);
    }
  }

  /** A slice of a slice is a slice of the whole. */
  lemma SliceWithin<T>(s: seq<T>, a: int, b: int, i: int, j: int, mid: seq<T>, part: seq<T>)
    requires 0 <= a <= b <= |s| && 0 <= i <= j <= b - a
    requires s[a..b] == mid && mid[i..j] == part
    ensures s[a + i .. a + j] == part
  {
    forall k | 0 <= k < j - i
      ensures s[a + i .. a + j][k] == part[k]
    {
      assert part[k] == mid[i + k] == s[a + i + k];
    }
  }

  /** The stream lists the cells row by row: cell (x, z) occupies the six positions from 6 * (cols * z + x). */
  lemma IndexCellAt(vcX: int, cols: int, rows: int, x: int, z: int)
    requires 0 <= x < cols && 0 <= z < rows
    ensures |IndexGrid(vcX, cols, rows)| == 6 * (cols * rows)
    ensures 0 <= cols * z && cols * z + x < cols * rows
    ensures var base := 6 * (cols * z) + 6 * x;
            IndexGrid(vcX, cols, rows)[base .. base + 6] == CellIndices(vcX, x, z)
  {
    var s := IndexGrid(vcX, cols, rows);
    var row := 6 * (cols * z);
    IndexGridRowAt(vcX, cols, rows, z);
    IndexRowCellAt(vcX, z, cols, x);
    SliceWithin(s, row, row + 6 * cols, 6 * x, 6 * x + 6, IndexRow(vcX, z, cols), CellIndices(vcX, x, z));
  }

  /** Every index is below `bound`. */
  predicate IndicesBelow(s: seq<int>, bound: int) {
    forall i :: 0 <= i < |s| ==> 0 <= s[i] < bound
  }

  lemma {:induction false} IndexRowInRange(vcX: int, vcZ: int, z: int, cells: int)
    requires 0 <= z < vcZ - 1 && cells <= vcX - 1
    ensures IndicesBelow(IndexRow(vcX, z, cells), vcX * vcZ)
    decreases cells
  {
    if cells > 0 {
      IndexRowInRange(vcX, vcZ, z, cells - 1);
      var x := cells - 1;
      assert (z + 1) * vcX + x + 1 <= vcX * vcZ by {
        assert (z + 1) * vcX <= (vcZ - 1) * vcX;
      }
      assert 0 <= z * vcX + x by {
        assert z * vcX >= 0;
      }
    }
  }

  lemma {:induction false} IndexGridInRange(vcX: int, vcZ: int, rows: int)
    requires rows <= vcZ - 1
    ensures IndicesBelow(IndexGrid(vcX, vcX - 1, rows), vcX * vcZ)
    decreases rows
  {
    if rows > 0 {
      IndexGridInRange(vcX, vcZ, rows - 1);
      IndexRowInRange(vcX, vcZ, rows - 1, vcX - 1);
    }
  }

  /** Every index names one of the `vcX * vcZ` vertices. */
  lemma IndexStreamInRange(vcX: int, vcZ: int)
    ensures IndicesBelow(IndexStream(vcX, vcZ), vcX * vcZ)
  {
    IndexGridInRange(vcX, vcZ, vcZ - 1);
  }

  // ---------------------------------------------------------------------------
  // One level
  // ---------------------------------------------------------------------------

  /** What a chunk's mesh for one level holds: the streams uploaded to it. */
  datatype LodMesh = LodMesh(vertices: seq<real>, indices: seq<int>)

  /** A mesh that holds nothing: freshly constructed or moved from. */
  const NoMesh := LodMesh([], [])

  /** The mesh a level generates. */
  function LevelMesh(g: HeightGrid, p: Placement, lod: nat, normalize: Vec3 -> Vec3): LodMesh {
    var (vcX, vcZ) := VertexCounts(g, p, lod);
    LodMesh(VertexStream(g, p, lod, normalize), IndexStream(vcX, vcZ))
  }

  /** A level is uploaded when it has at least two samples along each axis. */
  predicate LevelUploads(g: HeightGrid, p: Placement, lod: nat) {
    VertexCounts(g, p, lod).0 >= 2 && VertexCounts(g, p, lod).1 >= 2
  }

  /** The upload condition "both streams non-empty" is the two-samples-per-axis condition. */
  lemma UploadCondition(g: HeightGrid, p: Placement, lod: nat, normalize: Vec3 -> Vec3)
    ensures var m := LevelMesh(g, p, lod, normalize);
            (|m.vertices| > 0 && |m.indices| > 0) <==> LevelUploads(g, p, lod)
  {
    var (vcX, vcZ) := VertexCounts(g, p, lod);
    VertexStreamLength(g, p, lod, normalize);
    IndexStreamTriangles(vcX, vcZ);
  }

  /**
   * A tile that fits the grid has `chunkSize / step + 1` vertices per side
   * (65, 33, 17 and 9 for an extent of 64) and uploads a level exactly when
   * its extent is at least that level's stride.
   */
  lemma FittingTileLevels(g: HeightGrid, p: Placement, lod: nat)
    requires p.chunkSize >= 0
    requires p.startX + p.chunkSize <= g.width - 1 && p.startZ + p.chunkSize <= g.height - 1
    ensures VertexCounts(g, p, lod) == (p.chunkSize / Step(lod) + 1, p.chunkSize / Step(lod) + 1)
    ensures LevelUploads(g, p, lod) <==> p.chunkSize >= Step(lod)
  {
    FittingExtentCount(p.startX, p.chunkSize, g.width, Step(lod));
    FittingExtentCount(p.startZ, p.chunkSize, g.height, Step(lod));
  }

  /** The mesh's vertex count (bytes over the 44-byte stride) is the number of generated vertices. */
  lemma UploadedVertexCount(g: HeightGrid, p: Placement, lod: nat, normalize: Vec3 -> Vec3)
    ensures var (vcX, vcZ) := VertexCounts(g, p, lod);
            var bytes := |VertexStream(g, p, lod, normalize)| * Meshes.TypeSize(Meshes.Float);
            bytes / (FloatsPerVertex * Meshes.TypeSize(Meshes.Float)) == vcX * vcZ
  {
    VertexStreamLength(g, p, lod, normalize);
  }

  /** Extending the visited columns by one appends that column's record to the row. */
  lemma RowRecordsExtend(rec: (int, int) -> seq<real>, xs: seq<int>, k: int, z: int)
    requires 0 <= k < |xs|
    ensures RowRecords(rec, xs[..k + 1], z) == RowRecords(rec, xs[..k], z) + rec(xs[k], z)
  {
    assert xs[..k + 1][..k] == xs[..k];
  }

  /** Extending the visited rows by one appends that row's records to the grid. */
  lemma GridRecordsExtend(rec: (int, int) -> seq<real>, xs: seq<int>, zs: seq<int>, k: int)
    requires 0 <= k < |zs|
    ensures GridRecords(rec, xs, zs[..k + 1]) == GridRecords(rec, xs, zs[..k]) + RowRecords(rec, xs, zs[k])
  {
    assert zs[..k + 1][..k] == zs[..k];
  }

  /** Appending the records of the next row to those of the rows before it. */
  lemma GridRecordsStep(rec: (int, int) -> seq<real>, xs: seq<int>, zs: seq<int>, k: int, front: seq<real>, row: seq<real>)
    requires 0 <= k < |zs|
    requires front == GridRecords(rec, xs, zs[..k]) && row == RowRecords(rec, xs, zs[k])
    ensures front + row == GridRecords(rec, xs, zs[..k + 1])
  {
    GridRecordsExtend(rec, xs, zs, k);
  }

  /** The inner vertex loop: the records of row z, left to right, and the number of columns visited. */
  method BuildRow(g: HeightGrid, p: Placement, lod: nat, normalize: Vec3 -> Vec3, z: int)
    returns (row: seq<real>, vertexCountX: int)
    ensures row == RowRecords(Record(g, p, normalize), ColumnSamples(g, p, lod), z)
    ensures vertexCountX == |ColumnSamples(g, p, lod)|
  {
    var step := Step(lod);
    var rec := Record(g, p, normalize);
    ghost var xs := ColumnSamples(g, p, lod);
    row := [];
    vertexCountX := 0;
    var x := p.startX;
    while x <= p.startX + p.chunkSize && x < g.width
      invariant 0 <= vertexCountX <= |xs| && x == p.startX + vertexCountX * step
      invariant row == RowRecords(rec, xs[..vertexCountX], z)
      decreases |xs| - vertexCountX
    {
      ScanStep(p.startX, p.chunkSize, g.width, step, vertexCountX);
      RowRecordsExtend(rec, xs, vertexCountX, z);
      row := row + rec(x, z);
      vertexCountX := vertexCountX + 1;
      x := x + step;
    }
    ScanStep(p.startX, p.chunkSize, g.width, step, vertexCountX);
    assert xs[..vertexCountX] == xs;
  }

  /** The vertex loops: one record per sample, row after row, and the two counters. */
  method BuildVertices(g: HeightGrid, p: Placement, lod: nat, normalize: Vec3 -> Vec3)
    returns (vertices: seq<real>, vertexCountX: int, vertexCountZ: int)
    ensures vertices == VertexStream(g, p, lod, normalize)
    ensures (vertexCountX, vertexCountZ) == VertexCounts(g, p, lod)
  {
    var step := Step(lod);
    ghost var rec := Record(g, p, normalize);
    ghost var xs := ColumnSamples(g, p, lod);
    ghost var zs := RowSamples(g, p, lod);
    vertices := [];
    vertexCountX, vertexCountZ := 0, 0;
    var z := p.startZ;
    while z <= p.startZ + p.chunkSize && z < g.height
      invariant 0 <= vertexCountZ <= |zs| && z == p.startZ + vertexCountZ * step
      invariant vertexCountX == if vertexCountZ > 0 then |xs| else 0
      invariant vertices == GridRecords(rec, xs, zs[..vertexCountZ])
      decreases |zs| - vertexCountZ
    {
      ScanStep(p.startZ, p.chunkSize, g.height, step, vertexCountZ);
      assert zs[vertexCountZ] == z;
      var row;
      row, vertexCountX := BuildRow(g, p, lod, normalize, z);
      GridRecordsStep(rec, xs, zs, vertexCountZ, vertices, row);
      vertices := vertices + row;
      vertexCountZ := vertexCountZ + 1;
      z := z + step;
    }
    ScanStep(p.startZ, p.chunkSize, g.height, step, vertexCountZ);
    assert zs[..vertexCountZ] == zs;
  }

  /** The index loops: six indices per cell, row after row. */
  method BuildIndices(vertexCountX: int, vertexCountZ: int) returns (indices: seq<int>)
    ensures indices == IndexStream(vertexCountX, vertexCountZ)
  {
    indices := [];
    var z := 0;
    while z < vertexCountZ - 1
      invariant 0 <= z <= MaxInt(vertexCountZ - 1, 0)
      invariant indices == IndexGrid(vertexCountX, vertexCountX - 1, z)
    {
      var x := 0;
      while x < vertexCountX - 1
        invariant 0 <= x <= MaxInt(vertexCountX - 1, 0)
        invariant indices == IndexGrid(vertexCountX, vertexCountX - 1, z) + IndexRow(vertexCountX, z, x)
      {
        var topLeft := z * vertexCountX + x;
        var topRight := topLeft + 1;
        var bottomLeft := (z + 1) * vertexCountX + x;
        var bottomRight := bottomLeft + 1;
        indices := indices + [topLeft, bottomLeft, topRight, topRight, bottomLeft, bottomRight];
        x := x + 1;
      }
      z := z + 1;
    }
  }

  // ---------------------------------------------------------------------------
  // The chunk
  // ---------------------------------------------------------------------------

  /** The chunk's state after `generate` on grid g at placement p, for one level. */
  ghost predicate LevelGenerated(g: HeightGrid, p: Placement, lod: nat, normalize: Vec3 -> Vec3,
                                 mesh: LodMesh, count: int, oldMesh: LodMesh, oldCount: int)
  {
    if LevelUploads(g, p, lod) then
      mesh == LevelMesh(g, p, lod, normalize) && count == |LevelMesh(g, p, lod, normalize).indices| / 3
    else
      mesh == oldMesh && count == oldCount
  }

  class TerrainChunk {
    var lodMeshes: seq<LodMesh>
    var triangleCounts: seq<int>
    var min: Vec3
    var max: Vec3
    var center: Vec3
    var generated: bool

    /** One mesh and one triangle count per level. */
    ghost predicate Valid()
      reads this
    {
      |lodMeshes| == LodLevels && |triangleCounts| == LodLevels
    }

    constructor ()
      ensures Valid()
      ensures lodMeshes == [NoMesh, NoMesh, NoMesh, NoMesh] && triangleCounts == [0, 0, 0, 0]
      ensures min == Vec3(0.0, 0.0, 0.0) && max == Vec3(0.0, 0.0, 0.0) && center == Vec3(0.0, 0.0, 0.0)
      ensures !generated
    {
      lodMeshes := [NoMesh, NoMesh, NoMesh, NoMesh];
      triangleCounts := [0, 0, 0, 0];
      min, max, center := Vec3(0.0, 0.0, 0.0), Vec3(0.0, 0.0, 0.0), Vec3(0.0, 0.0, 0.0);
      generated := false;
    }

    /**
     * Move construction: takes the box, the flag, the meshes and the
     * counts. The source keeps its box and counts but loses its meshes and
     * is no longer generated.
     */
    constructor MoveFrom(other: TerrainChunk)
      requires other.Valid()
      modifies other
      ensures Valid() && other.Valid()
      ensures min == old(other.min) && max == old(other.max) && center == old(other.center)
      ensures generated == old(other.generated)
      ensures lodMeshes == old(other.lodMeshes) && triangleCounts == old(other.triangleCounts)
      ensures other.lodMeshes == [NoMesh, NoMesh, NoMesh, NoMesh] && !other.generated
      ensures other.triangleCounts == old(other.triangleCounts)
      ensures other.min == old(other.min) && other.max == old(other.max) && other.center == old(other.center)
    {
      min, max, center := other.min, other.max, other.center;
      generated := other.generated;
      lodMeshes := other.lodMeshes;
      triangleCounts := other.triangleCounts;
      new;
      other.lodMeshes := [NoMesh, NoMesh, NoMesh, NoMesh];
      other.generated := false;
    }

    /** Move assignment: as the move constructor, and nothing at all on self-assignment. */
    method MoveAssign(other: TerrainChunk)
      requires Valid() && other.Valid()
      modifies this, other
      ensures Valid() && other.Valid()
      ensures other == this ==> unchanged(this)
      ensures other != this ==>
        && min == old(other.min) && max == old(other.max) && center == old(other.center)
        && generated == old(other.generated)
        && lodMeshes == old(other.lodMeshes) && triangleCounts == old(other.triangleCounts)
        && other.lodMeshes == [NoMesh, NoMesh, NoMesh, NoMesh] && !other.generated
        && other.triangleCounts == old(other.triangleCounts)
        && other.min == old(other.min) && other.max == old(other.max) && other.center == old(other.center)
    {
      if this != other {
        min, max, center := other.min, other.max, other.center;
        generated := other.generated;
        lodMeshes := other.lodMeshes;
        triangleCounts := other.triangleCounts;
        other.lodMeshes := [NoMesh, NoMesh, NoMesh, NoMesh];
        other.generated := false;
      }
    }

    /**
     * Builds one level and uploads it when both streams are non-empty; a
     * level with nothing to upload keeps its previous mesh and count.
     */
    method GenerateLodMesh(g: HeightGrid, p: Placement, lod: nat, normalize: Vec3 -> Vec3)
      requires Valid() && lod < LodLevels
      modifies this
      ensures Valid()
      ensures LevelGenerated(g, p, lod, normalize, lodMeshes[lod], triangleCounts[lod],
                             old(lodMeshes[lod]), old(triangleCounts[lod]))
      ensures forall l :: 0 <= l < LodLevels && l != lod ==>
                lodMeshes[l] == old(lodMeshes[l]) && triangleCounts[l] == old(triangleCounts[l])
      ensures min == old(min) && max == old(max) && center == old(center) && generated == old(generated)
    {
      var vertices, vertexCountX, vertexCountZ := BuildVertices(g, p, lod, normalize);
      var indices := BuildIndices(vertexCountX, vertexCountZ);
      UploadCondition(g, p, lod, normalize);
      if |vertices| > 0 && |indices| > 0 {
        lodMeshes := lodMeshes[lod := LodMesh(vertices, indices)];
        triangleCounts := triangleCounts[lod := |indices| / 3];
      }
    }

    /** The level loop of `generate`: every level is built in turn; the box is left alone. */
    method GenerateLevels(g: HeightGrid, p: Placement, normalize: Vec3 -> Vec3)
      requires Valid()
      modifies this
      ensures Valid()
      ensures forall lod: nat :: lod < LodLevels ==>
                LevelGenerated(g, p, lod, normalize, lodMeshes[lod], triangleCounts[lod],
                               old(lodMeshes[lod]), old(triangleCounts[lod]))
      ensures min == old(min) && max == old(max) && center == old(center) && generated == old(generated)
    {
      var lod := 0;
      while lod < LodLevels
        invariant 0 <= lod <= LodLevels && Valid()
        invariant min == old(min) && max == old(max) && center == old(center) && generated == old(generated)
        invariant forall l: nat :: l < lod ==>
             LevelGenerated(g, p, l, normalize, lodMeshes[l], triangleCounts[l],
                            old(lodMeshes[l]), old(triangleCounts[l]))
        invariant forall l :: lod <= l < LodLevels ==>
             lodMeshes[l] == old(lodMeshes[l]) && triangleCounts[l] == old(triangleCounts[l])
      {
        GenerateLodMesh(g, p, lod, normalize);
        lod := lod + 1;
      }
    }

    /**
     * Generates the tile with first grid point (startX, startZ) and extent
     * `chunkSize`: the bounding box over the scanned heights, then every
     * level. The heightmap is only read, through its samples; `worldSize`
     * is accepted and unused, as in the source.
     */
    method Generate(hm: HeightmapLoader, startX: int, startZ: int, chunkSize: int,
                    worldSize: real, terrainSize: real, maxHeight: real, normalize: Vec3 -> Vec3)
      requires Valid() && hm.width >= 2 && hm.height >= 2
      modifies this
      ensures Valid() && generated
      ensures var p := PlacementOf(hm.width, startX, startZ, chunkSize, terrainSize, maxHeight);
        BoxPlaced(p, chunkSize, min, max, center) && ScannedRange(hm.Grid(), p, min.y, max.y)
      ensures forall lod: nat :: lod < LodLevels ==>
        LevelGenerated(hm.Grid(), PlacementOf(hm.width, startX, startZ, chunkSize, terrainSize, maxHeight),
                       lod, normalize, lodMeshes[lod], triangleCounts[lod],
                       old(lodMeshes[lod]), old(triangleCounts[lod]))
    {
      var g := hm.Grid();
      var p := PlacementOf(hm.width, startX, startZ, chunkSize, terrainSize, maxHeight);
      var minY, maxY := ScanHeightRange(g, p);
      min := Vec3(p.offsetX, minY, p.offsetZ);
      max := Vec3(p.offsetX + chunkSize as real * p.cellSize, maxY, p.offsetZ + chunkSize as real * p.cellSize);
      center := Scale3(Add3(min, max), 0.5);
      assert BoxPlaced(p, chunkSize, min, max, center);
      GenerateLevels(g, p, normalize);
      generated := true;
    }

    /** The level drawn: none before generation, otherwise the level clamped into range. */
    function Render(lod: int): (drawn: Option<int>)
      reads this
      ensures drawn.Some? <==> generated
      ensures drawn.Some? ==> 0 <= drawn.value < LodLevels
      ensures drawn.Some? && 0 <= lod < LodLevels ==> drawn.value == lod
      ensures drawn.Some? && lod < 0 ==> drawn.value == 0
      ensures drawn.Some? && lod >= LodLevels ==> drawn.value == LodLevels - 1
    {
      if !generated then None else Some(ClampInt(lod, 0, LodLevels - 1))
    }

    /** The triangle count of the level, clamped into range, whether or not the chunk is generated. */
    function GetTriangleCount(lod: int): (count: int)
      reads this
      requires Valid()
      ensures 0 <= lod < LodLevels ==> count == triangleCounts[lod]
      ensures lod < 0 ==> count == triangleCounts[0]
      ensures lod >= LodLevels ==> count == triangleCounts[LodLevels - 1]
    {
      triangleCounts[ClampInt(lod, 0, LodLevels - 1)]
    }
  }
}
