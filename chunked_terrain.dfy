/**
 * The chunked terrain manager: it cuts the heightmap's cell grid into square
 * tiles, generates one terrain chunk per tile, and each frame culls the chunks
 * against the view frustum, picks a level of detail by distance and counts
 * what it draws.
 */
module ChunkedTerrains {
  import opened Glm
  import opened Wrappers
  import opened Heightmap
  import opened TerrainChunks
  import opened Frustums

  /** Default terrain size, maximum height and tile size of a fresh manager. */
  const DefaultSize := 100.0
  const DefaultMaxHeight := 20.0
  const DefaultChunkSize := 64

  /** The distance thresholds of the four levels a fresh manager starts with. */
  const DefaultLodDistances: seq<real> := [100.0, 200.0, 400.0, 800.0]

  // ---------------------------------------------------------------------------
  // The partition of the cell grid into tiles
  // ---------------------------------------------------------------------------

  /** One tile: the grid point it starts at and its extent in cells along both axes. */
  datatype Tile = Tile(startX: int, startZ: int, extent: int)

  /**
   * The number of tiles along an axis of `cells` cells: the quotient, rounded
   * up when there is a remainder, with C++'s division and remainder, which
   * round toward zero (the cell count is never negative here).
   */
  function ChunksAlong(cells: int, chunkSize: int): int
    requires cells >= 0 && chunkSize != 0
  {
    var q := if chunkSize > 0 then cells / chunkSize else -(cells / -chunkSize);
    var r := if chunkSize > 0 then cells % chunkSize else cells % -chunkSize;
    if r != 0 then q + 1 else q
  }

  /** For a positive tile size the tile count is the ceiling of cells over size. */
  lemma ChunksAlongIsCeiling(cells: int, chunkSize: int)
    requires cells >= 0 && chunkSize >= 1
    ensures var n := ChunksAlong(cells, chunkSize);
            n >= 0 && cells <= n * chunkSize && (n == 0 || (n - 1) * chunkSize < cells)
    ensures cells % chunkSize == 0 ==> ChunksAlong(cells, chunkSize) * chunkSize == cells
  {
    var q, r := cells / chunkSize, cells % chunkSize;
    assert cells == q * chunkSize + r && 0 <= r < chunkSize;
    assert (q + 1) * chunkSize == q * chunkSize + chunkSize;
  }

  /**
   * `reserve` takes a `size_t`. A negative product of the two tile counts
   * converts to a size no vector can hold, so `std::length_error` leaves
   * `generate` before any chunk is made.
   */
  predicate ReserveThrows(width: int, height: int, chunkSize: int)
    requires width >= 1 && height >= 1 && chunkSize != 0
  {
    ChunksAlong(width - 1, chunkSize) * ChunksAlong(height - 1, chunkSize) < 0
  }

  /** A positive tile size gives counts that are never negative, so `reserve` never throws. */
  lemma PositiveSizeNeverThrows(width: int, height: int, chunkSize: int)
    requires width >= 1 && height >= 1 && chunkSize >= 1
    ensures !ReserveThrows(width, height, chunkSize)
  {
    ChunksAlongIsCeiling(width - 1, chunkSize);
    ChunksAlongIsCeiling(height - 1, chunkSize);
  }

  /**
   * A negative size throws when the counts have opposite signs: 11x129 at -64
   * counts 1 column and -2 rows. At 129x129 both counts are -2 and it does not.
   */
  lemma OppositeCountsThrow()
    ensures ChunksAlong(10, -64) == 1 && ChunksAlong(128, -64) == -2
    ensures ReserveThrows(11, 129, -64) && !ReserveThrows(129, 129, -64)
  {
  }

  /** The extent of tile (cx, cz): the tile size cut short by the end of either axis. */
  function Extent(width: int, height: int, chunkSize: int, cx: int, cz: int): int {
    var sizeX := MinInt(chunkSize, width - 1 - cx * chunkSize);
    var sizeZ := MinInt(chunkSize, height - 1 - cz * chunkSize);
    MinInt(sizeX, sizeZ)
  }

  /** The tiles of row cz with column below `cols`, in column order; tiles with no extent are skipped. */
  function TileRow(width: int, height: int, chunkSize: int, cz: int, cols: int): seq<Tile>
    decreases cols
  {
    if cols <= 0 then []
    else
      var e := Extent(width, height, chunkSize, cols - 1, cz);
      TileRow(width, height, chunkSize, cz, cols - 1)
        + (if e > 0 then [Tile((cols - 1) * chunkSize, cz * chunkSize, e)] else [])
  }

  /** The tiles of the rows below `rows`, row after row. */
  function TileRows(width: int, height: int, chunkSize: int, rows: int, cols: int): seq<Tile>
    decreases rows
  {
    if rows <= 0 then []
    else TileRows(width, height, chunkSize, rows - 1, cols) + TileRow(width, height, chunkSize, rows - 1, cols)
  }

  /** The tiles `generate` makes a chunk for, in the order it appends them. */
  function Partition(width: int, height: int, chunkSize: int): seq<Tile>
    requires width >= 1 && height >= 1 && chunkSize != 0
  {
    TileRows(width, height, chunkSize, ChunksAlong(height - 1, chunkSize), ChunksAlong(width - 1, chunkSize))
  }

  /** A tile lies on the grid: non-empty, at most the tile size and inside both axes. */
  predicate TileFits(width: int, height: int, chunkSize: int, t: Tile) {
    && 1 <= t.extent <= chunkSize
    && 0 <= t.startX && t.startX + t.extent <= width - 1
    && 0 <= t.startZ && t.startZ + t.extent <= height - 1
  }

  lemma {:induction false} TileRowFits(width: int, height: int, chunkSize: int, cz: nat, cols: int)
    requires chunkSize >= 1
    ensures forall t :: t in TileRow(width, height, chunkSize, cz, cols) ==>
              TileFits(width, height, chunkSize, t) && t.startZ == cz * chunkSize
  {
    if cols > 0 {
      TileRowFits(width, height, chunkSize, cz, cols - 1);
      var e := Extent(width, height, chunkSize, cols - 1, cz);
      var c: nat := cols - 1;
      assert c * chunkSize >= 0 && cz * chunkSize >= 0;
      var extra := if e > 0 then [Tile(c * chunkSize, cz * chunkSize, e)] else [];
      assert forall t :: t in extra ==> TileFits(width, height, chunkSize, t) && t.startZ == cz * chunkSize;
      assert TileRow(width, height, chunkSize, cz, cols) == TileRow(width, height, chunkSize, cz, cols - 1) + extra;
    }
  }

  lemma {:induction false} TileRowsFit(width: int, height: int, chunkSize: int, rows: int, cols: int)
    requires chunkSize >= 1
    ensures forall t :: t in TileRows(width, height, chunkSize, rows, cols) ==> TileFits(width, height, chunkSize, t)
  {
    if rows > 0 {
      TileRowsFit(width, height, chunkSize, rows - 1, cols);
      TileRowFits(width, height, chunkSize, rows - 1, cols);
      var prev, row := TileRows(width, height, chunkSize, rows - 1, cols), TileRow(width, height, chunkSize, rows - 1, cols);
      assert TileRows(width, height, chunkSize, rows, cols) == prev + row;
      FitsJoined(width, height, chunkSize, prev, row);
    }
  }

  lemma FitsJoined(width: int, height: int, chunkSize: int, a: seq<Tile>, b: seq<Tile>)
    requires forall t :: t in a ==> TileFits(width, height, chunkSize, t)
    requires forall t :: t in b ==> TileFits(width, height, chunkSize, t)
    ensures forall t :: t in a + b ==> TileFits(width, height, chunkSize, t)
  {
  }

  /** Every tile of the partition is non-empty, no larger than the tile size and inside the grid. */
  lemma PartitionFits(width: int, height: int, chunkSize: int)
    requires width >= 1 && height >= 1 && chunkSize >= 1
    ensures forall t :: t in Partition(width, height, chunkSize) ==> TileFits(width, height, chunkSize, t)
  {
    TileRowsFit(width, height, chunkSize, ChunksAlong(height - 1, chunkSize), ChunksAlong(width - 1, chunkSize));
  }

  lemma {:induction false} TileRowLength(width: int, height: int, chunkSize: int, cz: int, cols: int)
    ensures |TileRow(width, height, chunkSize, cz, cols)| <= MaxInt(cols, 0)
  {
    if cols > 0 {
      TileRowLength(width, height, chunkSize, cz, cols - 1);
    }
  }

  lemma {:induction false} TileRowsLength(width: int, height: int, chunkSize: int, rows: int, cols: int)
    requires rows >= 0 && cols >= 0
    ensures |TileRows(width, height, chunkSize, rows, cols)| <= cols * rows
  {
    if rows > 0 {
      TileRowsLength(width, height, chunkSize, rows - 1, cols);
      TileRowLength(width, height, chunkSize, rows - 1, cols);
      assert cols * rows == cols * (rows - 1) + cols;
    }
  }

  /** There are at most `chunksPerRow * chunksPerCol` chunks. */
  lemma PartitionBound(width: int, height: int, chunkSize: int)
    requires width >= 1 && height >= 1 && chunkSize >= 1
    ensures |Partition(width, height, chunkSize)|
            <= ChunksAlong(width - 1, chunkSize) * ChunksAlong(height - 1, chunkSize)
  {
    ChunksAlongIsCeiling(width - 1, chunkSize);
    ChunksAlongIsCeiling(height - 1, chunkSize);
    TileRowsLength(width, height, chunkSize, ChunksAlong(height - 1, chunkSize), ChunksAlong(width - 1, chunkSize));
  }

  lemma {:induction false} NoTilesInRow(width: int, height: int, chunkSize: int, cz: int, cols: int)
    requires chunkSize < 0
    ensures TileRow(width, height, chunkSize, cz, cols) == []
  {
    if cols > 0 {
      NoTilesInRow(width, height, chunkSize, cz, cols - 1);
    }
  }

  lemma {:induction false} NoTilesInRows(width: int, height: int, chunkSize: int, rows: int, cols: int)
    requires chunkSize < 0
    ensures TileRows(width, height, chunkSize, rows, cols) == []
  {
    if rows > 0 {
      NoTilesInRows(width, height, chunkSize, rows - 1, cols);
      NoTilesInRow(width, height, chunkSize, rows - 1, cols);
    }
  }

  /** A negative tile size makes every extent negative, so no chunk is generated. */
  lemma NegativeSizeMakesNoTiles(width: int, height: int, chunkSize: int)
    requires width >= 1 && height >= 1 && chunkSize < 0
    ensures Partition(width, height, chunkSize) == []
  {
    NoTilesInRows(width, height, chunkSize, ChunksAlong(height - 1, chunkSize), ChunksAlong(width - 1, chunkSize));
  }

  /** Tile a comes before tile b in row-major order of their start points. */
  predicate RowMajorBefore(a: Tile, b: Tile) {
    a.startZ < b.startZ || (a.startZ == b.startZ && a.startX < b.startX)
  }

  /** Every tile of the sequence comes before every later one. */
  predicate RowMajor(ts: seq<Tile>) {
    forall i, j :: 0 <= i < j < |ts| ==> RowMajorBefore(ts[i], ts[j])
  }

  /** Every tile starts on row z, left of `xLimit`. */
  predicate OnRowBefore(ts: seq<Tile>, z: int, xLimit: int) {
    forall i :: 0 <= i < |ts| ==> ts[i].startZ == z && ts[i].startX < xLimit
  }

  /** Every tile starts above row `zLimit`. */
  predicate AboveRow(ts: seq<Tile>, zLimit: int) {
    forall i :: 0 <= i < |ts| ==> ts[i].startZ < zLimit
  }

  lemma {:induction false} TileRowOrdered(width: int, height: int, chunkSize: int, cz: int, cols: int)
    requires chunkSize >= 1
    ensures OnRowBefore(TileRow(width, height, chunkSize, cz, cols), cz * chunkSize, cols * chunkSize)
    ensures RowMajor(TileRow(width, height, chunkSize, cz, cols))
  {
    if cols > 0 {
      TileRowOrdered(width, height, chunkSize, cz, cols - 1);
      var prev := TileRow(width, height, chunkSize, cz, cols - 1);
      var e := Extent(width, height, chunkSize, cols - 1, cz);
      var extra := if e > 0 then [Tile((cols - 1) * chunkSize, cz * chunkSize, e)] else [];
      var row := prev + extra;
      assert row == TileRow(width, height, chunkSize, cz, cols);
      assert cols * chunkSize == (cols - 1) * chunkSize + chunkSize;
      assert OnRowBefore(prev, cz * chunkSize, (cols - 1) * chunkSize) && RowMajor(prev);
      assert OnRowBefore(extra, cz * chunkSize, cols * chunkSize);
      ConcatRowMajor(prev, extra);
    }
  }

  /** Joining two ordered runs where every tile of the first precedes every tile of the second. */
  lemma ConcatRowMajor(a: seq<Tile>, b: seq<Tile>)
    requires RowMajor(a) && RowMajor(b)
    requires forall i, j :: 0 <= i < |a| && 0 <= j < |b| ==> RowMajorBefore(a[i], b[j])
    ensures RowMajor(a + b)
  {
    var ab := a + b;
    forall i, j | 0 <= i < j < |ab|
      ensures RowMajorBefore(ab[i], ab[j])
    {
      if j < |a| {
        assert ab[i] == a[i] && ab[j] == a[j];
      } else if i < |a| {
        assert ab[i] == a[i] && ab[j] == b[j - |a|];
      } else {
        assert ab[i] == b[i - |a|] && ab[j] == b[j - |a|];
      }
    }
  }

  lemma {:induction false} TileRowsOrdered(width: int, height: int, chunkSize: int, rows: int, cols: int)
    requires chunkSize >= 1
    ensures AboveRow(TileRows(width, height, chunkSize, rows, cols), rows * chunkSize)
    ensures RowMajor(TileRows(width, height, chunkSize, rows, cols))
  {
    if rows > 0 {
      TileRowsOrdered(width, height, chunkSize, rows - 1, cols);
      TileRowOrdered(width, height, chunkSize, rows - 1, cols);
      var prev := TileRows(width, height, chunkSize, rows - 1, cols);
      var row := TileRow(width, height, chunkSize, rows - 1, cols);
      assert prev + row == TileRows(width, height, chunkSize, rows, cols);
      assert rows * chunkSize == (rows - 1) * chunkSize + chunkSize;
      assert AboveRow(prev, (rows - 1) * chunkSize);
      assert OnRowBefore(row, (rows - 1) * chunkSize, cols * chunkSize);
      ConcatRowMajor(prev, row);
      assert AboveRow(prev + row, rows * chunkSize) by {
        forall i | 0 <= i < |prev + row|
          ensures (prev + row)[i].startZ < rows * chunkSize
        {
          if i < |prev| {
            assert (prev + row)[i] == prev[i];
          } else {
            assert (prev + row)[i] == row[i - |prev|];
          }
        }
      }
    }
  }

  /** Chunks are appended row after row, and within a row from left to right. */
  lemma PartitionRowMajor(width: int, height: int, chunkSize: int)
    requires width >= 1 && height >= 1 && chunkSize >= 1
    ensures RowMajor(Partition(width, height, chunkSize))
  {
    TileRowsOrdered(width, height, chunkSize, ChunksAlong(height - 1, chunkSize), ChunksAlong(width - 1, chunkSize));
  }

  // ---------------------------------------------------------------------------
  // Coverage
  // ---------------------------------------------------------------------------

  /** Cell (x, z), the square from grid point (x, z) to (x + 1, z + 1), lies in the tile. */
  predicate Contains(t: Tile, x: int, z: int) {
    t.startX <= x < t.startX + t.extent && t.startZ <= z < t.startZ + t.extent
  }

  /** Every tile of row cz up to `cols` is a full tile at its column. */
  predicate UniformRow(row: seq<Tile>, chunkSize: int, cz: int, cols: int) {
    |row| == cols && forall cx :: 0 <= cx < cols ==> row[cx] == Tile(cx * chunkSize, cz * chunkSize, chunkSize)
  }

  lemma {:induction false} UniformTileRow(width: int, height: int, chunkSize: int, cz: nat, cols: nat)
    requires chunkSize >= 1 && cols * chunkSize <= width - 1 && cz * chunkSize + chunkSize <= height - 1
    ensures UniformRow(TileRow(width, height, chunkSize, cz, cols), chunkSize, cz, cols)
  {
    if cols > 0 {
      assert (cols - 1) * chunkSize + chunkSize == cols * chunkSize;
      UniformTileRow(width, height, chunkSize, cz, cols - 1);
      assert Extent(width, height, chunkSize, cols - 1, cz) == chunkSize;
      var prev := TileRow(width, height, chunkSize, cz, cols - 1);
      var row := prev + [Tile((cols - 1) * chunkSize, cz * chunkSize, chunkSize)];
      assert row == TileRow(width, height, chunkSize, cz, cols);
      forall cx | 0 <= cx < cols
        ensures row[cx] == Tile(cx * chunkSize, cz * chunkSize, chunkSize)
      {
        if cx < cols - 1 {
          assert row[cx] == prev[cx];
        }
      }
    }
  }

  /** Every tile of the rows up to `rows` is a full tile, tile (cx, cz) at position cz * cols + cx. */
  predicate UniformRows(ts: seq<Tile>, chunkSize: int, rows: nat, cols: nat) {
    && |ts| == cols * rows
    && forall cx, cz :: 0 <= cx < cols && 0 <= cz < rows ==>
         0 <= cz * cols + cx < |ts| && ts[cz * cols + cx] == Tile(cx * chunkSize, cz * chunkSize, chunkSize)
  }

  lemma RowPositionBelow(cz: nat, cx: nat, rows: nat, cols: nat)
    requires cz < rows && cx < cols
    ensures 0 <= cz * cols + cx < cols * rows
  {
    assert cz * cols + cx < cz * cols + cols == (cz + 1) * cols;
    MulMonotone(cz + 1, rows, cols);
    assert (cz + 1) * cols <= rows * cols;
  }

  lemma {:induction false} UniformTileRows(width: int, height: int, chunkSize: int, rows: nat, cols: nat)
    requires chunkSize >= 1 && cols * chunkSize <= width - 1 && rows * chunkSize <= height - 1
    ensures UniformRows(TileRows(width, height, chunkSize, rows, cols), chunkSize, rows, cols)
  {
    if rows > 0 {
      assert (rows - 1) * chunkSize + chunkSize == rows * chunkSize;
      UniformTileRows(width, height, chunkSize, rows - 1, cols);
      UniformTileRow(width, height, chunkSize, rows - 1, cols);
      var prev := TileRows(width, height, chunkSize, rows - 1, cols);
      var row := TileRow(width, height, chunkSize, rows - 1, cols);
      assert prev + row == TileRows(width, height, chunkSize, rows, cols);
      UniformJoined(prev, row, chunkSize, rows, cols);
    }
  }

  /** A uniform block of rows followed by one more uniform row is a uniform block one row taller. */
  lemma UniformJoined(prev: seq<Tile>, row: seq<Tile>, chunkSize: int, rows: nat, cols: nat)
    requires rows > 0
    requires UniformRows(prev, chunkSize, rows - 1, cols) && UniformRow(row, chunkSize, rows - 1, cols)
    ensures UniformRows(prev + row, chunkSize, rows, cols)
  {
    assert cols * rows == cols * (rows - 1) + cols;
    forall cx, cz | 0 <= cx < cols && 0 <= cz < rows
      ensures 0 <= cz * cols + cx < |prev + row|
      ensures (prev + row)[cz * cols + cx] == Tile(cx * chunkSize, cz * chunkSize, chunkSize)
    {
      UniformJoinedAt(prev, row, chunkSize, rows, cols, cx, cz);
    }
  }

  lemma UniformJoinedAt(prev: seq<Tile>, row: seq<Tile>, chunkSize: int, rows: nat, cols: nat, cx: nat, cz: nat)
    requires cx < cols && cz < rows
    requires UniformRows(prev, chunkSize, rows - 1, cols) && UniformRow(row, chunkSize, rows - 1, cols)
    ensures 0 <= cz * cols + cx < |prev + row|
    ensures (prev + row)[cz * cols + cx] == Tile(cx * chunkSize, cz * chunkSize, chunkSize)
  {
    var k := cz * cols + cx;
    if cz < rows - 1 {
      RowPositionBelow(cz, cx, rows - 1, cols);
      assert k < |prev|;
      assert (prev + row)[k] == prev[k];
    } else {
      assert cz * cols == cols * (rows - 1);
      assert k == |prev| + cx;
      assert (prev + row)[k] == row[cx];
    }
  }

  /** When the tile size divides both cell counts, the partition is the full grid of full tiles. */
  lemma DivisiblePartitionUniform(width: int, height: int, chunkSize: int)
    requires width >= 1 && height >= 1 && chunkSize >= 1
    requires (width - 1) % chunkSize == 0 && (height - 1) % chunkSize == 0
    ensures ChunksAlong(width - 1, chunkSize) * chunkSize == width - 1
    ensures ChunksAlong(height - 1, chunkSize) * chunkSize == height - 1
    ensures UniformRows(Partition(width, height, chunkSize), chunkSize,
                        ChunksAlong(height - 1, chunkSize), ChunksAlong(width - 1, chunkSize))
  {
    ChunksAlongIsCeiling(width - 1, chunkSize);
    ChunksAlongIsCeiling(height - 1, chunkSize);
    UniformTileRows(width, height, chunkSize, ChunksAlong(height - 1, chunkSize), ChunksAlong(width - 1, chunkSize));
  }

  lemma DivUnique(x: int, c: int, chunkSize: int)
    requires chunkSize >= 1 && c * chunkSize <= x < c * chunkSize + chunkSize
    ensures x / chunkSize == c
  {
    var q, r := x / chunkSize, x % chunkSize;
    assert x == q * chunkSize + r && 0 <= r < chunkSize;
    var d := q - c;
    assert d * chunkSize == q * chunkSize - c * chunkSize;
    if d >= 1 {
      MulMonotone(1, d, chunkSize);
    }
  }

  lemma DivBelow(x: int, n: int, chunkSize: int)
    requires chunkSize >= 1 && 0 <= x < n * chunkSize
    ensures 0 <= x / chunkSize < n
  {
    var q, r := x / chunkSize, x % chunkSize;
    assert x == q * chunkSize + r && 0 <= r < chunkSize;
  }

  /** Position i of a uniform layout holds the full tile at column `i % cols`, row `i / cols`. */
  lemma UniformRowsAt(ts: seq<Tile>, chunkSize: int, rows: nat, cols: nat, i: int)
    requires UniformRows(ts, chunkSize, rows, cols) && 0 <= i < |ts|
    ensures cols > 0 && ts[i] == Tile((i % cols) * chunkSize, (i / cols) * chunkSize, chunkSize)
  {
    var ci, ri := i % cols, i / cols;
    assert i == ri * cols + ci && 0 <= ci < cols;
    DivBelow(i, rows, cols);
  }

  /** The position in the partition of the tile holding cell (x, z) under a dividing tile size. */
  function CellTile(width: int, chunkSize: int, x: int, z: int): int
    requires width >= 1 && chunkSize >= 1
  {
    (z / chunkSize) * ChunksAlong(width - 1, chunkSize) + x / chunkSize
  }

  /** When the tile size divides both cell counts, the chunk at position `CellTile` holds cell (x, z). */
  lemma DivisiblePartitionCovers(width: int, height: int, chunkSize: int, x: int, z: int)
    requires width >= 1 && height >= 1 && chunkSize >= 1
    requires (width - 1) % chunkSize == 0 && (height - 1) % chunkSize == 0
    requires 0 <= x < width - 1 && 0 <= z < height - 1
    ensures 0 <= CellTile(width, chunkSize, x, z) < |Partition(width, height, chunkSize)|
    ensures Contains(Partition(width, height, chunkSize)[CellTile(width, chunkSize, x, z)], x, z)
  {
    DivisiblePartitionUniform(width, height, chunkSize);
    UniformCovers(Partition(width, height, chunkSize), chunkSize,
                  ChunksAlong(height - 1, chunkSize), ChunksAlong(width - 1, chunkSize), x, z);
  }

  /** In a uniform layout of rows x cols full tiles, the tile at row z / size, column x / size holds cell (x, z). */
  lemma UniformCovers(ts: seq<Tile>, chunkSize: int, rows: nat, cols: nat, x: int, z: int)
    requires chunkSize >= 1 && UniformRows(ts, chunkSize, rows, cols)
    requires 0 <= x < cols * chunkSize && 0 <= z < rows * chunkSize
    ensures 0 <= (z / chunkSize) * cols + x / chunkSize < |ts|
    ensures Contains(ts[(z / chunkSize) * cols + x / chunkSize], x, z)
  {
    var cx, cz := x / chunkSize, z / chunkSize;
    DivBelow(x, cols, chunkSize);
    DivBelow(z, rows, chunkSize);
    assert x == cx * chunkSize + x % chunkSize && z == cz * chunkSize + z % chunkSize;
    RowPositionBelow(cz, cx, rows, cols);
    assert ts[cz * cols + cx] == Tile(cx * chunkSize, cz * chunkSize, chunkSize);
  }

  /** When the tile size divides both cell counts, no other chunk holds cell (x, z). */
  lemma DivisiblePartitionDisjoint(width: int, height: int, chunkSize: int, x: int, z: int, i: int)
    requires width >= 1 && height >= 1 && chunkSize >= 1
    requires (width - 1) % chunkSize == 0 && (height - 1) % chunkSize == 0
    requires 0 <= i < |Partition(width, height, chunkSize)| && Contains(Partition(width, height, chunkSize)[i], x, z)
    ensures i == CellTile(width, chunkSize, x, z)
  {
    DivisiblePartitionUniform(width, height, chunkSize);
    UniformDisjoint(Partition(width, height, chunkSize), chunkSize,
                    ChunksAlong(height - 1, chunkSize), ChunksAlong(width - 1, chunkSize), x, z, i);
  }

  /** In a uniform layout only the tile at row z / size, column x / size holds cell (x, z). */
  lemma UniformDisjoint(ts: seq<Tile>, chunkSize: int, rows: nat, cols: nat, x: int, z: int, i: int)
    requires chunkSize >= 1 && UniformRows(ts, chunkSize, rows, cols)
    requires 0 <= i < |ts| && Contains(ts[i], x, z)
    ensures i == (z / chunkSize) * cols + x / chunkSize
  {
    UniformRowsAt(ts, chunkSize, rows, cols, i);
    DivUnique(x, i % cols, chunkSize);
    DivUnique(z, i / cols, chunkSize);
    assert i == (i / cols) * cols + i % cols;
  }

  /**
   * The extent is the smaller of the two axes' extents, so on a grid whose
   * cell counts the tile size does not divide, cells are left out: on a
   * 129 x 33 grid with 64-cell tiles the two chunks are 32 cells square and
   * cell (40, 0) lies in neither.
   */
  lemma PartitionLeavesGaps()
    ensures Partition(129, 33, 64) == [Tile(0, 0, 32), Tile(64, 0, 32)]
    ensures forall i :: 0 <= i < |Partition(129, 33, 64)| ==> !Contains(Partition(129, 33, 64)[i], 40, 0)
  {
    assert ChunksAlong(128, 64) == 2 && ChunksAlong(32, 64) == 1;
    assert Extent(129, 33, 64, 0, 0) == 32 && Extent(129, 33, 64, 1, 0) == 32;
    assert TileRow(129, 33, 64, 0, 1) == [Tile(0, 0, 32)];
    assert TileRow(129, 33, 64, 0, 2) == [Tile(0, 0, 32), Tile(64, 0, 32)];
    assert TileRows(129, 33, 64, 1, 2) == TileRow(129, 33, 64, 0, 2);
  }

  // ---------------------------------------------------------------------------
  // Triangles of the generated chunks
  // ---------------------------------------------------------------------------

  /** Level 0 of a tile of extent e holds e * e cells of two triangles each; summed over the tiles. */
  function LevelZeroTriangles(ts: seq<Tile>): int {
    if ts == [] then 0 else LevelZeroTriangles(ts[..|ts| - 1]) + 2 * (ts[|ts| - 1].extent * ts[|ts| - 1].extent)
  }

  lemma {:induction false} UniformTriangles(ts: seq<Tile>, chunkSize: int)
    requires forall i :: 0 <= i < |ts| ==> ts[i].extent == chunkSize
    ensures LevelZeroTriangles(ts) == |ts| * (2 * (chunkSize * chunkSize))
  {
    if ts != [] {
      UniformTriangles(ts[..|ts| - 1], chunkSize);
      assert |ts| * (2 * (chunkSize * chunkSize)) == (|ts| - 1) * (2 * (chunkSize * chunkSize)) + 2 * (chunkSize * chunkSize);
    }
  }

  /** When the tile size divides both cell counts, level 0 of all chunks has two triangles per grid cell. */
  lemma DivisiblePartitionTriangles(width: int, height: int, chunkSize: int)
    requires width >= 1 && height >= 1 && chunkSize >= 1
    requires (width - 1) % chunkSize == 0 && (height - 1) % chunkSize == 0
    ensures LevelZeroTriangles(Partition(width, height, chunkSize)) == 2 * ((width - 1) * (height - 1))
  {
    DivisiblePartitionUniform(width, height, chunkSize);
    UniformRowsTriangles(Partition(width, height, chunkSize), chunkSize,
                         ChunksAlong(height - 1, chunkSize), ChunksAlong(width - 1, chunkSize));
  }

  /** A uniform layout of rows x cols full tiles has two level-0 triangles per cell it spans. */
  lemma UniformRowsTriangles(ts: seq<Tile>, chunkSize: int, rows: nat, cols: nat)
    requires UniformRows(ts, chunkSize, rows, cols)
    ensures LevelZeroTriangles(ts) == 2 * ((cols * chunkSize) * (rows * chunkSize))
  {
    forall i | 0 <= i < |ts|
      ensures ts[i].extent == chunkSize
    {
      UniformRowsAt(ts, chunkSize, rows, cols, i);
    }
    UniformTriangles(ts, chunkSize);
    assert (cols * rows) * (2 * (chunkSize * chunkSize)) == 2 * ((cols * chunkSize) * (rows * chunkSize));
  }

  /**
   * Chunk c holds what `generate` leaves in a fresh chunk for tile t of grid g:
   * its box around the tile, the scanned height range, and every level built
   * from the grid (or left empty where the level has too few samples).
   */
  ghost predicate TileGenerated(c: TerrainChunk, g: HeightGrid, t: Tile, terrainSize: real, maxHeight: real,
                                normalize: Vec3 -> Vec3)
    reads c
  {
    && g.width >= 2
    && var p := PlacementOf(g.width, t.startX, t.startZ, t.extent, terrainSize, maxHeight);
       && c.Valid() && c.generated
       && BoxPlaced(p, t.extent, c.min, c.max, c.center)
       && ScannedRange(g, p, c.min.y, c.max.y)
       && forall lod: nat :: lod < LodLevels ==>
            LevelGenerated(g, p, lod, normalize, c.lodMeshes[lod], c.triangleCounts[lod], NoMesh, 0)
  }

  /** The chunks are those `generate` makes for the tiles, one for one and in order. */
  ghost predicate TilesGenerated(cs: seq<TerrainChunk>, g: HeightGrid, ts: seq<Tile>, terrainSize: real,
                                 maxHeight: real, normalize: Vec3 -> Vec3)
    reads cs
  {
    && |cs| == |ts|
    && forall i {:trigger TileGenerated(cs[i], g, ts[i], terrainSize, maxHeight, normalize)} :: 0 <= i < |cs| ==>
         TileGenerated(cs[i], g, ts[i], terrainSize, maxHeight, normalize)
  }

  /** Generated chunks are sound. */
  lemma GeneratedChunksValid(cs: seq<TerrainChunk>, g: HeightGrid, ts: seq<Tile>, terrainSize: real,
                             maxHeight: real, normalize: Vec3 -> Vec3)
    requires TilesGenerated(cs, g, ts, terrainSize, maxHeight, normalize)
    ensures forall i :: 0 <= i < |cs| ==> cs[i].Valid()
  {
    forall i | 0 <= i < |cs|
      ensures cs[i].Valid()
    {
      assert TileGenerated(cs[i], g, ts[i], terrainSize, maxHeight, normalize);
    }
  }

  /** The triangle counts of the chunks at a level, summed. */
  function TriangleSum(cs: seq<TerrainChunk>, lod: int): int
    reads cs
    requires forall i :: 0 <= i < |cs| ==> cs[i].Valid()
  {
    if cs == [] then 0 else TriangleSum(cs[..|cs| - 1], lod) + cs[|cs| - 1].GetTriangleCount(lod)
  }

  /** A chunk generated for a tile inside the grid has two triangles per cell at level 0. */
  lemma TileLevelZero(c: TerrainChunk, g: HeightGrid, t: Tile, terrainSize: real, maxHeight: real,
                      normalize: Vec3 -> Vec3)
    requires TileGenerated(c, g, t, terrainSize, maxHeight, normalize)
    requires 1 <= t.extent && t.startX + t.extent <= g.width - 1 && t.startZ + t.extent <= g.height - 1
    ensures c.triangleCounts[0] == 2 * (t.extent * t.extent)
  {
    var p := PlacementOf(g.width, t.startX, t.startZ, t.extent, terrainSize, maxHeight);
    var e := t.extent;
    FittingTileLevels(g, p, 0);
    assert Step(0) == 1;
    assert VertexCounts(g, p, 0) == (e + 1, e + 1);
    IndexStreamTriangles(e + 1, e + 1);
    assert MaxInt(e + 1 - 1, 0) == e;
    assert LevelGenerated(g, p, 0, normalize, c.lodMeshes[0], c.triangleCounts[0], NoMesh, 0);
    assert c.triangleCounts[0] == |IndexStream(e + 1, e + 1)| / 3;
  }

  /** The level-0 triangle counts of the generated chunks add up to those of their tiles. */
  lemma {:induction false} GeneratedTriangleSum(cs: seq<TerrainChunk>, g: HeightGrid, ts: seq<Tile>,
                                                terrainSize: real, maxHeight: real, normalize: Vec3 -> Vec3)
    requires TilesGenerated(cs, g, ts, terrainSize, maxHeight, normalize)
    requires forall i :: 0 <= i < |ts| ==>
               1 <= ts[i].extent && ts[i].startX + ts[i].extent <= g.width - 1 && ts[i].startZ + ts[i].extent <= g.height - 1
    ensures forall i :: 0 <= i < |cs| ==> cs[i].Valid()
    ensures TriangleSum(cs, 0) == LevelZeroTriangles(ts)
  {
    if cs != [] {
      var n := |cs| - 1;
      assert TilesGenerated(cs[..n], g, ts[..n], terrainSize, maxHeight, normalize);
      GeneratedTriangleSum(cs[..n], g, ts[..n], terrainSize, maxHeight, normalize);
      TileLevelZero(cs[n], g, ts[n], terrainSize, maxHeight, normalize);
    }
  }

  /** The chunks generated for a whole partition carry its level-0 triangles. */
  lemma GeneratedPartitionTriangles(cs: seq<TerrainChunk>, g: HeightGrid, chunkSize: int,
                                    terrainSize: real, maxHeight: real, normalize: Vec3 -> Vec3)
    requires g.width >= 1 && g.height >= 1 && chunkSize != 0
    requires TilesGenerated(cs, g, Partition(g.width, g.height, chunkSize), terrainSize, maxHeight, normalize)
    ensures forall i :: 0 <= i < |cs| ==> cs[i].Valid()
    ensures TriangleSum(cs, 0) == LevelZeroTriangles(Partition(g.width, g.height, chunkSize))
  {
    var ts := Partition(g.width, g.height, chunkSize);
    if chunkSize > 0 {
      PartitionFits(g.width, g.height, chunkSize);
      assert forall i :: 0 <= i < |ts| ==> TileFits(g.width, g.height, chunkSize, ts[i]) by {
        forall i | 0 <= i < |ts| ensures TileFits(g.width, g.height, chunkSize, ts[i]) {
          assert ts[i] in ts;
        }
      }
    } else {
      NegativeSizeMakesNoTiles(g.width, g.height, chunkSize);
    }
    GeneratedTriangleSum(cs, g, ts, terrainSize, maxHeight, normalize);
  }

  // ---------------------------------------------------------------------------
  // Level of detail
  // ---------------------------------------------------------------------------

  /** The first level from i on whose threshold the distance is below, else the last level. */
  function LodFrom(table: seq<real>, distance: real, i: nat): (lod: int)
    requires |table| == LodLevels && i <= LodLevels
    decreases LodLevels - i
  {
    if i == LodLevels then LodLevels - 1
    else if distance < table[i] then i
    else LodFrom(table, distance, i + 1)
  }

  /** The level `calculateLOD` picks: the first threshold the distance is below, else level 3. */
  function LodFor(table: seq<real>, distance: real): (lod: int)
    requires |table| == LodLevels
  {
    LodFrom(table, distance, 0)
  }

  lemma {:induction false} LodFromCharacterised(table: seq<real>, distance: real, i: nat)
    requires |table| == LodLevels && i <= LodLevels
    requires forall j :: 0 <= j < i ==> table[j] <= distance
    ensures var lod := LodFrom(table, distance, i);
            && i <= lod + 1 && 0 <= lod < LodLevels
            && (forall j :: 0 <= j < lod ==> table[j] <= distance)
            && (lod < LodLevels - 1 ==> distance < table[lod])
    decreases LodLevels - i
  {
    if i < LodLevels && !(distance < table[i]) {
      LodFromCharacterised(table, distance, i + 1);
    }
  }

  /**
   * The level is the one in [0, 3] with every earlier threshold at most the
   * distance and, below level 3, the distance below its own threshold; no
   * other level has both properties.
   */
  lemma LodForCharacterised(table: seq<real>, distance: real, lod: int)
    requires |table| == LodLevels
    ensures lod == LodFor(table, distance) <==>
            && 0 <= lod < LodLevels
            && (forall j :: 0 <= j < lod ==> table[j] <= distance)
            && (lod < LodLevels - 1 ==> distance < table[lod])
  {
    LodFromCharacterised(table, distance, 0);
  }

  /** A farther chunk never gets a finer level, whatever the thresholds. */
  lemma LodForMonotone(table: seq<real>, near: real, far: real)
    requires |table| == LodLevels && near <= far
    ensures LodFor(table, near) <= LodFor(table, far)
  {
    LodForCharacterised(table, near, LodFor(table, near));
    LodForCharacterised(table, far, LodFor(table, far));
  }

  /** With the default thresholds the levels are the distance bands [0,100), [100,200), [200,400) and [400,∞). */
  lemma DefaultLodBands(distance: real)
    ensures LodFor(DefaultLodDistances, distance) == 0 <==> distance < 100.0
    ensures LodFor(DefaultLodDistances, distance) == 1 <==> 100.0 <= distance < 200.0
    ensures LodFor(DefaultLodDistances, distance) == 2 <==> 200.0 <= distance < 400.0
    ensures LodFor(DefaultLodDistances, distance) == 3 <==> 400.0 <= distance
  {
  }

  /** The default thresholds ascend strictly. */
  lemma DefaultThresholdsAscend()
    ensures |DefaultLodDistances| == LodLevels
    ensures forall i, j :: 0 <= i < j < LodLevels ==> DefaultLodDistances[i] < DefaultLodDistances[j]
  {
  }

  // ---------------------------------------------------------------------------
  // What a frame draws
  // ---------------------------------------------------------------------------

  /** A chunk is drawn when culling is off or its box passes the frustum. */
  ghost predicate Shown(c: TerrainChunk, f: Frustum, culling: bool)
    reads c, f, f.planes
    requires f.Valid()
  {
    !culling || f.BoxVisible(c.min, c.max)
  }

  /** The level a drawn chunk gets: by the distance from the camera to its centre, or 0 with LOD off. */
  function ChosenLod(c: TerrainChunk, lodOn: bool, table: seq<real>, cameraPos: Vec3,
                     distance: (Vec3, Vec3) -> real): int
    reads c
    requires |table| == LodLevels
  {
    if lodOn then LodFor(table, distance(cameraPos, c.center)) else 0
  }

  /** How many of the chunks are drawn. */
  ghost function VisibleCount(cs: seq<TerrainChunk>, f: Frustum, culling: bool): nat
    reads cs, f, f.planes
    requires f.Valid()
  {
    if cs == [] then 0
    else VisibleCount(cs[..|cs| - 1], f, culling) + (if Shown(cs[|cs| - 1], f, culling) then 1 else 0)
  }

  /** The triangles of the drawn chunks, each at its chosen level. */
  ghost function ShownTriangles(cs: seq<TerrainChunk>, f: Frustum, culling: bool, lodOn: bool, table: seq<real>,
                                cameraPos: Vec3, distance: (Vec3, Vec3) -> real): int
    reads cs, f, f.planes
    requires f.Valid() && |table| == LodLevels && forall i :: 0 <= i < |cs| ==> cs[i].Valid()
  {
    if cs == [] then 0
    else
      var c := cs[|cs| - 1];
      ShownTriangles(cs[..|cs| - 1], f, culling, lodOn, table, cameraPos, distance)
        + (if Shown(c, f, culling) then c.GetTriangleCount(ChosenLod(c, lodOn, table, cameraPos, distance)) else 0)
  }

  /** At most every chunk is drawn, and with culling off every chunk is. */
  lemma {:induction false} VisibleCountBound(cs: seq<TerrainChunk>, f: Frustum, culling: bool)
    requires f.Valid()
    ensures VisibleCount(cs, f, culling) <= |cs|
    ensures !culling ==> VisibleCount(cs, f, culling) == |cs|
  {
    if cs != [] {
      VisibleCountBound(cs[..|cs| - 1], f, culling);
    }
  }

  /** With culling and LOD both off a frame draws every chunk at level 0. */
  lemma {:induction false} UnculledLevelZero(cs: seq<TerrainChunk>, f: Frustum, table: seq<real>, cameraPos: Vec3,
                                             distance: (Vec3, Vec3) -> real)
    requires f.Valid() && |table| == LodLevels && forall i :: 0 <= i < |cs| ==> cs[i].Valid()
    ensures ShownTriangles(cs, f, false, false, table, cameraPos, distance) == TriangleSum(cs, 0)
  {
    if cs != [] {
      UnculledLevelZero(cs[..|cs| - 1], f, table, cameraPos, distance);
    }
  }

  // ---------------------------------------------------------------------------
  // Height lookup
  // ---------------------------------------------------------------------------

  /** The pixel coordinate a world coordinate maps to: [-size/2, size/2] onto [0, samples - 1]. */
  function PixelOf(world: real, size: real, samples: int): real
    requires size != 0.0
  {
    (world + size * 0.5) / size * (samples - 1) as real
  }

  /** The terrain's two edges map to the first and the last pixel. */
  lemma PixelOfEnds(size: real, samples: int)
    requires size != 0.0
    ensures PixelOf(-size * 0.5, size, samples) == 0.0
    ensures PixelOf(size * 0.5, size, samples) == (samples - 1) as real
  {
    assert -size * 0.5 + size * 0.5 == 0.0;
    assert size * 0.5 + size * 0.5 == size;
  }

  /** A world coordinate on the terrain maps to a pixel inside the grid. */
  lemma PixelOfWithin(world: real, size: real, samples: int)
    requires 0.0 < size && 1 <= samples && -size * 0.5 <= world <= size * 0.5
    ensures 0.0 <= PixelOf(world, size, samples) <= (samples - 1) as real
  {
    var u := (world + size * 0.5) / size;
    assert u * size == world + size * 0.5;
    assert (1.0 - u) * size >= 0.0;
    ScaleWithin(u, 1.0, (samples - 1) as real);
  }

  /**
   * The chunks `generate` leaves for a loaded grid: one per tile of the
   * partition, in row-major order, with `perRow` columns and three vertices
   * per level-0 triangle.
   */
  ghost predicate ChunkLayout(g: HeightGrid, chunkSize: int, perRow: int, cs: seq<TerrainChunk>, total: int,
                              terrainSize: real, maxHeight: real, normalize: Vec3 -> Vec3)
    reads cs
  {
    && g.width >= 1 && g.height >= 1 && chunkSize != 0
    && perRow == ChunksAlong(g.width - 1, chunkSize)
    && TilesGenerated(cs, g, Partition(g.width, g.height, chunkSize), terrainSize, maxHeight, normalize)
    && (forall i :: 0 <= i < |cs| ==> cs[i].Valid())
    && total == 3 * TriangleSum(cs, 0)
  }

  // ---------------------------------------------------------------------------
  // The manager
  // ---------------------------------------------------------------------------

  /** How `generate` ends: it returns true, it returns false, or `reserve` throws `std::length_error`. */
  datatype GenerateOutcome = Generated | LoadFailed | LengthError

  class ChunkedTerrain {
    const heightmap: HeightmapLoader
    const frustum: Frustum
    var chunks: seq<TerrainChunk>
    var size: real
    var maxHeight: real
    var chunkSize: int
    var chunksPerRow: int
    var generated: bool
    var visibleChunks: int
    var renderedTriangles: int
    var totalVertices: int
    var lodDistances: seq<real>
    var enableFrustumCulling: bool
    var enableLOD: bool

    /** The loader and the frustum are sound, there are four thresholds and every chunk is sound. */
    ghost predicate Valid()
      reads this, heightmap, frustum, chunks
    {
      && heightmap.Valid() && frustum.Valid() && |lodDistances| == LodLevels
      && (generated ==> heightmap.loaded)
      && (forall i :: 0 <= i < |chunks| ==> chunks[i].Valid())
    }

    /**
     * The state a successful `generate` leaves: one chunk per tile of the
     * partition of the loaded grid, in row-major order, the column count,
     * and three vertices per level-0 triangle.
     */
    ghost predicate Partitioned(normalize: Vec3 -> Vec3)
      reads this, heightmap, chunks
    {
      ChunkLayout(heightmap.Grid(), chunkSize, chunksPerRow, chunks, totalVertices, size, maxHeight, normalize)
    }

    /**
     * The frame counters hold the number of chunks drawn in the last frame
     * and the triangles of the levels they were drawn at.
     */
    ghost predicate Tallied(cameraPos: Vec3, distance: (Vec3, Vec3) -> real)
      reads this, heightmap, frustum, frustum.planes, chunks
      requires Valid()
    {
      && visibleChunks == VisibleCount(chunks, frustum, enableFrustumCulling)
      && renderedTriangles ==
         ShownTriangles(chunks, frustum, enableFrustumCulling, enableLOD, lodDistances, cameraPos, distance)
    }

    constructor ()
      ensures Valid() && fresh(heightmap) && fresh(frustum) && fresh(frustum.planes)
      ensures !heightmap.loaded && chunks == [] && !generated
      ensures size == DefaultSize && maxHeight == DefaultMaxHeight && chunkSize == DefaultChunkSize
      ensures chunksPerRow == 0 && visibleChunks == 0 && renderedTriangles == 0 && totalVertices == 0
      ensures lodDistances == DefaultLodDistances && enableFrustumCulling && enableLOD
    {
      heightmap := new HeightmapLoader();
      frustum := new Frustum();
      chunks := [];
      size, maxHeight, chunkSize := DefaultSize, DefaultMaxHeight, DefaultChunkSize;
      chunksPerRow := 0;
      generated := false;
      visibleChunks, renderedTriangles, totalVertices := 0, 0, 0;
      lodDistances := DefaultLodDistances;
      enableFrustumCulling, enableLOD := true, true;
    }

    /**
     * Loads the heightmap (`decoded` is None when it cannot be read), counts
     * the tiles per row and column, reserves room for them, and makes one
     * chunk per tile of the partition, row after row; then totals the level-0
     * vertices.
     */
    method Generate(decoded: Option<Image>, size: real, maxHeight: real, normalize: Vec3 -> Vec3,
                    chunkSize: int := DefaultChunkSize)
      returns (outcome: GenerateOutcome)
      requires Valid() && chunkSize != 0
      requires decoded.Some? ==> WellFormed(decoded.value)
      modifies this, heightmap
      ensures Valid()
      ensures this.size == size && this.maxHeight == maxHeight && this.chunkSize == chunkSize
      ensures outcome == LoadFailed <==> decoded.None?
      ensures outcome == LengthError <==>
                decoded.Some? && ReserveThrows(decoded.value.width, decoded.value.height, chunkSize)
      ensures generated == (outcome == Generated) && heightmap.loaded == decoded.Some?
      ensures outcome != Generated ==> chunks == [] && totalVertices == old(totalVertices)
      ensures outcome == LoadFailed ==> chunksPerRow == old(chunksPerRow)
      ensures decoded.Some? ==> heightmap.width == decoded.value.width && heightmap.height == decoded.value.height
      ensures outcome == LengthError ==> chunksPerRow == ChunksAlong(heightmap.width - 1, chunkSize)
      ensures outcome == Generated ==> Partitioned(normalize)
      ensures visibleChunks == old(visibleChunks) && renderedTriangles == old(renderedTriangles)
      ensures lodDistances == old(lodDistances)
      ensures enableFrustumCulling == old(enableFrustumCulling) && enableLOD == old(enableLOD)
    {
      this.size, this.maxHeight, this.chunkSize := size, maxHeight, chunkSize;
      generated := false;
      chunks := [];
      var loaded := heightmap.Load(decoded);
      if !loaded {
        return LoadFailed;
      }
      var perRow := ChunksAlong(heightmap.width - 1, chunkSize);
      var perCol := ChunksAlong(heightmap.height - 1, chunkSize);
      if perRow * perCol < 0 {
        chunksPerRow := perRow;
        return LengthError;
      }
      Build(normalize);
      return Generated;
    }

    /** What `generate` does once the heightmap is loaded. */
    method Build(normalize: Vec3 -> Vec3)
      requires Valid() && heightmap.loaded && chunkSize != 0
      modifies this
      ensures size == old(size) && maxHeight == old(maxHeight) && chunkSize == old(chunkSize)
      ensures Valid() && generated && Partitioned(normalize)
      ensures visibleChunks == old(visibleChunks) && renderedTriangles == old(renderedTriangles)
      ensures lodDistances == old(lodDistances)
      ensures enableFrustumCulling == old(enableFrustumCulling) && enableLOD == old(enableLOD)
    {
      var perRow, built, total := LayOut(normalize);
      chunksPerRow, chunks, totalVertices, generated := perRow, built, total, true;
    }

    /**
     * What `generate` computes once the heightmap is loaded: the column
     * count, the chunks row by row, and the level-0 vertex total.
     */
    method LayOut(normalize: Vec3 -> Vec3) returns (perRow: int, built: seq<TerrainChunk>, total: int)
      requires heightmap.Valid() && heightmap.loaded && chunkSize != 0
      ensures ChunkLayout(heightmap.Grid(), chunkSize, perRow, built, total, size, maxHeight, normalize)
    {
      var width, height := heightmap.width, heightmap.height;
      perRow := ChunksAlong(width - 1, chunkSize);
      var perCol := ChunksAlong(height - 1, chunkSize);
      built := GenerateRows(perCol, perRow, normalize);
      GeneratedChunksValid(built, heightmap.Grid(), Partition(width, height, chunkSize), size, maxHeight, normalize);
      total := SumLevelZero(built);
    }

    /** The outer loop of `generate`: the tile rows below `rows`, row after row. */
    method GenerateRows(rows: int, cols: int, normalize: Vec3 -> Vec3) returns (built: seq<TerrainChunk>)
      requires heightmap.Valid() && heightmap.loaded && chunkSize != 0
      ensures TilesGenerated(built, heightmap.Grid(),
                             TileRows(heightmap.width, heightmap.height, chunkSize, rows, cols),
                             size, maxHeight, normalize)
    {
      var width, height := heightmap.width, heightmap.height;
      var g := heightmap.Grid();
      built := [];
      var cz := 0;
      while cz < rows
        invariant 0 <= cz <= MaxInt(rows, 0)
        invariant TilesGenerated(built, g, TileRows(width, height, chunkSize, cz, cols), size, maxHeight, normalize)
      {
        var row := GenerateRow(cz, cols, normalize);
        ConcatGenerated(built, row, g, TileRows(width, height, chunkSize, cz, cols),
                        TileRow(width, height, chunkSize, cz, cols), size, maxHeight, normalize);
        built := built + row;
        cz := cz + 1;
      }
    }

    /**
     * The inner loop of `generate`: one chunk for each tile of tile row cz,
     * in column order.
     */
    method GenerateRow(cz: int, cols: int, normalize: Vec3 -> Vec3) returns (row: seq<TerrainChunk>)
      requires heightmap.Valid() && heightmap.loaded && chunkSize != 0 && 0 <= cz
      ensures TilesGenerated(row, heightmap.Grid(), TileRow(heightmap.width, heightmap.height, chunkSize, cz, cols),
                             size, maxHeight, normalize)
    {
      var width, height := heightmap.width, heightmap.height;
      var g := heightmap.Grid();
      row := [];
      var cx := 0;
      while cx < cols
        invariant 0 <= cx <= MaxInt(cols, 0)
        invariant TilesGenerated(row, g, TileRow(width, height, chunkSize, cz, cx), size, maxHeight, normalize)
      {
        var startX := cx * chunkSize;
        var startZ := cz * chunkSize;
        var actualX := MinInt(chunkSize, width - 1 - startX);
        var actualZ := MinInt(chunkSize, height - 1 - startZ);
        var actual := MinInt(actualX, actualZ);
        assert actual == Extent(width, height, chunkSize, cx, cz);
        if actual > 0 {
          var chunk := NewChunk(startX, startZ, actual, normalize);
          ConcatGenerated(row, [chunk], g, TileRow(width, height, chunkSize, cz, cx), [Tile(startX, startZ, actual)],
                          size, maxHeight, normalize);
          row := row + [chunk];
        }
        cx := cx + 1;
      }
    }

    /** One step of the inner loop: a chunk generated for the tile, then moved into a fresh one. */
    method NewChunk(startX: int, startZ: int, extent: int, normalize: Vec3 -> Vec3) returns (moved: TerrainChunk)
      requires heightmap.Valid() && 0 <= startX && 0 <= startZ && 1 <= extent
      requires startX + extent <= heightmap.width - 1 && startZ + extent <= heightmap.height - 1
      ensures fresh(moved)
      ensures TileGenerated(moved, heightmap.Grid(), Tile(startX, startZ, extent), size, maxHeight, normalize)
    {
      var chunk := new TerrainChunk();
      chunk.Generate(heightmap, startX, startZ, extent, size, size, maxHeight, normalize);
      moved := new TerrainChunk.MoveFrom(chunk);
    }

    /** The vertex total of `generate`: three per level-0 triangle of every chunk. */
    static method SumLevelZero(cs: seq<TerrainChunk>) returns (total: int)
      requires forall i :: 0 <= i < |cs| ==> cs[i].Valid()
      ensures total == 3 * TriangleSum(cs, 0)
    {
      total := 0;
      for i := 0 to |cs|
        invariant total == 3 * TriangleSum(cs[..i], 0)
      {
        assert cs[..i + 1][..i] == cs[..i];
        total := total + cs[i].GetTriangleCount(0) * 3;
      }
      assert cs[..|cs|] == cs;
    }

    /** `getCulledChunks`: the chunks not drawn in the last frame. */
    function CulledChunks(): (culled: int)
      reads this
      ensures culled + visibleChunks == |chunks|
    {
      |chunks| - visibleChunks
    }

    /** `calculateLOD`: the first level whose threshold the distance is below, else level 3. */
    method CalculateLod(distance: real) returns (lod: int)
      requires |lodDistances| == LodLevels
      ensures lod == LodFor(lodDistances, distance)
    {
      for i := 0 to LodLevels
        invariant LodFor(lodDistances, distance) == LodFrom(lodDistances, distance, i)
      {
        if distance < lodDistances[i] {
          return i;
        }
      }
      return LodLevels - 1;
    }

    /**
     * One frame: refreshes the frustum when culling, then counts the chunks
     * drawn and their triangles at the chosen levels. `length` and `distance`
     * stand for the vector length and the point distance of the maths library.
     */
    method Render(cameraPos: Vec3, viewProjection: Mat4, length: Vec3 -> real, distance: (Vec3, Vec3) -> real)
      requires Valid()
      modifies this, frustum.planes
      ensures Valid()
      ensures chunks == old(chunks) && generated == old(generated) && totalVertices == old(totalVertices)
      ensures size == old(size) && maxHeight == old(maxHeight) && chunkSize == old(chunkSize)
      ensures chunksPerRow == old(chunksPerRow) && lodDistances == old(lodDistances)
      ensures enableFrustumCulling == old(enableFrustumCulling) && enableLOD == old(enableLOD)
      ensures !generated ==> unchanged(this) && unchanged(frustum.planes)
      ensures !(generated && enableFrustumCulling) ==> unchanged(frustum.planes)
      ensures generated && enableFrustumCulling ==>
                forall i :: 0 <= i < PlaneCount ==>
                  frustum.planes[i] == NormalizePlane(ExtractedPlane(viewProjection, i),
                                                      length(NormalOf(ExtractedPlane(viewProjection, i))))
      ensures generated ==> Tallied(cameraPos, distance)
    {
      if !generated {
        return;
      }
      if enableFrustumCulling {
        frustum.Update(viewProjection, length);
      }
      var visible, triangles := CountFrame(cameraPos, distance);
      visibleChunks, renderedTriangles := visible, triangles;
    }

    /** The chunk loop of `render`: which chunks are drawn, and at which level. */
    method CountFrame(cameraPos: Vec3, distance: (Vec3, Vec3) -> real) returns (visible: int, triangles: int)
      requires Valid()
      ensures visible == VisibleCount(chunks, frustum, enableFrustumCulling)
      ensures triangles ==
              ShownTriangles(chunks, frustum, enableFrustumCulling, enableLOD, lodDistances, cameraPos, distance)
    {
      var cs, f, culling, lodOn, table := chunks, frustum, enableFrustumCulling, enableLOD, lodDistances;
      visible, triangles := 0, 0;
      for i := 0 to |cs|
        invariant CountedPrefix(cs, i, f, culling, lodOn, table, cameraPos, distance, visible, triangles)
      {
        var shown, count := DrawChunk(cs[i], cameraPos, distance);
        CountStep(cs, i, f, culling, lodOn, table, cameraPos, distance, shown, count, visible, triangles);
        if shown {
          visible := visible + 1;
          triangles := triangles + count;
        }
      }
      assert cs[..|cs|] == cs;
    }

    /**
     * One pass of the chunk loop of `render`: a chunk outside the frustum is
     * skipped; a drawn one is counted at the level its distance selects.
     */
    method DrawChunk(chunk: TerrainChunk, cameraPos: Vec3, distance: (Vec3, Vec3) -> real)
      returns (shown: bool, count: int)
      requires frustum.Valid() && chunk.Valid() && |lodDistances| == LodLevels
      ensures shown == Shown(chunk, frustum, enableFrustumCulling)
      ensures shown ==> count == chunk.GetTriangleCount(ChosenLod(chunk, enableLOD, lodDistances, cameraPos, distance))
    {
      if enableFrustumCulling {
        var visible := frustum.IsBoxVisible(chunk.min, chunk.max);
        if !visible {
          return false, 0;
        }
      }
      var lod := 0;
      if enableLOD {
        lod := CalculateLod(distance(cameraPos, chunk.center));
      }
      return true, chunk.GetTriangleCount(lod);
    }

    /**
     * `getHeightAt`: 0 before generation, otherwise the interpolated sample
     * under the world position scaled by the maximum height.
     */
    function GetHeightAt(worldX: real, worldZ: real): (h: real)
      reads this, heightmap
      requires heightmap.Valid()
      requires generated ==> size != 0.0
      ensures !generated ==> h == 0.0
    {
      if !generated then 0.0
      else
        heightmap.GetHeightInterpolated(PixelOf(worldX, size, heightmap.width), PixelOf(worldZ, size, heightmap.height))
          * maxHeight
    }
  }

  /** Generated chunk lists join like their tile lists. */
  lemma ConcatGenerated(cs: seq<TerrainChunk>, ds: seq<TerrainChunk>, g: HeightGrid, ts: seq<Tile>, us: seq<Tile>,
                        terrainSize: real, maxHeight: real, normalize: Vec3 -> Vec3)
    requires TilesGenerated(cs, g, ts, terrainSize, maxHeight, normalize)
    requires TilesGenerated(ds, g, us, terrainSize, maxHeight, normalize)
    ensures TilesGenerated(cs + ds, g, ts + us, terrainSize, maxHeight, normalize)
  {
    var cs', ts' := cs + ds, ts + us;
    forall i | 0 <= i < |cs'|
      ensures TileGenerated(cs'[i], g, ts'[i], terrainSize, maxHeight, normalize)
    {
      if i < |cs| {
        assert cs'[i] == cs[i] && ts'[i] == ts[i];
      } else {
        assert cs'[i] == ds[i - |cs|] && ts'[i] == us[i - |cs|];
      }
    }
  }

  /** The first n chunks of a frame are counted. */
  ghost predicate CountedPrefix(cs: seq<TerrainChunk>, n: int, f: Frustum, culling: bool, lodOn: bool,
                                table: seq<real>, cameraPos: Vec3, distance: (Vec3, Vec3) -> real,
                                visible: int, triangles: int)
    reads cs, f, f.planes
    requires 0 <= n <= |cs| && f.Valid() && |table| == LodLevels && forall j :: 0 <= j < |cs| ==> cs[j].Valid()
  {
    && visible == VisibleCount(cs[..n], f, culling)
    && triangles == ShownTriangles(cs[..n], f, culling, lodOn, table, cameraPos, distance)
  }

  /** Extending the counted prefix by one chunk adds that chunk's share to both counts. */
  lemma CountStep(cs: seq<TerrainChunk>, i: int, f: Frustum, culling: bool, lodOn: bool, table: seq<real>,
                  cameraPos: Vec3, distance: (Vec3, Vec3) -> real, shown: bool, count: int,
                  visible: int, triangles: int)
    requires 0 <= i < |cs| && f.Valid() && |table| == LodLevels && forall j :: 0 <= j < |cs| ==> cs[j].Valid()
    requires CountedPrefix(cs, i, f, culling, lodOn, table, cameraPos, distance, visible, triangles)
    requires shown == Shown(cs[i], f, culling)
    requires shown ==> count == cs[i].GetTriangleCount(ChosenLod(cs[i], lodOn, table, cameraPos, distance))
    ensures CountedPrefix(cs, i + 1, f, culling, lodOn, table, cameraPos, distance,
                          visible + (if shown then 1 else 0), triangles + (if shown then count else 0))
  {
    assert cs[..i + 1][..i] == cs[..i];
  }

  /** The world coordinate of pixel `i` on an axis of `samples` pixels spread over [-size/2, size/2]. */
  function WorldOfPixel(i: int, size: real, samples: int): real
    requires 2 <= samples
  {
    -size * 0.5 + i as real * size / (samples - 1) as real
  }

  /** The first and the last pixel sit on the terrain's two edges. */
  lemma WorldOfPixelEnds(size: real, samples: int)
    requires 2 <= samples
    ensures WorldOfPixel(0, size, samples) == -size * 0.5
    ensures WorldOfPixel(samples - 1, size, samples) == size * 0.5
  {
    var n := (samples - 1) as real;
    assert n * size / n == size;
  }

  /** A pixel's world coordinate maps back to that pixel. */
  lemma PixelOfLattice(i: int, size: real, samples: int)
    requires size != 0.0 && 2 <= samples
    ensures PixelOf(WorldOfPixel(i, size, samples), size, samples) == i as real
  {
    var n := (samples - 1) as real;
    var w := WorldOfPixel(i, size, samples);
    assert w + size * 0.5 == i as real * size / n;
    assert (w + size * 0.5) / size == i as real / n;
    assert i as real / n * n == i as real;
  }

  /** Unfolds one lookup at known pixel coordinates, so callers never unfold the interpolation. */
  /** `InterpolatedAtLattice`, stated on the terrain's own heightmap. */
  lemma TerrainInterpolatedAtLattice(t: ChunkedTerrain, x: int, z: int)
    requires t.heightmap.Valid()
    ensures t.heightmap.GetHeightInterpolated(x as real, z as real) == t.heightmap.GetHeight(x, z)
  {
    InterpolatedAtLattice(t.heightmap, x, z);
  }

  /** A lookup whose world position maps onto an integer pixel returns that pixel's sample, scaled. */
  lemma LookupAtLattice(t: ChunkedTerrain, worldX: real, worldZ: real, x: int, z: int)
    requires t.heightmap.Valid() && t.generated && t.size != 0.0
    requires PixelOf(worldX, t.size, t.heightmap.width) == x as real
    requires PixelOf(worldZ, t.size, t.heightmap.height) == z as real
    ensures t.GetHeightAt(worldX, worldZ) == t.heightmap.GetHeight(x, z) * t.maxHeight
  {
    TerrainInterpolatedAtLattice(t, x, z);
  }

  /** `PixelOfEnds` for the first corner, on both axes of the terrain's own heightmap. */
  lemma FirstCornerPixels(t: ChunkedTerrain)
    requires t.heightmap.Valid() && t.size != 0.0
    ensures PixelOf(-t.size * 0.5, t.size, t.heightmap.width) == 0.0
    ensures PixelOf(-t.size * 0.5, t.size, t.heightmap.height) == 0.0
  {
    PixelOfEnds(t.size, t.heightmap.width);
    PixelOfEnds(t.size, t.heightmap.height);
  }

  /**
   * The terrain's first corner is looked up at pixel (0, 0), where the
   * interpolation is the first sample itself.
   */
  lemma HeightAtFirstCorner(t: ChunkedTerrain)
    requires t.heightmap.Valid() && t.generated && t.size != 0.0
    ensures t.GetHeightAt(-t.size * 0.5, -t.size * 0.5) == t.heightmap.GetHeight(0, 0) * t.maxHeight
  {
    TerrainInterpolatedAtLattice(t, 0, 0);
    FirstCornerPixels(t);
  }

  /**
   * Every sample of a loaded grid of at least 2x2 pixels is the height, scaled
   * by the maximum height, at its own world position on the terrain.
   */
  lemma HeightAtLattice(t: ChunkedTerrain, x: int, z: int)
    requires t.heightmap.Valid() && t.generated && t.size != 0.0
    requires 2 <= t.heightmap.width && 2 <= t.heightmap.height
    ensures t.GetHeightAt(WorldOfPixel(x, t.size, t.heightmap.width), WorldOfPixel(z, t.size, t.heightmap.height))
         == t.heightmap.GetHeight(x, z) * t.maxHeight
  {
    PixelOfLattice(x, t.size, t.heightmap.width);
    PixelOfLattice(z, t.size, t.heightmap.height);
    LookupAtLattice(t, WorldOfPixel(x, t.size, t.heightmap.width), WorldOfPixel(z, t.size, t.heightmap.height), x, z);
  }

  /** A product with a fraction in [0, 1] lies between 0 and the other factor. */
  lemma FractionWithin(h: real, u: real, amount: real)
    requires 0.0 <= amount && h == u * amount && 0.0 <= u <= 1.0
    ensures 0.0 <= h <= amount
  {
    ScaleWithin(u, 1.0, amount);
  }

  /**
   * Unfolding step for `HeightAtRange`, no claim of its own: one lookup at
   * known pixel coordinates, so the range proof never unfolds the
   * interpolation next to its products.
   */
  lemma LookupAtPixels(t: ChunkedTerrain, worldX: real, worldZ: real, px: real, pz: real)
    requires t.heightmap.Valid() && t.generated && t.size != 0.0
    requires PixelOf(worldX, t.size, t.heightmap.width) == px
    requires PixelOf(worldZ, t.size, t.heightmap.height) == pz
    ensures t.GetHeightAt(worldX, worldZ) == t.heightmap.GetHeightInterpolated(px, pz) * t.maxHeight
  {
  }

  /** The height lies between 0 and the maximum height, whatever the position. */
  lemma HeightAtRange(t: ChunkedTerrain, worldX: real, worldZ: real)
    requires t.heightmap.Valid() && (t.generated ==> t.size != 0.0) && 0.0 <= t.maxHeight
    ensures 0.0 <= t.GetHeightAt(worldX, worldZ) <= t.maxHeight
  {
    if t.generated {
      var px, pz := PixelOf(worldX, t.size, t.heightmap.width), PixelOf(worldZ, t.size, t.heightmap.height);
      LookupAtPixels(t, worldX, worldZ, px, pz);
      InterpolatedInUnitRange(t.heightmap, px, pz);
      FractionWithin(t.GetHeightAt(worldX, worldZ), t.heightmap.GetHeightInterpolated(px, pz), t.maxHeight);
    }
  }

  /** After a frame on a generated terrain the culled count lies in [0, chunks], and is 0 with culling off. */
  lemma CulledAfterRender(t: ChunkedTerrain)
    requires t.Valid() && t.visibleChunks == VisibleCount(t.chunks, t.frustum, t.enableFrustumCulling)
    ensures 0 <= t.CulledChunks() <= |t.chunks|
    ensures !t.enableFrustumCulling ==> t.CulledChunks() == 0
  {
    VisibleCountBound(t.chunks, t.frustum, t.enableFrustumCulling);
  }
}
