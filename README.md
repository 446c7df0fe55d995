# RoamingSystem terrain core, modelled in Dafny

RoamingSystem is an OpenGL application for walking over a terrain built from a
greyscale heightmap. This project models its core in Dafny and proves
properties of that model:

- **Heightmap** (`heightmap.dfy`, class `Heightmap.HeightmapLoader`) turns a
  decoded 8-bit image into heights in [0, 1]. It reads them back with
  edge clamping and with bilinear interpolation.
- **TerrainChunks** (`terrain_chunk.dfy`, class `TerrainChunks.TerrainChunk`)
  covers one square tile of the grid. It places the tile in world space and
  scans its heights into an axis-aligned box. For each of four levels of
  detail it builds a vertex stream (position, normal, texture coordinate and
  tangent: 11 floats per vertex) and an index stream of two triangles per
  cell, and uploads that level when it has at least two samples along each
  axis.
- **ChunkedTerrains** (`chunked_terrain.dfy`, class
  `ChunkedTerrains.ChunkedTerrain`) cuts the grid into tiles in row-major
  order, with smaller tiles at the far edges, and generates one chunk per
  tile. Each frame it updates the frustum, culls chunks whose box lies
  outside it, picks a level of detail from the camera distance and counts
  the visible chunks and the triangles drawn. It also samples the terrain
  height at a world position.
- **Frustums** (`frustum.dfy`, class `Frustums.Frustum`) extracts six planes
  from a view-projection matrix and normalises them. A box is rejected when
  its positive vertex lies behind some plane.
- **Meshes** (`mesh.dfy`) holds vertex layouts (attribute offsets and stride)
  and the GPU mesh handle: setting buffers, moving, releasing, and choosing
  the draw call.
- **Settings** and **SettingsKeys** (`scene_settings.dfy`,
  `settings_keys.dfy`) model the scene-settings file: `key=value` lines
  under `[Section]` headers, written by `save` and parsed by `load`.
- **Environment** (`lighting.dfy`, class `Environment.Lighting`) keeps the
  time of day in [0, 24). It maps the sun's height to the sun, ambient and
  sky colours and to the sun intensity.
- `glm.dfy` holds the small part of GLM the core uses: vectors, `mix`,
  clamping and a matrix-vector product. `wrappers.dfy` holds `Option`.

Modelling choices:

- Floating point is modelled as `real`, so every computation is exact.
- Square roots are never taken: `glm::normalize`, `glm::length` and
  `glm::distance` are passed in as function parameters.
- GPU calls are modelled by the values they would receive. Buffer and
  array names are parameters, and a draw is a `DrawCall` value.
- The decoded image is an `Option<Image>`; `None` stands for a failed
  decode.
- The settings file is a `string`, or `None` when it cannot be opened.
- Float-valued settings are kept as the text the file holds.
- Booleans and the SSAO kernel size go through a model of `std::stoi`:
  leading white space, an optional sign, digits, and the 32-bit range.
- The settings record is a map from the 36 keys to typed values, not a
  struct. A 36-field datatype made every update proof quadratic in the
  field count, and a map keeps each key's read and write separate.

## Model

| member | source | states |
|---|---|---|
| Glm.ClampInt | src/Terrain/HeightmapLoader.cpp:55-56 | `std::max(lo, std::min(v, hi))` lies in [lo, hi], is v when v is already inside, and is the nearer end otherwise |
| Glm.ClampReal | src/Terrain/HeightmapLoader.cpp:69-70 | the same three cases for the real-valued clamp of the interpolated lookup |
| Glm.MixBetween | src/Terrain/HeightmapLoader.cpp:87-90 | `glm::mix(a, b, t)` with t in [0, 1] lies between a and b |
| Glm.MixAtZero | src/Terrain/HeightmapLoader.cpp:87-90 | `glm::mix(a, b, 0)` is exactly a |
| Heightmap.Normalized | src/Terrain/HeightmapLoader.cpp:35-39 | a byte divided by 255 lies in [0, 1], and multiplying back by 255 gives the byte |
| Heightmap.RowMajorInRange | src/Terrain/HeightmapLoader.cpp:58 | the row-major index `z * width + x` of an in-grid point lies inside the height array |
| Heightmap.HeightmapLoader.constructor | src/Terrain/HeightmapLoader.cpp:6-11 | a new loader is empty: no data, zero size, not loaded |
| Heightmap.HeightmapLoader.Load | src/Terrain/HeightmapLoader.cpp:17-45 | loading succeeds exactly when the image decodes. On success every height is the normalised pixel at the same index and the size is the image's. On failure the data is cleared; the size stays what it was, because the decoder is modelled as all-or-nothing |
| Heightmap.HeightmapLoader.SampleIndex | src/Terrain/HeightmapLoader.cpp:58 | the index of an in-grid point is a valid index of the height data |
| Heightmap.HeightmapLoader.GetHeight | src/Terrain/HeightmapLoader.cpp:47-59 | before loading the height is 0. After loading it is the stored sample for in-grid points. It is always in [0, 1] |
| Heightmap.HeightmapLoader.Neighbours | src/Terrain/HeightmapLoader.cpp:73-76 | the four lattice neighbours of a clamped point lie in the grid. Each far neighbour is the near one or the next, so it is clamped at the last row or column |
| Heightmap.HeightmapLoader.GetHeightInterpolated | src/Terrain/HeightmapLoader.cpp:61-67 | before loading the interpolated height is 0 |
| Heightmap.GetHeightClamps | src/Terrain/HeightmapLoader.cpp:55-58 | an outside point reads the height of its clamped point, and that height is the stored sample at the clamped index |
| Heightmap.GetHeightReadsGrid | src/Terrain/HeightmapLoader.cpp:47-59 | the loader's lookup agrees with the grid value that chunk generation reads |
| Heightmap.SampleAt | src/Terrain/HeightmapLoader.cpp:47-59 | definition of a height-grid lookup with both coordinates clamped into the grid, reading sample `z * width + x`, and 0 for a grid that holds no samples; specified by `GetHeightReadsGrid` and `RawNormalPointsUp` |
| Heightmap.WeightsInUnitRange | src/Terrain/HeightmapLoader.cpp:78-79 | the interpolation fractions lie in [0, 1) |
| Heightmap.InterpolatedBetweenNeighbours | src/Terrain/HeightmapLoader.cpp:82-90 | the interpolated height lies between the least and the greatest of its four neighbours |
| Heightmap.InterpolatedInUnitRange | src/Terrain/HeightmapLoader.cpp:61-91 | interpolated heights lie in [0, 1], loaded or not |
| Heightmap.InterpolatedAtLattice | src/Terrain/HeightmapLoader.cpp:61-91 | at an integer point, interpolation returns that point's clamped height |
| Heightmap.InterpolatedClamps | src/Terrain/HeightmapLoader.cpp:69-70 | interpolation at an outside point equals interpolation at its clamped point |
| TerrainChunks.Step | src/Terrain/TerrainChunk.cpp:105 | the sampling stride `1 << lod` is at least 1 |
| TerrainChunks.LevelSteps | src/Terrain/TerrainChunk.cpp:105 | the four levels sample every 1st, 2nd, 4th and 8th grid point |
| TerrainChunks.Samples | src/Terrain/TerrainChunk.cpp:114-117 | definition of the coordinates a vertex loop visits, `start, start + step, ...` while within the tile and the grid; specified by `SampleCountBound`, `SamplesCharacterised` and `ScanStep` |
| TerrainChunks.SampleCountBound | src/Terrain/TerrainChunk.cpp:114-116 | the i-th sample of a stepped scan is within the limit exactly when i is below the sample count |
| TerrainChunks.ScanStep | src/Terrain/TerrainChunk.cpp:114-117 | one turn of a vertex loop: its guard holds exactly while samples remain, and the loop's coordinate is the next sample |
| TerrainChunks.SamplesCharacterised | src/Terrain/TerrainChunk.cpp:114-116 | a coordinate is sampled exactly when it lies between the start and the clamped limit and is a whole number of strides past the start |
| TerrainChunks.FittingExtentCount | src/Terrain/TerrainChunk.cpp:114-116 | a tile that fits the grid has `size / step + 1` samples along an axis |
| TerrainChunks.PlacementOf | src/Terrain/TerrainChunk.cpp:68-72 | the placement keeps the tile's start, extent and height scale. Its cell size times the number of cells across the grid is the terrain size |
| TerrainChunks.PlacementSpansTerrain | src/Terrain/TerrainChunk.cpp:68-72 | the first column starts at `-terrainSize / 2`, and the last tile ends at `+terrainSize / 2` |
| TerrainChunks.NeighbouringTilesMeet | src/Terrain/TerrainChunk.cpp:71-72 | the tile to the right, or below, starts exactly where this tile ends |
| TerrainChunks.ScanRow | src/Terrain/TerrainChunk.cpp:77-83 | one row of the box scan bounds every height scanned so far and keeps a witness for each end |
| TerrainChunks.ScanHeightRange | src/Terrain/TerrainChunk.cpp:75-84 | the scanned [min, max] covers every scanned height. It starts from [maxHeight, 0], and each end is its start value or a height the scan attains |
| TerrainChunks.RawNormal | src/Terrain/TerrainChunk.cpp:176-187 | definition of the central-difference normal before normalising, with its neighbours clamped to the grid; specified by `RawNormalPointsUp` |
| TerrainChunks.CalculateNormal | src/Terrain/TerrainChunk.cpp:176-189 | definition: the raw normal passed through the `normalize` parameter that stands for `glm::normalize`; its direction is specified by `RawNormalPointsUp` |
| TerrainChunks.GramSchmidt | src/Terrain/TerrainChunk.cpp:198-204 | definition of one Gram-Schmidt step, `t - dot(t, n) * n`; specified by `GramSchmidtOrthogonal`, `GramSchmidtAlongX` and `GramSchmidtAcrossX` |
| TerrainChunks.TangentDirection | src/Terrain/TerrainChunk.cpp:191-205 | definition of the tangent before normalising: +X made orthogonal to the normal, or +Z when that is too short; specified by `TangentOrthogonalToNormal`, `TangentFallsBackAlongX` and `TangentKeepsXAcrossX` |
| TerrainChunks.CalculateTangent | src/Terrain/TerrainChunk.cpp:191-208 | definition: the tangent direction passed through the `normalize` parameter; its direction is specified by the lemmas on `TangentDirection` |
| TerrainChunks.RawNormalPointsUp | src/Terrain/TerrainChunk.cpp:176-189 | the central-difference normal points up for a positive cell size and is vertical over flat ground |
| TerrainChunks.GramSchmidtOrthogonal | src/Terrain/TerrainChunk.cpp:191-200 | one Gram-Schmidt step against a unit normal gives a vector orthogonal to it |
| TerrainChunks.TangentOrthogonalToNormal | src/Terrain/TerrainChunk.cpp:191-208 | the tangent direction is orthogonal to a unit normal, on both the +X path and the +Z fallback |
| TerrainChunks.GramSchmidtAlongX | src/Terrain/TerrainChunk.cpp:191-205 | against a normal along X, +X collapses to zero and +Z is kept |
| TerrainChunks.GramSchmidtAcrossX | src/Terrain/TerrainChunk.cpp:191-200 | against a normal with no X part, +X is unchanged |
| TerrainChunks.UnitStepIsTangent | src/Terrain/TerrainChunk.cpp:191-208 | when +X survives orthogonalisation unchanged, it is the tangent |
| TerrainChunks.TangentFallsBackAlongX | src/Terrain/TerrainChunk.cpp:201-205 | for a normal along X the tangent falls back to +Z |
| TerrainChunks.TangentKeepsXAcrossX | src/Terrain/TerrainChunk.cpp:191-208 | for a normal with no X part the tangent is +X |
| TerrainChunks.VertexPosition | src/Terrain/TerrainChunk.cpp:119-121 | definition of a vertex's world position, `offset + (coord - start) * cellSize` and the scaled height; specified by `PositionAlongAxes` and `PositionInsideBox` |
| TerrainChunks.TexCoord | src/Terrain/TerrainChunk.cpp:125-126 | definition of the texture coordinates `u = x / (hmWidth - 1)` and `v = z / (hmHeight - 1)`; specified by `TexCoordInUnitRange` |
| TerrainChunks.TexCoordInUnitRange | src/Terrain/TerrainChunk.cpp:125-126 | the texture coordinate of a grid coordinate lies in [0, 1]. It is 0 at the first sample and 1 at the last |
| TerrainChunks.VertexRecord | src/Terrain/TerrainChunk.cpp:130-140 | each vertex record is 11 floats |
| TerrainChunks.Record | src/Terrain/TerrainChunk.cpp:119-140 | definition of the record a vertex loop appends at grid point (x, z), as a function of the point; specified by `RecordWidth` |
| TerrainChunks.RowRecords | src/Terrain/TerrainChunk.cpp:117-141 | definition of the records one inner loop appends, column after column; specified by `RowRecordsLength`, `RowRecordAt`, `RowRecordsExtend` and `BuildRow` |
| TerrainChunks.GridRecords | src/Terrain/TerrainChunk.cpp:114-145 | definition of the records both vertex loops append, row after row; specified by `GridRecordsLength`, `GridRecordAt`, `GridRecordsExtend` and `GridRecordsStep` |
| TerrainChunks.RecordWidth | src/Terrain/TerrainChunk.cpp:130-140 | every record, at every grid point, is 11 floats |
| TerrainChunks.RowRecordsLength | src/Terrain/TerrainChunk.cpp:117-141 | a row of records is 11 floats per sampled column |
| TerrainChunks.GridRecordsLength | src/Terrain/TerrainChunk.cpp:114-145 | the grid of records is 11 floats per sampled point |
| TerrainChunks.RowRecordAt | src/Terrain/TerrainChunk.cpp:117-141 | the i-th 11-float slice of a row is the record of the i-th column |
| TerrainChunks.GridRecordAt | src/Terrain/TerrainChunk.cpp:114-145 | the slice at row-major position `j * vcX + i` is the record of column i in row j |
| TerrainChunks.VertexStream | src/Terrain/TerrainChunk.cpp:114-145 | definition of one level's vertex stream, one 11-float record per sampled point, row after row; specified by `BuildVertices`, `VertexStreamLength`, `LevelVertexAt` and `LevelVertexInsideBox` |
| TerrainChunks.VertexStreamLength | src/Terrain/TerrainChunk.cpp:114-145 | a level's vertex stream holds 11 floats for each of its `vcX * vcZ` vertices |
| TerrainChunks.SampleAtIndex | src/Terrain/TerrainChunk.cpp:114-116 | the i-th sample is `start + i * step`, and it lies in the scanned range |
| TerrainChunks.VertexCountsOfSamples | src/Terrain/TerrainChunk.cpp:114-145 | the vertex counts are the numbers of sampled rows and columns. A level with no rows counts no columns either |
| TerrainChunks.LevelVertexInScan | src/Terrain/TerrainChunk.cpp:114-121 | every vertex of every level is a grid point the box scan covers |
| TerrainChunks.LevelVertexAt | src/Terrain/TerrainChunk.cpp:114-145 | vertex k = j * vcX + i of a level is the record of sample column i and sample row j |
| TerrainChunks.PositionInsideBox | src/Terrain/TerrainChunk.cpp:86-88 | the world position of a scanned point lies inside the chunk's box |
| TerrainChunks.LevelVertexInsideBox | src/Terrain/TerrainChunk.cpp:119-121 | every vertex position written at every level lies inside the chunk's box |
| TerrainChunks.IndexStream | src/Terrain/TerrainChunk.cpp:148-165 | definition of one level's index stream, two triangles per cell, row after row; specified by `BuildIndices`, `IndexStreamTriangles`, `IndexCellAt` and `IndexStreamInRange` |
| TerrainChunks.CellIndices | src/Terrain/TerrainChunk.cpp:152-163 | definition of the six indices of one cell, the triangles (top-left, bottom-left, top-right) and (top-right, bottom-left, bottom-right); specified by `IndexRowCellAt` and `IndexCellAt` |
| TerrainChunks.IndexRow | src/Terrain/TerrainChunk.cpp:150-164 | definition of the indices the inner index loop appends for one row of cells; specified by `IndexRowLength`, `IndexRowCellAt` and `IndexRowInRange` |
| TerrainChunks.IndexGrid | src/Terrain/TerrainChunk.cpp:148-165 | definition of the indices both index loops append, row after row; specified by `IndexGridLength`, `EmptyRowsGrid`, `IndexGridRowAt` and `IndexGridInRange` |
| TerrainChunks.IndexRowLength | src/Terrain/TerrainChunk.cpp:150-164 | a row of cells gives 6 indices per cell |
| TerrainChunks.IndexGridLength | src/Terrain/TerrainChunk.cpp:148-165 | the cell grid gives 6 indices per cell |
| TerrainChunks.IndexStreamTriangles | src/Terrain/TerrainChunk.cpp:148-165 | the index stream holds two triangles per cell, `(vcX-1)*(vcZ-1)` cells, and it is non-empty exactly when both counts are at least 2 |
| TerrainChunks.EmptyRowsGrid | src/Terrain/TerrainChunk.cpp:148-165 | with no cells per row, the grid writes no indices |
| TerrainChunks.IndexRowCellAt | src/Terrain/TerrainChunk.cpp:150-164 | the six indices at cell x of a row are that cell's two triangles |
| TerrainChunks.IndexGridRowAt | src/Terrain/TerrainChunk.cpp:148-165 | row z of the cell grid starts at index `6 * cols * z` |
| TerrainChunks.IndexCellAt | src/Terrain/TerrainChunk.cpp:148-165 | the six indices of cell (x, z) sit at `6 * (cols * z + x)` and are that cell's two triangles |
| TerrainChunks.IndexRowInRange | src/Terrain/TerrainChunk.cpp:150-164 | every index a row writes names an existing vertex |
| TerrainChunks.IndexGridInRange | src/Terrain/TerrainChunk.cpp:148-165 | every index the cell grid writes names an existing vertex |
| TerrainChunks.IndexStreamInRange | src/Terrain/TerrainChunk.cpp:148-165 | every index of a level is below `vcX * vcZ` |
| TerrainChunks.UploadCondition | src/Terrain/TerrainChunk.cpp:167 | "both streams non-empty" holds exactly when the level has at least two samples along each axis |
| TerrainChunks.LevelMesh | src/Terrain/TerrainChunk.cpp:167-171 | definition of the vertex and index streams one level uploads to its mesh; specified by `UploadCondition` and `GenerateLodMesh` |
| TerrainChunks.FittingTileLevels | src/Terrain/TerrainChunk.cpp:105-165 | a tile of extent e that fits the grid has `e / step + 1` samples per axis at every level, and it uploads a level exactly when e is at least the stride |
| TerrainChunks.UploadedVertexCount | src/Core/Mesh.cpp:177-181 | the byte size of the vertex stream divided by the 44-byte stride gives back `vcX * vcZ` vertices |
| TerrainChunks.RowRecordsExtend | src/Terrain/TerrainChunk.cpp:130-140 | appending one record to a row extends the row's stream by that record |
| TerrainChunks.GridRecordsExtend | src/Terrain/TerrainChunk.cpp:114-145 | finishing one more row extends the grid's stream by that row |
| TerrainChunks.GridRecordsStep | src/Terrain/TerrainChunk.cpp:114-145 | appending the next row's records to the stream of the rows before it gives the stream of one more row |
| TerrainChunks.BuildRow | src/Terrain/TerrainChunk.cpp:117-141 | the inner vertex loop produces the row's records, one per sampled column, and counts those columns |
| TerrainChunks.BuildVertices | src/Terrain/TerrainChunk.cpp:114-145 | the vertex loops produce the level's vertex stream and its vertex counts |
| TerrainChunks.BuildIndices | src/Terrain/TerrainChunk.cpp:148-165 | the index loops produce the level's index stream |
| TerrainChunks.TerrainChunk.constructor | src/Terrain/TerrainChunk.cpp:12-22 | a new chunk has empty meshes, zero counts, a zero box, and is not generated |
| TerrainChunks.TerrainChunk.MoveFrom | src/Terrain/TerrainChunk.cpp:28-40 | the move constructor takes the other chunk's meshes, counts, box and flag. The source is left with empty meshes and `generated` false, and keeps its counts and box |
| TerrainChunks.TerrainChunk.MoveAssign | src/Terrain/TerrainChunk.cpp:42-59 | self-assignment changes nothing; otherwise the same transfer as the move constructor |
| TerrainChunks.TerrainChunk.GenerateLodMesh | src/Terrain/TerrainChunk.cpp:100-174 | an uploadable level gets its vertex and index streams and `indices / 3` triangles. Otherwise the level is left as it was, and the other levels and the box are untouched |
| TerrainChunks.TerrainChunk.GenerateLevels | src/Terrain/TerrainChunk.cpp:91-95 | every one of the four levels is generated as above |
| TerrainChunks.TerrainChunk.Generate | src/Terrain/TerrainChunk.cpp:61-98 | after generation the chunk is marked generated. Its box is placed at the tile's world offset, spans the scanned height range and has its centre halfway. Every level is generated |
| TerrainChunks.TerrainChunk.Render | src/Terrain/TerrainChunk.cpp:210-215 | nothing is drawn unless generated; otherwise the level drawn is the requested one clamped to [0, 3] |
| TerrainChunks.TerrainChunk.GetTriangleCount | src/Terrain/TerrainChunk.cpp:217-221 | the triangle count is that of the requested level, clamped to [0, 3] |
| ChunkedTerrains.ChunksAlong | src/Terrain/ChunkedTerrain.cpp:38-42 | definition of the chunk count along an axis with C++'s truncating `/` and `%`; specified by `ChunksAlongIsCeiling` and `OppositeCountsThrow` |
| ChunkedTerrains.ChunksAlongIsCeiling | src/Terrain/ChunkedTerrain.cpp:38-42 | the number of chunks along an axis is the ceiling of cells over chunk size, and exact when the size divides the cells |
| ChunkedTerrains.ReserveThrows | src/Terrain/ChunkedTerrain.cpp:38-44 | definition of when `reserve` throws: the product of the two counts is negative, so its conversion to `size_t` asks for more than a vector can hold; specified by `PositiveSizeNeverThrows` and `OppositeCountsThrow` |
| ChunkedTerrains.PositiveSizeNeverThrows | src/Terrain/ChunkedTerrain.cpp:38-44 | with a positive chunk size both counts are non-negative, so `reserve` never throws |
| ChunkedTerrains.OppositeCountsThrow | src/Terrain/ChunkedTerrain.cpp:38-44 | a negative chunk size can give counts of opposite signs: an 11x129 grid at -64 counts 1 column and -2 rows and throws, while 129x129 at -64 counts -2 and -2 and does not |
| ChunkedTerrains.Extent | src/Terrain/ChunkedTerrain.cpp:50-54 | definition of a tile's extent, the chunk size cut short by the end of either axis, the smaller of the two; specified by `PartitionFits` and `PartitionLeavesGaps` |
| ChunkedTerrains.TileRow | src/Terrain/ChunkedTerrain.cpp:48-61 | definition of the tiles the inner loop makes a chunk for, skipping those with no extent; specified by `TileRowFits`, `TileRowOrdered` and `UniformTileRow` |
| ChunkedTerrains.TileRows | src/Terrain/ChunkedTerrain.cpp:46-62 | definition of the tiles of the outer loop, row after row; specified by `TileRowsFit`, `TileRowsOrdered` and `UniformTileRows` |
| ChunkedTerrains.Partition | src/Terrain/ChunkedTerrain.cpp:38-62 | definition of the tiles `generate` makes chunks for, in order; specified by `PartitionFits`, `PartitionBound`, `PartitionRowMajor`, `DivisiblePartitionCovers`, `DivisiblePartitionDisjoint`, `PartitionLeavesGaps` and `NegativeSizeMakesNoTiles` |
| ChunkedTerrains.TileRowFits | src/Terrain/ChunkedTerrain.cpp:46-56 | every tile of a row lies within the grid and starts at that row's z |
| ChunkedTerrains.TileRowsFit | src/Terrain/ChunkedTerrain.cpp:46-56 | every tile of every row lies within the grid |
| ChunkedTerrains.PartitionFits | src/Terrain/ChunkedTerrain.cpp:38-56 | every tile of the partition lies within the grid, with a positive extent no larger than the chunk size |
| ChunkedTerrains.TileRowLength | src/Terrain/ChunkedTerrain.cpp:48-56 | a row has at most one tile per column |
| ChunkedTerrains.TileRowsLength | src/Terrain/ChunkedTerrain.cpp:46-56 | the rows hold at most `cols * rows` tiles |
| ChunkedTerrains.PartitionBound | src/Terrain/ChunkedTerrain.cpp:38-56 | the partition has at most `chunksPerRow * chunksPerCol` tiles |
| ChunkedTerrains.NoTilesInRow | src/Terrain/ChunkedTerrain.cpp:50-56 | with a negative chunk size, no tile has a positive extent and a row makes none |
| ChunkedTerrains.NoTilesInRows | src/Terrain/ChunkedTerrain.cpp:46-56 | with a negative chunk size, the rows make no tiles |
| ChunkedTerrains.NegativeSizeMakesNoTiles | src/Terrain/ChunkedTerrain.cpp:38-62 | a negative chunk size generates no chunks |
| ChunkedTerrains.TileRowOrdered | src/Terrain/ChunkedTerrain.cpp:48-62 | a row's tiles are in increasing x, to the left of the row's end |
| ChunkedTerrains.ConcatRowMajor | src/Terrain/ChunkedTerrain.cpp:46-62 | two row-major runs, the first wholly before the second, join into a row-major run |
| ChunkedTerrains.TileRowsOrdered | src/Terrain/ChunkedTerrain.cpp:46-62 | the rows' tiles are in row-major order and above the next row |
| ChunkedTerrains.PartitionRowMajor | src/Terrain/ChunkedTerrain.cpp:46-62 | chunks are generated in row-major order: by z, then by x |
| ChunkedTerrains.UniformTileRow | src/Terrain/ChunkedTerrain.cpp:48-56 | when whole tiles fit, row cz is exactly the tiles at `(cx * size, cz * size)` of full size |
| ChunkedTerrains.UniformTileRows | src/Terrain/ChunkedTerrain.cpp:46-56 | when whole tiles fit, tile `cz * cols + cx` is exactly the full-size tile at `(cx * size, cz * size)` |
| ChunkedTerrains.UniformJoined | src/Terrain/ChunkedTerrain.cpp:46-56 | appending a uniform row to uniform rows gives uniform rows |
| ChunkedTerrains.DivisiblePartitionUniform | src/Terrain/ChunkedTerrain.cpp:38-56 | when the chunk size divides both cell counts, the partition is the uniform grid of full-size tiles |
| ChunkedTerrains.UniformRowsAt | src/Terrain/ChunkedTerrain.cpp:46-56 | in a uniform grid, tile i sits at column `i % cols` and row `i / cols` |
| ChunkedTerrains.DivisiblePartitionCovers | src/Terrain/ChunkedTerrain.cpp:38-62 | when the chunk size divides both cell counts, every cell lies in a tile, and that tile is the one at its row-major position |
| ChunkedTerrains.UniformCovers | src/Terrain/ChunkedTerrain.cpp:46-56 | in a uniform grid the tile at `(z / size) * cols + x / size` contains cell (x, z) |
| ChunkedTerrains.DivisiblePartitionDisjoint | src/Terrain/ChunkedTerrain.cpp:38-62 | when the chunk size divides both cell counts, a cell lies in no tile but its own: tiles do not overlap |
| ChunkedTerrains.UniformDisjoint | src/Terrain/ChunkedTerrain.cpp:46-56 | in a uniform grid only the tile at the cell's row-major position contains the cell |
| ChunkedTerrains.PartitionLeavesGaps | src/Terrain/ChunkedTerrain.cpp:50-56 | with a 129x33 grid and 64-cell chunks the tiles are (0,0,32) and (64,0,32), and cell (40, 0) lies in neither |
| ChunkedTerrains.UniformTriangles | src/Terrain/ChunkedTerrain.cpp:64-69 | tiles all of extent e hold `2 * e * e` level-0 triangles each |
| ChunkedTerrains.DivisiblePartitionTriangles | src/Terrain/ChunkedTerrain.cpp:38-69 | when the chunk size divides both cell counts, level 0 holds exactly two triangles per grid cell |
| ChunkedTerrains.UniformRowsTriangles | src/Terrain/ChunkedTerrain.cpp:64-69 | a uniform grid of tiles holds two level-0 triangles per covered cell |
| ChunkedTerrains.GeneratedChunksValid | src/Terrain/ChunkedTerrain.cpp:58-60 | every generated chunk is sound |
| ChunkedTerrains.TileLevelZero | src/Terrain/TerrainChunk.cpp:148-165 | a generated chunk of extent e that fits the grid has `2 * e * e` triangles at level 0 |
| ChunkedTerrains.GeneratedTriangleSum | src/Terrain/ChunkedTerrain.cpp:64-69 | the chunks' level-0 triangle counts add up to the tiles' `2 * e * e` |
| ChunkedTerrains.GeneratedPartitionTriangles | src/Terrain/ChunkedTerrain.cpp:46-69 | for the chunks of a partition, the level-0 triangle sum is that of the partition's tiles |
| ChunkedTerrains.LodFrom | src/Terrain/ChunkedTerrain.cpp:118-125 | definition of the threshold walk of `calculateLOD` from level i; specified by `LodFromCharacterised` |
| ChunkedTerrains.LodFor | src/Terrain/ChunkedTerrain.cpp:116-126 | definition of `calculateLOD` on a threshold table; specified by `LodForCharacterised`, `LodForMonotone` and `DefaultLodBands` |
| ChunkedTerrains.ChosenLod | src/Terrain/ChunkedTerrain.cpp:103-108 | definition of the level a chunk is drawn at, 0 with LOD off, else `calculateLOD` of the camera distance; specified by `UnculledLevelZero` and `ChunkedTerrain.DrawChunk` |
| ChunkedTerrains.VisibleCount | src/Terrain/ChunkedTerrain.cpp:91-113 | definition of the chunks a frame draws, all of them without culling, else those whose box is visible; specified by `VisibleCountBound`, `ChunkedTerrain.CountFrame` and `CulledAfterRender` |
| ChunkedTerrains.ShownTriangles | src/Terrain/ChunkedTerrain.cpp:91-113 | definition of the triangles a frame draws, each drawn chunk's count at its chosen level; specified by `UnculledLevelZero` and `ChunkedTerrain.CountFrame` |
| ChunkedTerrains.LodFromCharacterised | src/Terrain/ChunkedTerrain.cpp:116-126 | the threshold walk from level i stops at the first threshold beyond the distance, or at the last level |
| ChunkedTerrains.LodForCharacterised | src/Terrain/ChunkedTerrain.cpp:116-126 | the chosen level is exactly the one whose lower thresholds are all at or below the distance and whose own threshold (if not last) is above it |
| ChunkedTerrains.LodForMonotone | src/Terrain/ChunkedTerrain.cpp:116-126 | a farther chunk never gets a finer level |
| ChunkedTerrains.DefaultLodBands | src/Terrain/ChunkedTerrain.h:42 | with the default thresholds, levels 0 to 3 cover [0, 100), [100, 200), [200, 400) and [400, ∞) |
| ChunkedTerrains.DefaultThresholdsAscend | src/Terrain/ChunkedTerrain.h:42 | the four default thresholds strictly ascend |
| ChunkedTerrains.VisibleCountBound | src/Terrain/ChunkedTerrain.cpp:91-113 | no more chunks are counted visible than exist, and all are counted when culling is off |
| ChunkedTerrains.UnculledLevelZero | src/Terrain/ChunkedTerrain.cpp:91-113 | with culling and LOD off, the frame draws every chunk's level-0 triangles |
| ChunkedTerrains.PixelOf | src/Terrain/ChunkedTerrain.cpp:132-137 | definition of the pixel coordinate of a world coordinate; specified by `PixelOfEnds`, `PixelOfWithin` and `PixelOfLattice` |
| ChunkedTerrains.PixelOfEnds | src/Terrain/ChunkedTerrain.cpp:132-137 | the terrain's two world edges map to the first and the last pixel |
| ChunkedTerrains.PixelOfWithin | src/Terrain/ChunkedTerrain.cpp:132-137 | a world position on the terrain maps into the image's pixel range |
| ChunkedTerrains.ChunkedTerrain.constructor | src/Terrain/ChunkedTerrain.cpp:5-15 | a new terrain has no chunks, zero counters, the default size, height and chunk size, the default thresholds, and culling and LOD on |
| ChunkedTerrains.ChunkedTerrain.Generate | src/Terrain/ChunkedTerrain.cpp:21-77 | `generate`, whose chunk size defaults to 64 as `src/Terrain/ChunkedTerrain.h` line 24 declares, returns false exactly when the heightmap does not load, and throws `std::length_error` from `reserve` exactly when the image loads and the two chunk counts have opposite signs. Otherwise it returns true, with one chunk per partition tile in row-major order and three vertices counted per level-0 triangle. When it fails or throws, the chunk list is cleared and the terrain is not generated; a throw leaves the new column count. The frame counters and flags are untouched either way |
| ChunkedTerrains.ChunkedTerrain.Build | src/Terrain/ChunkedTerrain.cpp:35-71 | after a load, the chunks, the column count and the vertex total are those of the partition, and the terrain is generated |
| ChunkedTerrains.ChunkedTerrain.LayOut | src/Terrain/ChunkedTerrain.cpp:35-69 | the generation loops return the column count, one chunk per tile of the partition in order, and three times their level-0 triangle sum |
| ChunkedTerrains.ChunkedTerrain.GenerateRows | src/Terrain/ChunkedTerrain.cpp:46-62 | the outer loop generates one chunk per tile of its rows, in order |
| ChunkedTerrains.ChunkedTerrain.GenerateRow | src/Terrain/ChunkedTerrain.cpp:48-61 | the inner loop generates one chunk per tile of its row, in order |
| ChunkedTerrains.ChunkedTerrain.NewChunk | src/Terrain/ChunkedTerrain.cpp:58-60 | a fresh chunk generated for a tile is the chunk `generate` makes for that tile |
| ChunkedTerrains.ChunkedTerrain.SumLevelZero | src/Terrain/ChunkedTerrain.cpp:64-69 | the summing loop returns three times the chunks' level-0 triangle counts |
| ChunkedTerrains.ChunkedTerrain.CulledChunks | src/Terrain/ChunkedTerrain.h:38 | culled and visible chunks together are all the chunks |
| ChunkedTerrains.ChunkedTerrain.CalculateLod | src/Terrain/ChunkedTerrain.cpp:116-126 | the loop returns the level of the first threshold beyond the distance, or the last level |
| ChunkedTerrains.ChunkedTerrain.Render | src/Terrain/ChunkedTerrain.cpp:79-114 | an ungenerated terrain returns at once, unchanged. Otherwise the frustum planes are the normalised planes of the matrix when culling is on. The counters hold the chunks drawn and the triangles of their chosen levels; chunks and settings are untouched |
| ChunkedTerrains.ChunkedTerrain.CountFrame | src/Terrain/ChunkedTerrain.cpp:88-113 | the render loop counts exactly the chunks that pass the culling test and the triangles of the level each is drawn at |
| ChunkedTerrains.ChunkedTerrain.DrawChunk | src/Terrain/ChunkedTerrain.cpp:94-112 | a chunk is drawn when culling is off or its box is visible. If drawn, it contributes the triangle count of its chosen level (level 0 when LOD is off) |
| ChunkedTerrains.ChunkedTerrain.GetHeightAt | src/Terrain/ChunkedTerrain.cpp:128-130 | an ungenerated terrain has height 0 everywhere |
| ChunkedTerrains.ConcatGenerated | src/Terrain/ChunkedTerrain.cpp:46-62 | chunks generated for two runs of tiles, joined, are the chunks of the joined run |
| ChunkedTerrains.CountStep | src/Terrain/ChunkedTerrain.cpp:91-113 | one render-loop iteration extends the counts from the first i chunks to the first i + 1 |
| ChunkedTerrains.PixelOfLattice | src/Terrain/ChunkedTerrain.cpp:132-137 | the world coordinate of pixel i, at spacing size/(samples-1) from -size/2, maps back to pixel i |
| ChunkedTerrains.WorldOfPixelEnds | src/Terrain/ChunkedTerrain.cpp:132-137 | the first and the last pixel sit at -size/2 and size/2 |
| ChunkedTerrains.LookupAtLattice | src/Terrain/ChunkedTerrain.cpp:128-140 | a world position that maps onto integer pixel (x, z) has that pixel's (clamped) sample as its height, scaled by the maximum height |
| ChunkedTerrains.HeightAtFirstCorner | src/Terrain/ChunkedTerrain.cpp:128-140 | the terrain's corner (-size/2, -size/2) has the height of the first sample, pixel (0, 0), scaled by the maximum height |
| ChunkedTerrains.HeightAtLattice | src/Terrain/ChunkedTerrain.cpp:128-140 | on a grid of at least 2x2 pixels, the height at the world position of any pixel (x, z) is that pixel's own sample scaled by the maximum height: no interpolation error at grid points |
| ChunkedTerrains.HeightAtRange | src/Terrain/ChunkedTerrain.cpp:128-140 | terrain heights lie in [0, maxHeight] |
| ChunkedTerrains.CulledAfterRender | src/Terrain/ChunkedTerrain.h:38 | after a frame has been counted, the culled count lies in [0, chunks], and it is 0 when culling is off |
| Frustums.NormalizePlane | src/Terrain/Frustum.cpp:56-63 | a plane whose normal has zero length is left as it is |
| Frustums.Frustum.constructor | src/Terrain/Frustum.cpp:3-9 | a new frustum has six zero planes |
| Frustums.Frustum.Update | src/Terrain/Frustum.cpp:11-54 | each of the six planes becomes the normalised plane of the matrix's row combination, in the order left, right, bottom, top, near, far |
| Frustums.Frustum.NormalizePlaneAt | src/Terrain/Frustum.cpp:50-53 | one step of the normalising loop rescales one plane and leaves the others alone |
| Frustums.Frustum.IsBoxVisible | src/Terrain/Frustum.cpp:65-85 | a box is reported visible exactly when every plane accepts its positive vertex. A rejected box has its positive vertex behind some plane |
| Frustums.PVertex | src/Terrain/Frustum.cpp:72-75 | definition of the box corner farthest along the plane's normal; specified by `PVertexMaximises` and `RejectedBoxIsOutside` |
| Frustums.SignedDistance | src/Terrain/Frustum.cpp:78 | definition of a point's distance in front of a plane, `dot(normal, p) + w`; specified by `PVertexMaximises`, `NormalizeScalesDistance` and `InsideAllPlanesIffClipped` |
| Frustums.Frustum.BoxVisible | src/Terrain/Frustum.cpp:65-85 | definition of the culling verdict, that no plane has the box's positive vertex strictly behind it; specified by `IsBoxVisible`, `RejectedBoxIsOutside` and `BoxWithInsidePointVisible` |
| Frustums.PVertexMaximises | src/Terrain/Frustum.cpp:73-75 | the positive vertex is a corner of the box, and no point of the box is farther in front of the plane |
| Frustums.RejectedBoxIsOutside | src/Terrain/Frustum.cpp:65-85 | a rejected box lies wholly behind one of the planes, so culling never drops a box that touches the frustum |
| Frustums.BoxWithInsidePointVisible | src/Terrain/Frustum.cpp:65-85 | a box holding a point inside all six planes is reported visible |
| Frustums.ZeroPlanesAcceptEverything | src/Terrain/Frustum.cpp:3-9 | before any update, every box is visible |
| Frustums.NormalizeScalesDistance | src/Terrain/Frustum.cpp:56-63 | normalising divides every signed distance by the normal's length |
| Frustums.NormalizeKeepsVerdict | src/Terrain/Frustum.cpp:56-63 | normalising a plane never changes whether it accepts a box |
| Frustums.ExtractedPlane | src/Terrain/Frustum.cpp:15-48 | definition of plane i, row 3 plus or minus row i/2 of the matrix; specified by `ExtractedPlaneInClipSpace`, `InsideAllPlanesIffClipped` and `Frustum.Update` |
| Frustums.ExtractedPlaneInClipSpace | src/Terrain/Frustum.cpp:15-48 | a point's signed distance to extracted plane i is `w ± x`, `w ± y` or `w ± z` of its clip-space image |
| Frustums.InsideAllPlanesIffClipped | src/Terrain/Frustum.cpp:15-48 | a point is inside all six raw planes exactly when its clip coordinates lie in [-w, w] on every axis |
| Frustums.UpdatedVerdictIsRawVerdict | src/Terrain/Frustum.cpp:11-85 | after an update, a box is visible exactly when every raw, unnormalised plane accepts it |
| Meshes.TypeSize | src/Core/Mesh.cpp:7-18 | bytes are 1 byte wide, every other attribute type 4 |
| Meshes.TotalBytesAppend | src/Core/Mesh.cpp:20-31 | the byte width of concatenated attributes is the sum of their widths |
| Meshes.UniformLayoutBytes | src/Core/Mesh.cpp:20-31 | a layout of one attribute type is its component count times that type's size |
| Meshes.VertexLayout.constructor | src/Core/Mesh.cpp:20-31 | a new layout has no attributes and stride 0 |
| Meshes.VertexLayout.Add | src/Core/Mesh.cpp:20-31 | adding an attribute appends it at the current stride as its offset, and grows the stride by its byte width |
| Meshes.PositionOnly | src/Core/Mesh.cpp:33-38 | one 3-float attribute at offset 0, stride 12 |
| Meshes.PositionColor | src/Core/Mesh.cpp:40-46 | position at 0 and colour at 12, stride 24 |
| Meshes.PositionTexture | src/Core/Mesh.cpp:48-54 | position at 0 and a 2-float texture coordinate at 12, stride 20 |
| Meshes.PositionColorTexture | src/Core/Mesh.cpp:56-63 | position, colour and texture coordinate at 0, 12 and 24, stride 32 |
| Meshes.PositionNormalTexture | src/Core/Mesh.cpp:65-72 | position, normal and texture coordinate at 0, 12 and 24, stride 32 |
| Meshes.PositionNormalTextureTangent | src/Core/Mesh.cpp:74-82 | position, normal, texture coordinate and tangent at 0, 12, 24 and 32: 11 floats, stride 44 |
| Meshes.Mesh.constructor | src/Core/Mesh.cpp:88-95 | a new mesh holds no buffers and no counts |
| Meshes.Mesh.MoveFrom | src/Core/Mesh.cpp:102-114 | the move constructor takes the other mesh's buffers and counts and zeroes the other |
| Meshes.Mesh.Release | src/Core/Mesh.cpp:253-272 | releasing zeroes every buffer name and count |
| Meshes.Mesh.MoveAssign | src/Core/Mesh.cpp:116-135 | self-assignment changes nothing; otherwise the buffers and counts move and the other mesh is zeroed |
| Meshes.Mesh.SetVertices | src/Core/Mesh.cpp:137-185 | after a release, the mesh holds the new vertex array and buffer and no index buffer. Its vertex count is bytes over stride, or 0 when the stride is 0 |
| Meshes.Mesh.SetIndices | src/Core/Mesh.cpp:187-209 | without a vertex array nothing happens. Otherwise the existing index buffer is reused or a new one taken, the index count becomes the new count, and the vertices are kept |
| Meshes.Mesh.Draw | src/Core/Mesh.cpp:211-230 | the mode defaults to `GL_TRIANGLES` (`Triangles`), as `src/Core/Mesh.h` line 69 declares. A mesh with no vertex array draws nothing. With an index buffer it draws its indices, otherwise its vertices |
| Meshes.Mesh.DrawInstanced | src/Core/Mesh.cpp:232-251 | the same choice for instanced drawing, passing on the instance count. The mode defaults to `GL_TRIANGLES` (`src/Core/Mesh.h` line 70) |
| Settings.DigitRun | src/Editor/SceneSettings.cpp:104-151 | the run of leading digits that stoi reads is no longer than the text |
| Settings.IsSpace | src/Editor/SceneSettings.cpp:104-151 | definition of the white space `std::stoi` skips in the C locale, the space and the characters 9 to 13; specified by `ParseIntSkipsSpace` |
| Settings.TrimLeadingSpace | src/Editor/SceneSettings.cpp:104-151 | definition of the white space skip before `stoi` reads a sign; specified by `TrimLeadingSpaceDropsSpace` and `ParseIntSkipsSpace` |
| Settings.TrimLeadingSpaceDropsSpace | src/Editor/SceneSettings.cpp:104-151 | the skip drops exactly the leading run of white space: what is left is a suffix of the text and does not start with a space |
| Settings.DigitsValue | src/Editor/SceneSettings.cpp:104-151 | definition of the number a run of decimal digits denotes, most significant first; specified by `NatDigitsValue` and `ParseMagnitudeOfDigits` |
| Settings.DigitRunSpansDigits | src/Editor/SceneSettings.cpp:104-151 | the run is all digits and stops at the first non-digit |
| Settings.NatDigitsAreDigits | src/Editor/SceneSettings.cpp:53 | the stream writes a non-negative integer as a non-empty run of digits |
| Settings.NatDigitsValue | src/Editor/SceneSettings.cpp:53 | the digits written for n denote n |
| Settings.DigitRunOfDigits | src/Editor/SceneSettings.cpp:104-151 | the digit run of digits followed by a non-digit is exactly those digits |
| Settings.ParseMagnitudeOfDigits | src/Editor/SceneSettings.cpp:104-151 | an exact digit run reads as its value, negated after a minus sign, when it fits in 32 bits |
| Settings.ParseMagnitude | src/Editor/SceneSettings.cpp:104-151 | definition of the digits after `stoi`'s sign: their value, negated after `-`, when it fits 32 bits; specified by `ParseMagnitudeOfDigits` |
| Settings.ParseInt | src/Editor/SceneSettings.cpp:104-151 | definition of `std::stoi`: leading white space, an optional sign, then digits; specified by `ParseIntNegative`, `ParseIntUnsigned`, `ParseIntSkipsSpace` and `ParseIntOfWritten` |
| Settings.IntToString | src/Editor/SceneSettings.cpp:20-68 | definition of the stream's formatting of an int, an optional `-` then decimal digits; specified by `ParseIntOfWritten` and `ConvertRender` |
| Settings.NatDigits | src/Editor/SceneSettings.cpp:53 | definition of the decimal digits the stream writes for a non-negative integer; specified by `NatDigitsAreDigits` and `NatDigitsValue` |
| Settings.ParseIntNegative | src/Editor/SceneSettings.cpp:104-151 | stoi of text starting with `-` is the negated magnitude after it |
| Settings.ParseIntUnsigned | src/Editor/SceneSettings.cpp:104-151 | stoi of text starting with a digit is the magnitude read there |
| Settings.ParseNegativeWritten | src/Editor/SceneSettings.cpp:104-151 | a written negative 32-bit value reads back as itself |
| Settings.ParseUnsignedWritten | src/Editor/SceneSettings.cpp:104-151 | a written non-negative 32-bit value reads back as itself |
| Settings.ParseIntOfWritten | src/Editor/SceneSettings.cpp:136 | stoi reads back every 32-bit value the stream writes, whatever non-digit text follows |
| Settings.ParseIntSkipsSpace | src/Editor/SceneSettings.cpp:108 | leading white space does not change what stoi reads |
| Settings.IndexOf | src/Editor/SceneSettings.cpp:94-98 | `find` returns the first position of the character, or reports it absent when it does not occur |
| Settings.IndexOfLocates | src/Editor/SceneSettings.cpp:94 | the first occurrence is the position `find` returns |
| Settings.IndexAfterPrefix | src/Editor/SceneSettings.cpp:94 | in `a c b` with no c in a, `find` returns the length of a |
| Settings.NextLine | src/Editor/SceneSettings.cpp:85 | one getline takes the text up to the first newline, which it drops, and always makes progress |
| Settings.Lines | src/Editor/SceneSettings.cpp:85 | definition of the lines `std::getline` returns, one after the other; specified by `LinesOfTerminated` and `TerminatedLines` |
| Settings.LinesOfTerminated | src/Editor/SceneSettings.cpp:85 | reading lines back from newline-terminated lines gives those lines |
| Settings.TerminatedLines | src/Editor/SceneSettings.cpp:85 | joining the lines read restores the text, plus a final newline if it lacked one |
| Settings.SplitLine | src/Editor/SceneSettings.cpp:88-101 | a line is skipped exactly when it is empty, starts with `[` or has no `=`. Otherwise it splits at its first `=` into key and value |
| Settings.Convert | src/Editor/SceneSettings.cpp:104-151 | a successful conversion gives a value of the field's type |
| Settings.ApplyLine | src/Editor/SceneSettings.cpp:88-151 | definition of one turn of the load loop: skip, ignore an unknown key, set a known one, or throw; specified by `RecognisedLine`, `SkippedLinesChangeNothing` and `LineChangesOnlyItsKey` |
| Settings.ApplyLines | src/Editor/SceneSettings.cpp:85-152 | the loop over the lines always ends by finishing or by a conversion throwing |
| Settings.Load | src/Editor/SceneSettings.cpp:75-157 | a file that does not open leaves the settings alone and returns false. Otherwise the while loop produces exactly the line-by-line parse of the file |
| Settings.SkippedLinesChangeNothing | src/Editor/SceneSettings.cpp:88-98 | empty lines, headers, lines without `=` and unknown keys change nothing |
| Settings.LineChangesOnlyItsKey | src/Editor/SceneSettings.cpp:104-151 | a recognised line sets its own key and leaves every other key as it was |
| Settings.ApplyLinesWellTyped | src/Editor/SceneSettings.cpp:104-151 | loading keeps every field at its own type, whatever the file holds: both the finished settings and those left when stoi throws |
| Settings.ApplyLinesAppend | src/Editor/SceneSettings.cpp:85-152 | loading a concatenation loads the second part from where the first left off, unless the first part throws |
| Settings.RecognisedLine | src/Editor/SceneSettings.cpp:104-151 | a line naming a key sets that key to the converted value, or throws when conversion fails |
| Settings.SingleLine | src/Editor/SceneSettings.cpp:85-152 | loading one line gives that line's result |
| Settings.LaterLineWins | src/Editor/SceneSettings.cpp:104-151 | of two converting lines for the same key, the later one decides the value |
| Settings.ConvertRender | src/Editor/SceneSettings.cpp:104-151 | each value the writer renders is converted back to itself |
| Settings.SplitPlainLine | src/Editor/SceneSettings.cpp:94-101 | a written `name=value` line splits into that name and value |
| Settings.ApplyKeyLine | src/Editor/SceneSettings.cpp:20-68 | reading the line saved for a key sets that key to its saved value |
| Settings.ApplyKeyLines | src/Editor/SceneSettings.cpp:20-68 | reading the lines saved for some keys sets those keys to their saved values and leaves the rest |
| Settings.SectionLeadSkipped | src/Editor/SceneSettings.cpp:27 | the blank line and the `[Section]` header that save writes change nothing on load |
| Settings.ApplyOneSection | src/Editor/SceneSettings.cpp:20-68 | reading one saved section sets its keys and then carries on with the rest |
| Settings.ApplySectionLines | src/Editor/SceneSettings.cpp:20-68 | reading the saved sections sets every key they list, and nothing else |
| Settings.SectionLinesSingle | src/Editor/SceneSettings.cpp:20-68 | no saved line contains a newline, when no float text does |
| Settings.KeyLinesSingle | src/Editor/SceneSettings.cpp:20-68 | no `key=value` line contains a newline, when no float text does |
| Settings.KeyLine | src/Editor/SceneSettings.cpp:20-68 | definition of a saved `name=value` line; specified by `ApplyKeyLine` and `KeyLinesSingle` |
| Settings.KeyLines | src/Editor/SceneSettings.cpp:20-68 | definition of the `name=value` lines written for a list of keys, in order; specified by `ApplyKeyLines` and `KeyLinesSingle` |
| Settings.SectionLines | src/Editor/SceneSettings.cpp:20-68 | definition of the saved sections' lines, a blank line before every header but the first, then `[name]` and its keys; specified by `ApplySectionLines` and `SectionLinesSingle` |
| Settings.SaveLines | src/Editor/SceneSettings.cpp:20-68 | definition of the lines `save` writes, the sections in order, each a header and its keys; specified by `SavedLinesReload`, `SectionLinesSingle` and `SettingsKeys.EveryKeySaved` |
| Settings.SaveText | src/Editor/SceneSettings.cpp:20-68 | definition of the text `save` writes, each line ended by `std::endl`; specified by `SaveLoadRoundTrip` |
| Settings.SaveLoadRoundTrip | src/Editor/SceneSettings.cpp:11-157 | loading what save writes gives back exactly the saved settings, whatever the settings held before |
| Settings.SavedLinesReload | src/Editor/SceneSettings.cpp:20-68 | reading the saved lines sets every key to its saved value |
| Settings.SameOnEveryKey | src/Editor/SceneSettings.h:11-43 | two full settings records that agree key by key are equal |
| SettingsKeys.SectionNamesSingleLine | src/Editor/SceneSettings.cpp:20-68 | no section name contains a newline |
| SettingsKeys.SectionOf | src/Editor/SceneSettings.cpp:20-68 | every key is written in some section |
| SettingsKeys.KeysOfContains | src/Editor/SceneSettings.cpp:20-68 | a key listed in one section is among the keys saved |
| SettingsKeys.EveryKeySaved | src/Editor/SceneSettings.cpp:20-68 | save writes every one of the 36 keys |
| SettingsKeys.DispatchGroup1 | src/Editor/SceneSettings.cpp:104-111 | the dispatch maps the first six names to their fields |
| SettingsKeys.DispatchGroup2 | src/Editor/SceneSettings.cpp:112-117 | the dispatch maps the next six names to their fields |
| SettingsKeys.DispatchGroup3 | src/Editor/SceneSettings.cpp:118-125 | the dispatch maps the next six names to their fields |
| SettingsKeys.DispatchGroup4 | src/Editor/SceneSettings.cpp:128-135 | the dispatch maps the fog and SSAO names to their fields |
| SettingsKeys.DispatchGroup5 | src/Editor/SceneSettings.cpp:136-143 | the dispatch maps the kernel-size and camera names to their fields |
| SettingsKeys.DispatchGroup6 | src/Editor/SceneSettings.cpp:144-151 | the dispatch maps the last six names to their fields |
| SettingsKeys.PlainGroup1 | src/Editor/SceneSettings.cpp:21-28 | these key names are non-empty, do not start with `[` and hold no `=` or newline |
| SettingsKeys.PlainGroup2 | src/Editor/SceneSettings.cpp:29-34 | the same for the next six names |
| SettingsKeys.PlainGroup3 | src/Editor/SceneSettings.cpp:35-42 | the same for the next six names |
| SettingsKeys.PlainGroup4 | src/Editor/SceneSettings.cpp:45-52 | the same for the fog and SSAO names |
| SettingsKeys.PlainGroup5 | src/Editor/SceneSettings.cpp:53-60 | the same for the kernel-size and camera names |
| SettingsKeys.PlainGroup6 | src/Editor/SceneSettings.cpp:61-68 | the same for the last six names |
| SettingsKeys.KeyName | src/Editor/SceneSettings.cpp:20-68 | definition of the name `save` writes for each field; specified by `KeyNameIsPlain`, `KeyOfInvertsKeyName` and the `PlainGroup` lemmas |
| SettingsKeys.KeyOf | src/Editor/SceneSettings.cpp:104-151 | definition of the key dispatch of `load`; specified by `KeyOfInvertsKeyName`, `KeyOfOnlyKeyNames` and the `DispatchGroup` lemmas |
| SettingsKeys.KeyNameIsPlain | src/Editor/SceneSettings.cpp:20-68 | every key name written is plain: it survives the line split |
| SettingsKeys.KeyOfInvertsKeyName | src/Editor/SceneSettings.cpp:20-151 | the dispatch recognises the name save writes for each key as that key |
| SettingsKeys.KeyOfOnlyKeyNames | src/Editor/SceneSettings.cpp:104-151 | the dispatch recognises no name other than the 36 key names |
| Environment.WrapHours | src/Environment/Lighting.cpp:19-26 | wrapped time lies in [0, 24) |
| Environment.WrapHoursCongruent | src/Environment/Lighting.cpp:19-26 | wrapping moves the time by a whole number of days and leaves a time already in range alone |
| Environment.WrapHoursShift | src/Environment/Lighting.cpp:19-26 | adding whole days does not change the wrapped time |
| Environment.Lighting.constructor | src/Environment/Lighting.cpp:5-10 | time starts at noon (12.0) with speed 0.1 and auto-advance off |
| Environment.Lighting.Update | src/Environment/Lighting.cpp:12-28 | without auto-advance the time is kept. With it, the time becomes the old time plus speed times delta, wrapped into [0, 24) by the two loops |
| Environment.SunIntensity | src/Environment/Lighting.cpp:154-178 | sun intensity lies in [0.1, 1] |
| Environment.SunIntensityMonotoneContinuous | src/Environment/Lighting.cpp:154-178 | intensity never falls as the sun rises and changes by at most 2.5 times the change in height: the bands join without jumps |
| Environment.SunColor | src/Environment/Lighting.cpp:52-83 | above 0.3 the sun is the noon colour, at or below -0.3 the night colour |
| Environment.AmbientColor | src/Environment/Lighting.cpp:85-112 | above 0.2 the ambient is the day colour, at or below -0.2 the night colour |
| Environment.SkyColor | src/Environment/Lighting.cpp:114-152 | above 0.3 the sky is the day colour, at or below -0.5 the night colour |
| Environment.SunColorContinuous | src/Environment/Lighting.cpp:52-83 | each sun colour channel changes by at most 3 times the change in sun height: no jump between bands |
| Environment.AmbientColorContinuous | src/Environment/Lighting.cpp:85-112 | each ambient channel changes by at most 2 times the change in sun height |
| Environment.SkyColorContinuous | src/Environment/Lighting.cpp:114-152 | each sky channel changes by at most 4 times the change in sun height |

## Left out

- GPU work is not modelled. `glGen*`, `glBufferData`, the attribute set-up and `glDraw*` are represented by the buffer names passed to `SetVertices`/`SetIndices` and by the `DrawCall` value `Draw` returns. `TerrainChunk::render` reports which level it would draw.
- Image decoding (`stbi_load`) and the file streams are outside the model. The decoded image and the file text are parameters, `None` when they fail.
- Square roots are not modelled. `glm::normalize`, `glm::length` and `glm::distance` are function parameters. Normals, tangents, plane normalisation and the LOD distance are exact only up to them.
- Floating-point rounding is not modelled: `float` is `real`.
- Float settings are carried as text; `std::stof` and the stream's float formatting are not modelled. Two consequences follow. A malformed or empty float value makes `std::stof` throw in the key dispatch of `src/Editor/SceneSettings.cpp` (lines 104-150), but the model stores the text and the load still returns `Loaded`; only bool and int lines end in `ConversionFailed`. And the source's float round trip is lossy, since `<<` writes six significant digits; the model's round trip is exact only because floats stay text.
- `Lighting::getSunDirection` and `Lighting::getSunHeight` use trigonometry, which is not modelled. The colour and intensity functions take the sun height as an input.
- `SceneSettingsManager::getDefaultPath` and the trivial getters and setters are not modelled. The same goes for the console logging in `generate`, `load` and `save`. Of `std::vector::reserve` only its throw is modelled (`ChunkedTerrains.ReserveThrows`), not the capacity it sets.
- The fog and SSAO fields are read and written by `SceneSettings.cpp` but have no default in `src/Editor/SceneSettings.h`. The model gives them no default either; a record just holds a value for every key.
- 32-bit integer overflow in the chunk and index arithmetic is not modelled: `int` is unbounded. Only `stoi`'s 32-bit range is modelled.
- `worldSize`, the parameter `TerrainChunk::generate` receives, is unused by the source and has no effect in the model.
- The inner loops of `generate`, `generateLODMesh` and `render` are methods that return the values they build, rather than `push_back` into the object in place. Each is proved equal to the function the class state is specified by.
- TerrainChunks.TerrainChunk.Generate: requires a grid at least 2 wide and 2 high. The cell size divides by `width - 1`, and the caller only generates chunks for grids that have a tile.
- ChunkedTerrains.ChunkedTerrain.GetHeightAt: requires a non-zero terrain size once generated. The source divides by it.
- ChunkedTerrains.ChunkedTerrain.Generate: requires a non-zero chunk size. The source divides by it when it counts the chunks per row.
- The `std::length_error` that `reserve` throws out of `generate` becomes the outcome `LengthError`, with the state the throw leaves. How the exception unwinds through the caller is not part of this model.
- ChunkedTerrains.HeightAtLattice: requires a grid of at least 2x2 pixels, because the pixel spacing size/(samples-1) is undefined for one pixel. The last corner (size/2, size/2) is its case x = width-1, z = height-1 (`WorldOfPixelEnds`); no separate lemma states it. Heights between grid points are bounded (`HeightAtRange`) but not stated exactly.
- Heightmap.HeightmapLoader.Load: the size after a failed decode is not what the source leaves. `stbi_load` writes `m_width` and `m_height` through its pointers and the failure path does not reset them, so they hold whatever the decoder wrote. The model's decoder is all-or-nothing (`None`), so the old size is kept.
- ChunkedTerrains.ChunkedTerrain.CulledChunks: after a failed `generate` clears the chunks, the old visible count stays, so `getCulledChunks` can be negative until the next frame. The model keeps that behaviour; `CulledAfterRender` bounds it only after a frame.

## Behaviour of the code worth knowing

- The tile extent is `min(extentX, extentZ)`. When the chunk size does not divide the cell counts, edge tiles are squares of the smaller extent, and cells are left uncovered. `ChunkedTerrains.PartitionLeavesGaps` shows one case. Coverage and disjointness are proved when the size divides both counts.
- Normals use the ±1 neighbours in the grid at every level of detail, not the level's stride. The model follows the code.
- The cell size comes from the grid width alone, so a non-square heightmap gets square cells scaled to its width.
