# Voxel engine core in Dafny

This is a model of the sequential core of a small voxel engine, with proofs
about it. The world is made of chunks: columns 16 blocks wide (x and z) and
16 blocks high (y). Each block is a voxel of kind Air or Grass. The model
covers these parts:

- **Coordinate arithmetic** (`Utils`). This is the flat index
  `x + W * (y + H * z)` of a block inside a chunk. It also splits a world
  block into its chunk position (Euclidean division) and its chunk-local
  coordinate (Euclidean remainder).
- **Chunk generation** (`ChunkBuilder`). These are the five strategies
  Empty, Perlin2d, Perlin3d, FlatPlane and SingleVoxels. Each one
  reclassifies the `kind` of the voxels of a chunk in place. The loops are
  methods, and each is proved equal to a specification function
  `Applied`. The properties of each strategy are lemmas about `Applied`.
- **Chunk streaming** (`ChunkManagement`). The chunk manager is a class
  with these fields: the built chunks with their Loaded/Unloaded state, the
  player's current chunk, and a LIFO queue of positions still to build. It
  queues the 9 x 9 square around the player and skips positions that are
  built or already queued. It unloads chunks outside the square and builds
  at most one queued chunk per tick. Each method is proved against a
  function on a `Streaming` value. The invariant kept by every operation is
  this: built positions are unique, and the queue holds neither a duplicate
  nor a built position. In a valid state the "already built" branch of
  `build_next_chunks` therefore never runs, and an Unloaded chunk is never
  made Loaded again (`TickFacts`).
- **The current mesher** (`RenderMesh`, with `MeshIndexing`). It visits
  every non-Air voxel of every chunk and each of the six face directions.
  For each it appends a quad (4 vertices, 6 indices numbered from
  `max(indices) + 1`) unless the neighbouring cell is non-Air.
- **The first mesher** (`LegacyMesh`). It meshes a flat voxel list. A face
  is emitted only where an Air voxel of the list sits at the neighbouring
  position. Every such face is drawn as the same unit square in the voxel's
  z plane.
- **The dense block collection** (`BlockCollections`). A voxel list is
  filled x outer, z middle, y inner, and read through the flat index. The
  model proves that the two layouts differ: `LayoutMismatch` exhibits a
  read that returns another cell's voxel.
- **The first chunk type** (`LegacyChunks`). It is a fixed array of 4096
  cube coordinates, written in place by triple loops. A random draw per
  cell becomes an arbitrary predicate `placed`.

The code is followed where a comment disagrees with it, and two of its
behaviours are worth stating:

- The doc comment of `get_chunk_index` (`src/utils.rs:4`) says that
  `(0, 10, 0)` maps to 10. The formula gives 160, and
  `GetChunkIndexExample` proves 160.
- Grass at (1, 1, 1) and (2, 1, 1) gives ten quads, that is 40 vertices
  and 60 indices (`TwoVoxelMesh`).
- `is_adjacent` looks up the neighbouring chunk by the voxel's own chunk
  position, not the neighbour's (`src/rendering/mesh.rs:148`). That chunk
  is never in the snapshot, so a face on a chunk border is always emitted.
  This is modelled as written (`CrossChunkAlwaysEmitted`).

## Model

| member | source | states |
|---|---|---|
| Utils.GetChunkIndex | src/utils.rs:6-10 | for an in-chunk block the index is below W*W*H, and x, y and z can be read back from it by remainder and division |
| Utils.GetChunkIndexInjective | src/utils.rs:9 | two in-chunk blocks with the same index are the same block |
| Utils.GetChunkIndexExample | src/utils.rs:4-9 | block (0, 10, 0) has index 160, not the 10 of the doc comment |
| Utils.WorldToChunkPosition | src/utils.rs:14-19 | the result is the floor division: x and z lie in [16*cx, 16*cx + 16) and [16*cz, 16*cz + 16) |
| Utils.WorldToChunkCoordinate | src/utils.rs:24-30 | the local coordinate always lies in the chunk, even for negative input; chunk * 16 + local gives back x and z, and y is split Euclidean-wise by the height |
| Utils.NegativeCoordinates | src/utils.rs:13-30 | world 17 is in chunk 1, world -1 is in chunk -1 at local 15 |
| Utils.VerticalWrap | src/utils.rs:27 | world y = H maps to local y 0, and y = -1 maps to H - 1 |
| Utils.WorldRoundTrip | src/utils.rs:14-30 | world block to (chunk, local) and back gives the same world block |
| Utils.LocalRoundTrip | src/utils.rs:14-30 | (chunk, in-range local) to world and back gives the same chunk and local coordinate |
| Chunks.NewChunk | src/systems/chunk_manager.rs:99 | a fresh chunk holds exactly the local domain, all Air, each voxel at the world position of its key |
| ChunkBuilder.AsI32 | src/systems/chunk_builder.rs:105 | `height as i32` is the i32 congruent to the u32 modulo 2^32 |
| ChunkBuilder.Reclassify | src/systems/chunk_builder.rs:82-109 | the new kind of one voxel under Empty (Air, line 35), Perlin3d (sign of the sample) and FlatPlane (kind at or below the wrapped height, else unchanged); `EmptyIsAllAir`, `Perlin3dSign` and `FlatPlaneLayers` state it per strategy |
| ChunkBuilder.ColumnHeight | src/systems/chunk_builder.rs:68-72 | the clamped, scaled and truncated noise height lies in [0, H] |
| ChunkBuilder.Perlin2dTarget | src/systems/chunk_builder.rs:61-76 | the cells `perlin_2d` writes: every column of the chunk at 1 <= y < its height; `Perlin2dStaysInChunk` proves they lie in the chunk and `Perlin2dColumns` that exactly they become Grass |
| ChunkBuilder.Applied | src/systems/chunk_builder.rs:30-53 | every strategy keeps the chunk position, the key set and every voxel's position; only kinds change |
| ChunkBuilder.Apply | src/systems/chunk_builder.rs:30-53 | the in-place `apply` (every branch, including the SingleVoxels loop) produces `Applied`; a listed coordinate missing from the chunk is the precondition |
| ChunkBuilder.ReclassifyEach | src/systems/chunk_builder.rs:82-109 | the `iter_mut` loops of Empty, Perlin3d and FlatPlane, in any map order, produce `Applied` |
| ChunkBuilder.ApplyPerlin2d | src/systems/chunk_builder.rs:57-79 | the x/z loops produce `Applied(Perlin2d)` |
| ChunkBuilder.FillColumn | src/systems/chunk_builder.rs:74-76 | the y loop of one column turns exactly that column's targets to Grass |
| ChunkBuilder.Perlin2dStaysInChunk | src/systems/chunk_builder.rs:61-77 | every coordinate Perlin2d writes lies in the chunk, so a populated chunk never fails the lookup |
| ChunkBuilder.EmptyIsAllAir | src/systems/chunk_builder.rs:32-37 | Empty makes every voxel Air |
| ChunkBuilder.FlatPlaneLayers | src/systems/chunk_builder.rs:101-109 | FlatPlane(k, h) sets k where position.y <= h as i32 and keeps every other voxel's kind |
| ChunkBuilder.FlatPlaneOnFreshChunk | src/systems/chunk_builder.rs:101-109 | FlatPlane(Grass, 5) on a fresh chunk gives Grass at local y <= 5 and Air above |
| ChunkBuilder.FlatPlaneWrappedHeight | src/systems/chunk_builder.rs:105 | a height of 2^31 or more wraps negative, and then FlatPlane changes nothing on a chunk at y >= 0 |
| ChunkBuilder.Perlin2dColumns | src/systems/chunk_builder.rs:61-77 | Perlin2d gives Grass at 1 <= y < h of each column and leaves y = 0 and y >= h untouched |
| ChunkBuilder.Perlin3dSign | src/systems/chunk_builder.rs:85-97 | Perlin3d overwrites every voxel: Grass iff the sample at its position is positive, else Air |
| ChunkBuilder.SingleVoxelsMarks | src/systems/chunk_builder.rs:47-51 | listed coordinates become Grass, unlisted voxels are unchanged |
| ChunkBuilder.AppliedIdempotent | src/systems/chunk_builder.rs:30-53 | applying any strategy twice gives the same chunk as applying it once |
| ChunkManagement.FreshChunkApplicable | src/systems/chunk_manager.rs:99-100 | a strategy whose listed voxels are in range can be applied to every fresh chunk |
| ChunkManagement.SquareAroundExact | src/systems/chunk_manager.rs:107-120 | the square has (2D+1)^2 = 81 distinct positions, exactly those within Chebyshev distance D = 4 |
| ChunkManagement.SquareAround | src/systems/chunk_manager.rs:107-120 | the square `get_chunks_around` builds, x offset outer and z offset inner; `SquareAroundExact` proves it is the 81 distinct positions within distance 4, and `GetChunksAround` that the loops build it |
| ChunkManagement.Unrequested | src/systems/chunk_manager.rs:53-63 | a candidate is kept iff it is neither built (in any state) nor queued; no duplicates are introduced |
| ChunkManagement.FindChunk | src/systems/chunk_manager.rs:90-94 | `find` returns the first chunk at the position, and None iff none is built there |
| ChunkManagement.BuildOne | src/systems/chunk_manager.rs:88-101 | one iteration of `build_next_chunks`; `BuildOneCases` states both branches and `BuildOneValid` that it keeps the invariant |
| ChunkManagement.BuildNext | src/systems/chunk_manager.rs:86-104 | `n` iterations of `BuildOne`; `BuildNextShape`, `BuildNextQueue`, `BuildNextKeepsChunks` and `BuildNextValid` state what a pass does |
| ChunkManagement.MarkDistant | src/systems/chunk_manager.rs:71-83 | chunks with dx > D or dz > D become Unloaded, others keep their state; length and chunks are unchanged and nothing becomes Loaded |
| ChunkManagement.MarkDistantBuilt | src/systems/chunk_manager.rs:71-83 | unloading changes no built position |
| ChunkManagement.Tick | src/systems/chunk_manager.rs:123-140 | one call of `update`: a build pass, then, in a new chunk, the square queued and distant chunks unloaded; `TickFacts`, `TickSameChunk` and `TickTwiceEnqueuesNothing` state its effect |
| ChunkManagement.BuildOneCases | src/systems/chunk_manager.rs:88-101 | the newest queued position is popped; if built it is re-marked Loaded and no chunk is added, else one generated Loaded chunk is appended |
| ChunkManagement.BuildOneValid | src/systems/chunk_manager.rs:88-101 | from a valid state the popped position is never built, one chunk is appended, and the state stays valid |
| ChunkManagement.BuildNextShape | src/systems/chunk_manager.rs:86-104 | a build pass keeps the current chunk, pops the newest min(K, length) positions, adds at most K chunks and never replaces one |
| ChunkManagement.BuildNextQueue | src/systems/chunk_manager.rs:86-88 | the queue loses exactly its newest min(n, length) entries (LIFO) |
| ChunkManagement.BuildNextKeepsChunks | src/systems/chunk_manager.rs:86-104 | n pops add at most n chunks and keep every old chunk in place |
| ChunkManagement.BuildNextValid | src/systems/chunk_manager.rs:86-104 | from a valid state the pass stays valid, keeps old entries, and appends one chunk per popped position, in popping order |
| ChunkManagement.TickSameChunk | src/systems/chunk_manager.rs:123-140 | with the player in the same chunk, `update` keeps the current chunk and enqueues nothing; the queue loses at most K entries |
| ChunkManagement.TickTwiceEnqueuesNothing | src/systems/chunk_manager.rs:123-140 | a second `update` at the same position does not grow the queue |
| ChunkManagement.TickFacts | src/systems/chunk_manager.rs:123-140 | every `update` keeps the invariant, sets the current chunk, builds at most K chunks, removes none, and an Unloaded chunk stays Unloaded |
| ChunkManagement.EnqueueValid | src/systems/chunk_manager.rs:132-139 | entering a new chunk (queue the square, unload the rest) keeps the invariant |
| ChunkManagement.ChunkManager.constructor | src/systems/chunk_manager.rs:36-48 | any strategy is accepted; empty chunk list and queue, current chunk = chunk of the player's column, and the invariant holds |
| ChunkManagement.ChunkManager.AddChunksToQueue | src/systems/chunk_manager.rs:52-68 | appends the unrequested positions of the square and keeps the queue duplicate-free and disjoint from built positions |
| ChunkManagement.ChunkManager.UnloadDistantChunks | src/systems/chunk_manager.rs:71-83 | the chunk list becomes `MarkDistant` of the old list; the invariant is kept |
| ChunkManagement.ChunkManager.BuildNextChunks | src/systems/chunk_manager.rs:86-104 | the state becomes `BuildNext` of the old state with K = 1; the precondition is the `unwrap` panic of SingleVoxels: when the newest queued position is not built, the listed coordinates must lie in the chunk |
| ChunkManagement.ChunkManager.GetChunksAround | src/systems/chunk_manager.rs:107-120 | the double loop builds the square, x offset outer and z offset inner |
| ChunkManagement.ChunkManager.Update | src/systems/chunk_manager.rs:123-140 | the state becomes `Tick` of the old state, and the invariant is kept; the strategy must fit the chunk only when the queue is not empty, since only then is a chunk built |
| RenderMesh.AllDirections | src/rendering/mesh.rs:37-46 | six directions |
| RenderMesh.AllDirectionsComplete | src/rendering/mesh.rs:37-46 | every direction occurs exactly once |
| RenderMesh.FaceVertices | src/rendering/mesh.rs:189-233 | four corners per face |
| RenderMesh.FaceVerticesShape | src/rendering/mesh.rs:195-231 | the four corners are distinct, lie in the voxel's unit cube, and share the face-normal coordinate (Up y+1, Down y, Left x, Right x+1, Front z, Back z+1) |
| RenderMesh.Neighbour | src/rendering/mesh.rs:129-136 | the cell one step away in each direction, as the match computes it; `SameChunkRule` and `VerticalNeighboursWrap` use it |
| RenderMesh.Max | src/rendering/mesh.rs:164 | `max` is None iff empty, else an element at least every element |
| RenderMesh.IndexOffset | src/rendering/mesh.rs:164-167 | `max + 1`, or 0 for no indices; `IndexOffsetBounds` proves it is above every index and equals one more than an index present |
| RenderMesh.IndexOffsetBounds | src/rendering/mesh.rs:164-167 | the offset is 0 for no indices, else one more than an index present, and above every index |
| RenderMesh.WithQuad | src/rendering/mesh.rs:162-184 | the mesh after `add_quad`; `WithQuadConsistent` proves it appends the face corners and QuadIndices(vertex count) on a consistent mesh |
| RenderMesh.MeshOf | src/rendering/mesh.rs:162-184 | one `add_quad` per face, in order; `MeshOfConsistent`, `MeshOfCount`, `MeshOfVertices` and `MeshOfIndices` state the result |
| MeshIndexing.QuadIndices | src/rendering/mesh.rs:169-175 | six indices o, o+1, o+2, o+2, o+3, o, all in [o, o+4) |
| MeshIndexing.QuadIndicesFromRange | src/rendering/mesh.rs:163-175 | q quads take 6q indices, and quad j's indices name vertices o+4j to o+4j+3 |
| RenderMesh.WithQuadConsistent | src/rendering/mesh.rs:162-184 | `add_quad` on a consistent mesh appends the four face corners and QuadIndices(vertex count), and the mesh stays consistent |
| RenderMesh.MeshOfConsistent | src/rendering/mesh.rs:162-184 | after q quads: 4q more vertices, 6q more indices, max+1 equals the vertex count, every index is below it, and earlier content is kept |
| RenderMesh.MeshOfCount | src/rendering/mesh.rs:162-184 | consistency is kept and the vertex count grows by four per face |
| RenderMesh.MeshOfVertices | src/rendering/mesh.rs:177-183 | the vertices are the old ones followed by each face's corners in order |
| RenderMesh.MeshOfIndices | src/rendering/mesh.rs:163-175 | the indices are the old ones followed by one QuadIndices block per face, numbered from the vertex count |
| RenderMesh.FindInSnapshot | src/rendering/mesh.rs:146-150 | a snapshot chunk at the position, equal to the entry at the first index holding one; None iff none is there |
| RenderMesh.IsAdjacent | src/rendering/mesh.rs:120-159 | `is_adjacent`: the same-chunk test on the voxel's and the neighbour's columns, the snapshot lookup by the voxel's own chunk position, false when none is found, and the non-Air test at the wrapped local coordinate; `SameChunkRule`, `CrossChunkAlwaysEmitted` and `VerticalNeighboursWrap` state its behaviour |
| RenderMesh.DirFaces | src/rendering/mesh.rs:99-101 | at most one face per direction |
| RenderMesh.DirFacesMembers | src/rendering/mesh.rs:99-117 | a face is emitted iff its direction is listed and `is_adjacent` is false |
| RenderMesh.DirFacesCount | src/rendering/mesh.rs:99-117 | with at most one covered direction, the face count is 6 minus the number covered |
| RenderMesh.VoxelFaces | src/rendering/mesh.rs:92-102 | an Air voxel gives no face, and any voxel gives at most six |
| RenderMesh.ChunkFaces | src/rendering/mesh.rs:90-103 | the faces of the voxels of one chunk in the given key order, voxel by voxel; `BuildChunkMesh` is proved to append them, and `FacesOfTwoSolids` counts them |
| RenderMesh.NeighbourOffsets | src/rendering/mesh.rs:68-70 | eight offsets, none (0, 0) |
| RenderMesh.NeighbourOffsetsExact | src/rendering/mesh.rs:68-70 | the offsets are exactly the eight distinct non-zero steps in [-1, 1]^2 |
| RenderMesh.FindChunkAt | src/rendering/mesh.rs:77 | a chunk of the list at the position, equal to the chunk at the first index holding one; None iff none is there |
| RenderMesh.AdjacentChunks | src/rendering/mesh.rs:74-78 | eight entries; populated chunks give a populated snapshot |
| RenderMesh.AdjacentChunksFacts | src/rendering/mesh.rs:74-78 | entry k is the chunk at position + offset k if there is one; no entry is at the chunk's own position |
| RenderMesh.AllFaces | src/rendering/mesh.rs:67-87 | the faces of the first `n` chunks, each meshed against its eight-neighbour snapshot; `BuildMesh` is proved to append exactly these |
| RenderMesh.SameChunkRule | src/rendering/mesh.rs:143-158 | for a neighbour in the same chunk, `is_adjacent` holds iff that neighbour is non-Air |
| RenderMesh.CrossChunkAlwaysEmitted | src/rendering/mesh.rs:143-154 | for a neighbour column in another chunk, `is_adjacent` is false, so the face is emitted |
| RenderMesh.VerticalNeighboursWrap | src/rendering/mesh.rs:138-143 | at the top layer Up tests local y 0, at the bottom layer Down tests y H-1 |
| RenderMesh.InteriorVoxelFaces | src/rendering/mesh.rs:92-158 | an interior solid voxel with at most one solid neighbour gets 6 faces, or 5 with one |
| RenderMesh.OneSolidMesh | src/rendering/mesh.rs:92-183 | a chunk with one interior solid voxel meshes to 24 vertices and 36 indices |
| RenderMesh.TwoSolidsMesh | src/rendering/mesh.rs:92-183 | two interior solids with at most one solid neighbour each give 4q vertices and 6q indices for q uncovered faces |
| RenderMesh.SingleVoxelMesh | src/rendering/mesh.rs:92-183 | SingleVoxels([(1,1,1)]) on a fresh chunk gives 24 vertices and 36 indices |
| RenderMesh.TwoVoxelMesh | src/rendering/mesh.rs:92-183 | SingleVoxels([(1,1,1), (2,1,1)]) gives 10 quads: 40 vertices and 60 indices |
| RenderMesh.MeshBuilder.constructor | src/rendering/mesh.rs:57-64 | an empty mesh |
| RenderMesh.MeshBuilder.BuildMesh | src/rendering/mesh.rs:67-87 | the returned mesh is the old mesh plus one quad per face of every chunk, in chunk order |
| RenderMesh.MeshBuilder.BuildChunkAt | src/rendering/mesh.rs:73-83 | one chunk's snapshot is built and the chunk is meshed against it |
| RenderMesh.MeshBuilder.BuildChunkMesh | src/rendering/mesh.rs:90-103 | the mesh grows by the chunk's faces, voxel by voxel in the given order |
| RenderMesh.MeshBuilder.AddVoxelFaces | src/rendering/mesh.rs:99-101 | the mesh grows by the voxel's uncovered faces, in direction order |
| RenderMesh.MeshBuilder.AddQuadIfNotAdjacent | src/rendering/mesh.rs:107-117 | the mesh is unchanged if `is_adjacent`, else one quad is added |
| RenderMesh.MeshBuilder.AddQuad | src/rendering/mesh.rs:162-184 | one quad is added: the face corners and six indices from max+1 |
| LegacyMesh.Offsets | src/mesh.rs:33-40 | six offsets |
| LegacyMesh.OffsetsAreUnitSteps | src/mesh.rs:33-40 | the offsets are the six distinct unit steps along one axis |
| LegacyMesh.AnyAirAt | src/mesh.rs:60-65 | the exposure test `any`; `AnyAirAtExists` proves it holds iff some voxel of the list is Air at the position |
| LegacyMesh.AnyAirAtExists | src/mesh.rs:60-65 | the exposure test holds iff some voxel of the list is Air at that position |
| LegacyMesh.QuadCorners | src/mesh.rs:99-110 | four corners |
| LegacyMesh.QuadCornersShape | src/mesh.rs:99-110 | the corners (x,y), (x+w,y), (x+w,y+h), (x,y+h), all in the z plane of the position |
| LegacyMesh.WithQuad | src/mesh.rs:86-111 | the mesh after `add_quad`, offset = vertex count; `WithQuadConsistent` proves the invariant |
| LegacyMesh.WithQuadConsistent | src/mesh.rs:86-111 | `add_quad` with offset = vertex count keeps 4*indices = 6*vertices and every index below the vertex count |
| LegacyMesh.ExposedFaces | src/mesh.rs:52-79 | at most one face per offset |
| LegacyMesh.ExposedFacesMembers | src/mesh.rs:52-79 | a face is emitted iff its offset is listed and an Air voxel sits at the shifted position |
| LegacyMesh.ExposedFacesDistinct | src/mesh.rs:52-79 | distinct offsets give distinct faces |
| LegacyMesh.VoxelFaces | src/mesh.rs:45-80 | a voxel gives at most six faces |
| LegacyMesh.AllFaces | src/mesh.rs:44-80 | the exposed faces of every voxel, voxel-major then in offset order; `AllFacesMembers` characterises them and `AllFacesCount` bounds them |
| LegacyMesh.AllFacesMembers | src/mesh.rs:44-80 | a face is emitted iff a non-Air voxel sits at it, its offset is one of the six, and the exposure test passes |
| LegacyMesh.AllFacesCount | src/mesh.rs:44-80 | at most six faces per voxel |
| LegacyMesh.NoAirNoFaces | src/mesh.rs:59-68 | with no Air voxel in the data no face is emitted: an absent neighbour never exposes |
| LegacyMesh.MeshOf | src/mesh.rs:68-78 | one unit quad per face, in order; `MeshOfCount`, `MeshOfConsistent`, `MeshOfIndices` and `MeshOfVertices` state the result |
| LegacyMesh.MeshOfCount | src/mesh.rs:86-111 | four vertices per face |
| LegacyMesh.MeshOfConsistent | src/mesh.rs:86-111 | the index/vertex invariant holds after any number of quads |
| LegacyMesh.MeshOfIndices | src/mesh.rs:88-96 | the indices are one QuadIndices block per face, numbered from the vertex count |
| LegacyMesh.Corners | src/mesh.rs:99-110 | four corners per face |
| LegacyMesh.CornersOfFaces | src/mesh.rs:99-110 | vertex k is corner k mod 4 of the unit square of face k / 4, in that voxel's z plane, whatever offset exposed it |
| LegacyMesh.MeshOfVertices | src/mesh.rs:99-110 | the vertices are the old ones followed by the faces' corners |
| LegacyMesh.LoneVoxelHasNoFaces | src/mesh.rs:59-68 | a single Grass voxel without Air neighbours gives an empty mesh |
| LegacyMesh.RightNeighbourFaces | src/mesh.rs:44-80 | Grass at the origin with Air at (1,0,0) gives the single face towards +x |
| LegacyMesh.AirOnTheRight | src/mesh.rs:32-111 | that data meshes to vertices (0,0,0), (1,0,0), (1,1,0), (0,1,0) and indices 0, 1, 2, 2, 3, 0 |
| LegacyMesh.MeshBuilder.constructor | src/mesh.rs:21-28 | the voxel data is stored and the mesh is empty |
| LegacyMesh.MeshBuilder.BuildMesh | src/mesh.rs:32-83 | the returned mesh is the old mesh plus one unit quad per exposed face, voxel-major, then in offset order |
| LegacyMesh.MeshBuilder.AddVoxelFaces | src/mesh.rs:52-79 | the mesh grows by the voxel's exposed faces, in offset order |
| LegacyMesh.MeshBuilder.AddQuad | src/mesh.rs:86-111 | four vertices and six indices from the vertex count are appended |
| BlockCollections.New | src/block_collections.rs:20-29 | a new collection holds no voxel |
| BlockCollections.NewHoldsNothing | src/block_collections.rs:20-29 | `get` on a new collection is None for every position |
| BlockCollections.Filled | src/block_collections.rs:31-58 | a filled collection holds exactly W*W*H voxels |
| BlockCollections.FillSlotDecodes | src/block_collections.rs:40-53 | slot (x*W + z)*H + y is in range and holds the voxel of loop indices (x, y, z) |
| BlockCollections.NewFilled | src/block_collections.rs:31-58 | the triple loop pushes exactly the voxels of `Filled`, slot by slot |
| BlockCollections.FilledVoxels | src/block_collections.rs:43-50 | every filled voxel has the requested kind, 0 <= y < H, and x, z inside the offset chunk's columns |
| BlockCollections.Get | src/block_collections.rs:61-63 | Some iff the flat index is below the length, and then a voxel of the list |
| BlockCollections.FilledIsReadable | src/block_collections.rs:61-63 | every in-chunk position of a filled collection can be read |
| BlockCollections.LayoutMismatch | src/block_collections.rs:40-53 | reading local (1,0,0) of a filled chunk returns the voxel at (0,1,0): fill order and read index differ |
| BlockCollections.GetByIndex | src/block_collections.rs:66-69 | defined exactly below the length (the precondition is the panic), and then an element of the list |
| BlockCollections.Index | src/block_collections.rs:75-77 | the unwrapped `get`, defined exactly where `get` is Some, equal to `get_by_index` at the flat index |
| BlockCollections.IndexMut | src/block_collections.rs:80-84 | a write keeps the length |
| BlockCollections.IndexMutThenGet | src/block_collections.rs:80-84 | a written voxel is read back, and other in-chunk positions are unchanged |
| LegacyChunks.GetIndex | src/chunk.rs:16-18 | `get_index`; `GetIndexFacts` proves it is the shared block index, below 4096 and injective, and `CellAtInverts` that it is inverted on the chunk |
| LegacyChunks.GetIndexFacts | src/chunk.rs:16-18 | `get_index` is the shared block index, below 4096 and injective on the chunk |
| LegacyChunks.Contents | src/chunk.rs:22-44 | the cube array has exactly W*W*H = 4096 entries |
| LegacyChunks.ContentsShape | src/chunk.rs:31-40 | every entry is the zero vector or the coordinate of its own slot, and a cell's slot holds its coordinate if the draw kept it and the zero vector otherwise, whatever the draws |
| LegacyChunks.Chunk.constructor | src/chunk.rs:22-44 | the position is stored unchanged, and the triple loop writes exactly `Contents` into a fresh array |

## Left out

- Windowing, OpenGL, shaders, textures, buffers, camera, input, timers,
  cube data and logging. These are I/O and foreign calls; `key_is_down` and
  the GL error macro of `src/utils.rs` are left out for the same reason.
- The noise crate, the global noise cell and the f64/f32 scaling. They
  become the two functions of `ChunkBuilder.NoiseField`: a column sample
  and a 3-D sample. `ColumnHeight` computes the normalise, clamp, scale
  and truncate steps on reals, so f32 rounding is not modelled.
- Vertex coordinates are integer triples, not the f32 values the source
  casts them to.
- Integer widths: `usize`, `u32` and `i32` arithmetic (indices, offsets,
  world coordinates) is unbounded, so overflow is not modelled. The one
  wrapping cast that matters is written out: FlatPlane's `height as i32`,
  in `AsI32`.
- The float-to-integer cast of the player position in `new` and `update`.
  The model takes the player's integer world x and z as input.
- The current chunk type and its constructor are not part of this model.
  `Chunks.NewChunk` stands for `Chunk::new` as the manager and the mesher
  use it: every local cell, all Air, at its world position.
- The current mesher reads a chunk's blocks through `get_chunk_index` on a
  vector. Because the chunk type is not shown, the model reads the block
  map by local coordinate.
- Hash-map iteration order. It becomes an explicit `order` parameter (any
  enumeration of the keys) in the mesher and an arbitrary choice in
  `ReclassifyEach`.
- `&mut` borrows. `BlockCollections.IndexMut` takes the whole voxel to
  write instead of handing out a reference that callers write through.
  `apply` and its strategies take a chunk value and return
  the updated one; the managers and builders are classes whose fields the
  methods update.
- Inner loops as helper methods. The innermost loop of `perlin_2d`
  (`FillColumn`), the direction and offset loops of both meshers
  (`AddVoxelFaces`) and one iteration of the current mesher's chunk loop
  (`BuildChunkAt`) are separate methods.
- The random draws of `src/chunk.rs`. They become the predicate `placed`
  on cells, so every result holds for every choice.
- `glm::Vec2` and `glm::UVec3`. They become `(real, real)` and a triple
  of naturals.
- `Vec::reserve` and vector capacity. They have no observable effect on
  the contents.
- `build_mesh` consumes the builder in both meshers. Here it is a method
  that returns the mesh and leaves it in the builder's field.
- LegacyMesh.AllFacesCount: states the bound of six faces per voxel, not
  the exact number of exposed (voxel, offset) pairs in the data. That
  number is characterised by `AllFacesMembers` together with
  `ExposedFacesDistinct`.
