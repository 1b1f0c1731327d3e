/** Chunk generation strategies: each one reclassifies the `kind` of the
    voxels of a chunk in place and never adds, removes or moves a voxel. */
module ChunkBuilder {
  import opened Utils
  import opened VoxelTypes
  import opened Chunks

  type U32 = x: int | 0 <= x < 0x1_0000_0000

  /** The process-wide noise field, passed explicitly. `column` is the 2-D
      sample at a world column (x, z) and `sample` the 3-D sample at a world
      block; the scaling of the coordinates by the noise scale is folded into
      both functions. */
  datatype NoiseField = NoiseField(column: (int, int) -> real, sample: (int, int, int) -> real)

  datatype ChunkGenStrategy =
    | Empty
    | Perlin2d
    | Perlin3d
    | FlatPlane(kind: VoxelKind, height: U32)
    | SingleVoxels(voxels: seq<BlockIndex>)

  /** `height as i32`: a `u32` read back as a two's-complement `i32`. */
  function AsI32(height: U32): (r: int)
    ensures -0x8000_0000 <= r < 0x8000_0000
    ensures (r - height) % 0x1_0000_0000 == 0
  {
    if height < 0x8000_0000 then height else height - 0x1_0000_0000
  }

  /** The terrain height of one world column: the noise value mapped from
      [-1, 1] to [0, 1], clamped, scaled by the chunk height and truncated. */
  function ColumnHeight(noise: NoiseField, x: int, z: int): (h: int)
    ensures 0 <= h <= CHUNK_HEIGHT
  {
    var v := (noise.column(x, z) + 1.0) / 2.0;
    var clamped := if v < 0.0 then 0.0 else if v > 1.0 then 1.0 else v;
    (clamped * CHUNK_HEIGHT as real).Floor
  }

  /** The local coordinates `perlin_2d` turns into Grass: y in [1, height)
      of every column of the chunk. */
  predicate Perlin2dTarget(position: (int, int), noise: NoiseField, c: Local) {
    && 0 <= c.0 < CHUNK_WIDTH && 0 <= c.2 < CHUNK_WIDTH
    && 1 <= c.1 < ColumnHeight(noise, c.0 + position.0 * CHUNK_WIDTH, c.2 + position.1 * CHUNK_WIDTH)
  }

  /** The new kind of one voxel under the strategies that visit every voxel:
      Empty, Perlin3d and FlatPlane (whose filter leaves the others alone). */
  function Reclassify(strategy: ChunkGenStrategy, noise: NoiseField, v: Voxel): VoxelKind
    requires strategy.Empty? || strategy.Perlin3d? || strategy.FlatPlane?
  {
    match strategy
    case Empty => Air
    case Perlin3d => if noise.sample(v.position.0, v.position.1, v.position.2) > 0.0 then Grass else Air
    case FlatPlane(kind, height) => if v.position.1 <= AsI32(height) then kind else v.kind
  }

  /** The chunk a strategy produces. */
  function Applied(strategy: ChunkGenStrategy, chunk: Chunk, noise: NoiseField): (r: Chunk)
    ensures r.position == chunk.position && r.blocks.Keys == chunk.blocks.Keys
    ensures forall c :: c in r.blocks ==> r.blocks[c].position == chunk.blocks[c].position
  {
    var b := chunk.blocks;
    match strategy
    case Perlin2d =>
      chunk.(blocks := map c | c in b :: if Perlin2dTarget(chunk.position, noise, c) then b[c].(kind := Grass) else b[c])
    case SingleVoxels(list) =>
      chunk.(blocks := map c | c in b :: if c in list then b[c].(kind := Grass) else b[c])
    case _ =>
      chunk.(blocks := map c | c in b :: b[c].(kind := Reclassify(strategy, noise, b[c])))
  }

  /** What `apply` needs of the chunk so that none of its lookups fails:
      every listed coordinate, and every coordinate Perlin2d writes, has a voxel. */
  ghost predicate Applicable(strategy: ChunkGenStrategy, chunk: Chunk, noise: NoiseField) {
    && (strategy.SingleVoxels? ==> forall i :: 0 <= i < |strategy.voxels| ==> strategy.voxels[i] in chunk.blocks)
    && (strategy.Perlin2d? ==> forall c :: Perlin2dTarget(chunk.position, noise, c) ==> c in chunk.blocks)
  }

  /** Populates a chunk with the given strategy. */
  method Apply(strategy: ChunkGenStrategy, chunk: Chunk, noise: NoiseField) returns (r: Chunk)
    requires Applicable(strategy, chunk, noise)
    ensures r == Applied(strategy, chunk, noise)
  {
    match strategy
    case Empty =>
      r := ReclassifyEach(strategy, chunk, noise);
    case Perlin2d =>
      r := ApplyPerlin2d(chunk, noise);
    case Perlin3d =>
      r := ReclassifyEach(strategy, chunk, noise);
    case FlatPlane(_, _) =>
      r := ReclassifyEach(strategy, chunk, noise);
    case SingleVoxels(list) =>
      var blocks := chunk.blocks;
      for i := 0 to |list|
        invariant blocks.Keys == chunk.blocks.Keys
        invariant forall c :: c in chunk.blocks ==>
          blocks[c] == if c in list[..i] then chunk.blocks[c].(kind := Grass) else chunk.blocks[c]
      {
        assert forall c :: c in list[..i + 1] <==> c in list[..i] || c == list[i] by {
          assert list[..i + 1] == list[..i] + [list[i]];
        }
        blocks := blocks[list[i] := blocks[list[i]].(kind := Grass)];
      }
      assert list[..|list|] == list;
      r := chunk.(blocks := blocks);
  }

  /** The `iter_mut` loop of Empty, Perlin3d and FlatPlane: every voxel, in
      the map's own order, has its kind replaced by `Reclassify`. */
  method ReclassifyEach(strategy: ChunkGenStrategy, chunk: Chunk, noise: NoiseField) returns (r: Chunk)
    requires strategy.Empty? || strategy.Perlin3d? || strategy.FlatPlane?
    ensures r == Applied(strategy, chunk, noise)
  {
    var blocks := chunk.blocks;
    var todo := chunk.blocks.Keys;
    while todo != {}
      invariant todo <= chunk.blocks.Keys
      invariant blocks.Keys == chunk.blocks.Keys
      invariant forall c :: c in chunk.blocks ==>
        blocks[c] == if c in todo then chunk.blocks[c]
                     else chunk.blocks[c].(kind := Reclassify(strategy, noise, chunk.blocks[c]))
      decreases todo
    {
      var c :| c in todo;
      blocks := blocks[c := blocks[c].(kind := Reclassify(strategy, noise, blocks[c]))];
      todo := todo - {c};
    }
    r := chunk.(blocks := blocks);
  }

  /** `blocks` is `chunk`'s voxel map with exactly the Perlin2d targets
      visited before (x, y, z) turned to Grass. */
  ghost predicate Perlin2dProgress(chunk: Chunk, noise: NoiseField, blocks: map<Local, Voxel>, x: int, z: int, y: int) {
    && blocks.Keys == chunk.blocks.Keys
    && forall c :: c in chunk.blocks ==>
         blocks[c] == if Perlin2dTarget(chunk.position, noise, c) && VisitedBefore(c, x, z, y)
                      then chunk.blocks[c].(kind := Grass) else chunk.blocks[c]
  }

  /** `perlin_2d`: for every column, x outer and z inner, the voxels at
      y in [1, height) become Grass. */
  method ApplyPerlin2d(chunk: Chunk, noise: NoiseField) returns (r: Chunk)
    requires forall c :: Perlin2dTarget(chunk.position, noise, c) ==> c in chunk.blocks
    ensures r == Applied(Perlin2d, chunk, noise)
  {
    var blocks := chunk.blocks;
    for x := 0 to CHUNK_WIDTH
      invariant Perlin2dProgress(chunk, noise, blocks, x, 0, 0)
    {
      for z := 0 to CHUNK_WIDTH
        invariant Perlin2dProgress(chunk, noise, blocks, x, z, 0)
      {
        blocks := FillColumn(chunk, noise, blocks, x, z);
      }
    }
    r := chunk.(blocks := blocks);
  }

  /** The innermost loop of `perlin_2d`: the column (x, z) becomes Grass at
      y in [1, height). */
  method FillColumn(chunk: Chunk, noise: NoiseField, blocks: map<Local, Voxel>, x: int, z: int)
    returns (r: map<Local, Voxel>)
    requires forall c :: Perlin2dTarget(chunk.position, noise, c) ==> c in chunk.blocks
    requires 0 <= x < CHUNK_WIDTH && 0 <= z < CHUNK_WIDTH
    requires Perlin2dProgress(chunk, noise, blocks, x, z, 0)
    ensures Perlin2dProgress(chunk, noise, r, x, z + 1, 0)
  {
    var (chunkX, chunkZ) := chunk.position;
    var height := ColumnHeight(noise, x + chunkX * CHUNK_WIDTH, z + chunkZ * CHUNK_WIDTH);
    r := blocks;
    var y := 1;
    while y < height
      invariant 1 <= y
      invariant Perlin2dProgress(chunk, noise, r, x, z, y)
    {
      assert Perlin2dTarget(chunk.position, noise, (x, y, z));
      GrassStep(chunk, noise, r, x, z, y);
      r := r[(x, y, z) := r[(x, y, z)].(kind := Grass)];
      y := y + 1;
    }
    ColumnDone(chunk, noise, r, x, z, y);
  }

  /** Turning the target (x, y, z) to Grass advances the progress by one cell. */
  lemma GrassStep(chunk: Chunk, noise: NoiseField, blocks: map<Local, Voxel>, x: int, z: int, y: int)
    requires Perlin2dTarget(chunk.position, noise, (x, y, z)) && (x, y, z) in chunk.blocks
    requires Perlin2dProgress(chunk, noise, blocks, x, z, y)
    ensures Perlin2dProgress(chunk, noise, blocks[(x, y, z) := blocks[(x, y, z)].(kind := Grass)], x, z, y + 1)
  {
  }

  /** Past the column's height no targets remain in the column. */
  lemma ColumnDone(chunk: Chunk, noise: NoiseField, blocks: map<Local, Voxel>, x: int, z: int, y: int)
    requires 1 <= y && y >= ColumnHeight(noise, x + chunk.position.0 * CHUNK_WIDTH, z + chunk.position.1 * CHUNK_WIDTH)
    requires Perlin2dProgress(chunk, noise, blocks, x, z, y)
    ensures Perlin2dProgress(chunk, noise, blocks, x, z + 1, 0)
  {
  }

  /** Every coordinate Perlin2d writes lies inside the chunk, so a populated
      chunk always admits it. */
  lemma Perlin2dStaysInChunk(chunk: Chunk, noise: NoiseField)
    requires Populated(chunk.blocks)
    ensures forall c :: Perlin2dTarget(chunk.position, noise, c) ==> InChunk(c)
    ensures Applicable(Perlin2d, chunk, noise)
  {
  }

  /** Empty makes every voxel Air. */
  lemma EmptyIsAllAir(chunk: Chunk, noise: NoiseField, c: Local)
    requires c in chunk.blocks
    ensures Applied(Empty, chunk, noise).blocks[c].kind == Air
  {
  }

  /** FlatPlane sets the voxels at or below the height (as an i32) and keeps
      every other voxel's kind. */
  lemma FlatPlaneLayers(chunk: Chunk, noise: NoiseField, kind: VoxelKind, height: U32, c: Local)
    requires c in chunk.blocks
    ensures var v := Applied(FlatPlane(kind, height), chunk, noise).blocks[c];
            (chunk.blocks[c].position.1 <= AsI32(height) ==> v.kind == kind)
            && (chunk.blocks[c].position.1 > AsI32(height) ==> v.kind == chunk.blocks[c].kind)
  {
  }

  /** FlatPlane(Grass, 5) on a fresh chunk: Grass up to local y = 5, Air above. */
  lemma FlatPlaneOnFreshChunk(position: (int, int), noise: NoiseField, c: Local)
    requires InChunk(c)
    ensures var r := Applied(FlatPlane(Grass, 5), NewChunk(position), noise);
            c in r.blocks && r.blocks[c].kind == (if c.1 <= 5 then Grass else Air)
  {
    InLocalDomain(c);
  }

  /** A height of 2^31 or more wraps to a negative i32: FlatPlane then
      changes nothing on a chunk whose voxels lie at y >= 0. */
  lemma FlatPlaneWrappedHeight(chunk: Chunk, noise: NoiseField, kind: VoxelKind, height: U32)
    requires height >= 0x8000_0000
    requires forall c :: c in chunk.blocks ==> chunk.blocks[c].position.1 >= 0
    ensures Applied(FlatPlane(kind, height), chunk, noise) == chunk
  {
    var r := Applied(FlatPlane(kind, height), chunk, noise);
    assert r.blocks == chunk.blocks by {
      forall c | c in chunk.blocks ensures r.blocks[c] == chunk.blocks[c] { }
    }
  }

  /** Perlin2d writes Grass exactly on y in [1, height) of each column and
      leaves y = 0 and y >= height alone. */
  lemma Perlin2dColumns(chunk: Chunk, noise: NoiseField, c: Local)
    requires c in chunk.blocks && InChunk(c)
    ensures var h := ColumnHeight(noise, c.0 + chunk.position.0 * CHUNK_WIDTH, c.2 + chunk.position.1 * CHUNK_WIDTH);
            var v := Applied(Perlin2d, chunk, noise).blocks[c];
            (1 <= c.1 < h ==> v.kind == Grass) && (c.1 == 0 || c.1 >= h ==> v == chunk.blocks[c])
  {
  }

  /** Perlin3d overwrites every voxel: Grass iff the sample at its world
      position is positive. */
  lemma Perlin3dSign(chunk: Chunk, noise: NoiseField, c: Local)
    requires c in chunk.blocks
    ensures var p := chunk.blocks[c].position;
            Applied(Perlin3d, chunk, noise).blocks[c].kind == (if noise.sample(p.0, p.1, p.2) > 0.0 then Grass else Air)
  {
  }

  /** Every listed coordinate becomes Grass; the others keep their kind. */
  lemma SingleVoxelsMarks(chunk: Chunk, noise: NoiseField, list: seq<BlockIndex>, c: Local)
    requires c in chunk.blocks
    ensures var v := Applied(SingleVoxels(list), chunk, noise).blocks[c];
            (c in list ==> v.kind == Grass) && (c !in list ==> v == chunk.blocks[c])
  {
  }

  /** Applying a strategy a second time changes nothing. */
  lemma {:induction false} AppliedIdempotent(strategy: ChunkGenStrategy, chunk: Chunk, noise: NoiseField)
    ensures Applied(strategy, Applied(strategy, chunk, noise), noise) == Applied(strategy, chunk, noise)
  {
    var once := Applied(strategy, chunk, noise);
    var twice := Applied(strategy, once, noise);
    assert twice.blocks == once.blocks by {
      forall c | c in once.blocks ensures twice.blocks[c] == once.blocks[c] {
        match strategy
        case Empty =>
        case Perlin2d =>
        case Perlin3d =>
          assert once.blocks[c].position == chunk.blocks[c].position;
        case FlatPlane(_, _) =>
          assert once.blocks[c].position == chunk.blocks[c].position;
        case SingleVoxels(_) =>
      }
    }
  }
}
