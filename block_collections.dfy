/** The dense voxel store of one chunk: a flat list of voxels, filled
    column by column (x outer, z middle, y inner) but read through the flat
    index x + W * (y + H * z), so a read by local coordinate does not in
    general return the voxel filled for that coordinate. */
module BlockCollections {
  import opened Utils
  import opened VoxelTypes

  datatype BlockCollection = BlockCollection(voxels: seq<Voxel>)

  /** An empty collection. */
  function New(): (r: BlockCollection)
    ensures |r.voxels| == 0
  {
    BlockCollection([])
  }

  /** The slot the fill loops write for loop indices (x, y, z). */
  function FillSlot(x: int, y: int, z: int): int {
    (x * CHUNK_WIDTH + z) * CHUNK_HEIGHT + y
  }

  /** The voxel the fill loops write into slot `s`: its loop indices are
      recovered from the slot, x and z are shifted by the chunk offset. */
  function SlotVoxel(chunkOffset: (int, int), kind: VoxelKind, s: nat): Voxel {
    var x := s / (CHUNK_WIDTH * CHUNK_HEIGHT);
    var z := (s / CHUNK_HEIGHT) % CHUNK_WIDTH;
    var y := s % CHUNK_HEIGHT;
    Voxel((x + chunkOffset.0 * CHUNK_WIDTH, y, z + chunkOffset.1 * CHUNK_WIDTH), kind)
  }

  /** The collection `new_filled` builds. */
  function Filled(chunkOffset: (int, int), kind: VoxelKind): (r: BlockCollection)
    ensures |r.voxels| == CHUNK_VOLUME
  {
    BlockCollection(seq(CHUNK_VOLUME, s requires 0 <= s < CHUNK_VOLUME => SlotVoxel(chunkOffset, kind, s)))
  }

  /** Slot (x * W + z) * H + y holds the voxel for loop indices (x, y, z),
      and those slots cover 0 .. W * W * H - 1 once each. */
  lemma FillSlotDecodes(chunkOffset: (int, int), kind: VoxelKind, x: int, y: int, z: int)
    requires InChunk((x, y, z))
    ensures 0 <= FillSlot(x, y, z) < CHUNK_VOLUME
    ensures SlotVoxel(chunkOffset, kind, FillSlot(x, y, z))
            == Voxel((x + chunkOffset.0 * CHUNK_WIDTH, y, z + chunkOffset.1 * CHUNK_WIDTH), kind)
  {
    var s := FillSlot(x, y, z);
    assert s == (x * CHUNK_WIDTH + z) * CHUNK_HEIGHT + y;
    assert s / CHUNK_HEIGHT == x * CHUNK_WIDTH + z;
    assert s % CHUNK_HEIGHT == y;
    assert (s / CHUNK_HEIGHT) % CHUNK_WIDTH == z;
    assert s / (CHUNK_WIDTH * CHUNK_HEIGHT) == x;
  }

  /** `new_filled`: pushes one voxel of `kind` per (x, z, y), x outer, z
      middle, y inner, at world position (x + W * offset.0, y, z + W * offset.1). */
  method NewFilled(chunkOffset: (int, int), kind: VoxelKind) returns (r: BlockCollection)
    ensures r == Filled(chunkOffset, kind)
  {
    var voxels: seq<Voxel> := [];
    for x := 0 to CHUNK_WIDTH
      invariant |voxels| == x * CHUNK_WIDTH * CHUNK_HEIGHT
      invariant forall s :: 0 <= s < |voxels| ==> voxels[s] == SlotVoxel(chunkOffset, kind, s)
    {
      for z := 0 to CHUNK_WIDTH
        invariant |voxels| == (x * CHUNK_WIDTH + z) * CHUNK_HEIGHT
        invariant forall s :: 0 <= s < |voxels| ==> voxels[s] == SlotVoxel(chunkOffset, kind, s)
      {
        for y := 0 to CHUNK_HEIGHT
          invariant |voxels| == (x * CHUNK_WIDTH + z) * CHUNK_HEIGHT + y
          invariant forall s :: 0 <= s < |voxels| ==> voxels[s] == SlotVoxel(chunkOffset, kind, s)
        {
          var wx := x + chunkOffset.0 * CHUNK_WIDTH;
          var wz := z + chunkOffset.1 * CHUNK_WIDTH;
          var wy := y;
          FillSlotDecodes(chunkOffset, kind, x, y, z);
          voxels := voxels + [Voxel((wx, wy, wz), kind)];
        }
      }
    }
    r := BlockCollection(voxels);
  }

  /** The voxel at flat index `get_chunk_index(pos)`, if the list is long
      enough. */
  function Get(bc: BlockCollection, pos: BlockIndex): (r: Option<Voxel>)
    ensures r.Some? <==> GetChunkIndex(pos) < |bc.voxels|
    ensures r.Some? ==> r.value in bc.voxels
  {
    var i := GetChunkIndex(pos);
    if i < |bc.voxels| then Some(bc.voxels[i]) else None
  }

  /** `get_by_index`: panics past the end of the list. */
  function GetByIndex(bc: BlockCollection, index: nat): (r: Voxel)
    requires index < |bc.voxels|
    ensures r in bc.voxels
  {
    bc.voxels[index]
  }

  /** `Index`: the unwrapped `get`; panics where `get` is None. */
  function Index(bc: BlockCollection, pos: BlockIndex): (r: Voxel)
    requires GetChunkIndex(pos) < |bc.voxels|
    ensures Get(bc, pos) == Some(r)
    ensures r == GetByIndex(bc, GetChunkIndex(pos))
  {
    Get(bc, pos).value
  }

  /** A write through `IndexMut` at `pos`; panics past the end of the list. */
  function IndexMut(bc: BlockCollection, pos: BlockIndex, v: Voxel): (r: BlockCollection)
    requires GetChunkIndex(pos) < |bc.voxels|
    ensures |r.voxels| == |bc.voxels|
  {
    BlockCollection(bc.voxels[GetChunkIndex(pos) := v])
  }

  /** A written voxel is read back at its position, and a write at one
      in-chunk position leaves every other in-chunk position as it was. */
  lemma IndexMutThenGet(bc: BlockCollection, pos: BlockIndex, v: Voxel, other: BlockIndex)
    requires GetChunkIndex(pos) < |bc.voxels|
    ensures Get(IndexMut(bc, pos, v), pos) == Some(v)
    ensures InChunk(pos) && InChunk(other) && other != pos ==> Get(IndexMut(bc, pos, v), other) == Get(bc, other)
  {
    if InChunk(pos) && InChunk(other) && other != pos {
      if GetChunkIndex(pos) == GetChunkIndex(other) {
        GetChunkIndexInjective(pos, other);
      }
    }
  }

  /** Nothing can be read from an empty collection. */
  lemma NewHoldsNothing(pos: BlockIndex)
    ensures Get(New(), pos) == None
  {
  }

  /** Every voxel of a filled collection has the requested kind, sits at the
      height of its slot's y and in the columns of the chunk at the offset. */
  lemma FilledVoxels(chunkOffset: (int, int), kind: VoxelKind, s: nat)
    requires s < CHUNK_VOLUME
    ensures var v := Filled(chunkOffset, kind).voxels[s];
            && v.kind == kind
            && 0 <= v.position.1 < CHUNK_HEIGHT
            && chunkOffset.0 * CHUNK_WIDTH <= v.position.0 < chunkOffset.0 * CHUNK_WIDTH + CHUNK_WIDTH
            && chunkOffset.1 * CHUNK_WIDTH <= v.position.2 < chunkOffset.1 * CHUNK_WIDTH + CHUNK_WIDTH
  {
  }

  /** In a filled collection every in-chunk position can be read. */
  lemma FilledIsReadable(chunkOffset: (int, int), kind: VoxelKind, pos: BlockIndex)
    requires InChunk(pos)
    ensures Get(Filled(chunkOffset, kind), pos).Some?
  {
  }

  /** Reading local (1, 0, 0) of a filled chunk at offset (0, 0) gives the
      voxel filled for (0, 1, 0): the fill order and the read index differ. */
  lemma LayoutMismatch(kind: VoxelKind)
    ensures Get(Filled((0, 0), kind), (1, 0, 0)) == Some(Voxel((0, 1, 0), kind))
  {
    assert GetChunkIndex((1, 0, 0)) == 1;
  }
}
