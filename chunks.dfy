/** The chunk the chunk builder, the chunk manager and the mesh builder share:
    a chunk-grid position and its voxels keyed by chunk-local coordinate. */
module Chunks {
  import opened Utils
  import opened VoxelTypes

  datatype Chunk = Chunk(position: (int, int), blocks: map<Local, Voxel>)

  /** Every in-range local coordinate has a voxel, so a lookup by local
      coordinate never fails. */
  ghost predicate Populated(blocks: map<Local, Voxel>) {
    forall c :: InChunk(c) ==> c in blocks
  }

  /** Every voxel carries the world position of its key in this chunk. */
  ghost predicate PositionsMatch(chunk: Chunk) {
    forall c :: c in chunk.blocks ==> chunk.blocks[c].position == ChunkToWorld(chunk.position, c)
  }

  /** A freshly constructed chunk: the full local domain, all Air, each voxel
      at its true world position. */
  function NewChunk(position: (int, int)): (r: Chunk)
    ensures r.position == position && r.blocks.Keys == LocalDomain()
    ensures Populated(r.blocks) && PositionsMatch(r)
    ensures forall c :: c in r.blocks ==> r.blocks[c].kind == Air
  {
    var r := Chunk(position, map c | c in LocalDomain() :: Voxel(ChunkToWorld(position, c), Air));
    assert Populated(r.blocks) by {
      forall c | InChunk(c) ensures c in r.blocks { InLocalDomain(c); }
    }
    r
  }
}
