/** Integer coordinate arithmetic shared by every chunk-related component:
    the flat index of a block inside a chunk, and the split of a world
    coordinate into a chunk position and a chunk-local coordinate. */
module Utils {

  /** Width of a chunk along x and z. */
  const CHUNK_WIDTH: int := 16
  /** Height of a chunk along y. */
  const CHUNK_HEIGHT: int := 16
  /** Number of blocks in one chunk. */
  const CHUNK_VOLUME: int := CHUNK_WIDTH * CHUNK_WIDTH * CHUNK_HEIGHT

  datatype Option<T> = None | Some(value: T)

  /** No element occurs twice. */
  predicate NoDuplicates<T(==)>(s: seq<T>) {
    forall i, j :: 0 <= i < j < |s| ==> s[i] != s[j]
  }

  /** A chunk-local (or world) block coordinate (x, y, z). */
  type Local = (int, int, int)

  /** A `usize` triple, as `get_chunk_index` takes it. */
  type BlockIndex = (nat, nat, nat)

  /** The local coordinate lies inside one chunk. */
  predicate InChunk(c: Local) {
    0 <= c.0 < CHUNK_WIDTH && 0 <= c.1 < CHUNK_HEIGHT && 0 <= c.2 < CHUNK_WIDTH
  }

  /** Every local coordinate of one chunk. */
  function LocalDomain(): set<Local> {
    set x: int, y: int, z: int | 0 <= x < CHUNK_WIDTH && 0 <= y < CHUNK_HEIGHT && 0 <= z < CHUNK_WIDTH :: (x, y, z)
  }

  lemma InLocalDomain(c: Local)
    ensures c in LocalDomain() <==> InChunk(c)
  {
    if InChunk(c) {
      assert c == (c.0, c.1, c.2);
    }
  }

  /** The local coordinate comes before (x, y, z) in the order the chunk
      fill loops visit cells: x outer, z middle, y inner. */
  predicate VisitedBefore(c: Local, x: int, z: int, y: int) {
    c.0 < x || (c.0 == x && (c.2 < z || (c.2 == z && c.1 < y)))
  }

  /** The flat index of a block, x fastest, then y, then z. */
  function GetChunkIndex(c: BlockIndex): (i: nat)
    ensures InChunk(c) ==> i < CHUNK_VOLUME
    ensures InChunk(c) ==> i % CHUNK_WIDTH == c.0 && (i / CHUNK_WIDTH) % CHUNK_HEIGHT == c.1
                           && i / (CHUNK_WIDTH * CHUNK_HEIGHT) == c.2
  {
    c.0 + CHUNK_WIDTH * (c.1 + CHUNK_HEIGHT * c.2)
  }

  /** Two in-range coordinates never share a flat index. */
  lemma GetChunkIndexInjective(a: BlockIndex, b: BlockIndex)
    requires InChunk(a) && InChunk(b)
    requires GetChunkIndex(a) == GetChunkIndex(b)
    ensures a == b
  {
  }

  /** The block (0, 10, 0) lies at index 160, one full x-row of 16 per y step. */
  lemma GetChunkIndexExample()
    ensures GetChunkIndex((0, 10, 0)) == 160
  {
  }

  /** The chunk holding a world column: floor division of x and z by the width. */
  function WorldToChunkPosition(x: int, z: int): (r: (int, int))
    ensures r.0 * CHUNK_WIDTH <= x < r.0 * CHUNK_WIDTH + CHUNK_WIDTH
    ensures r.1 * CHUNK_WIDTH <= z < r.1 * CHUNK_WIDTH + CHUNK_WIDTH
  {
    (x / CHUNK_WIDTH, z / CHUNK_WIDTH)
  }

  /** The chunk-local coordinate of a world block: Euclidean remainders. */
  function WorldToChunkCoordinate(x: int, y: int, z: int): (r: Local)
    ensures InChunk(r)
    ensures WorldToChunkPosition(x, z).0 * CHUNK_WIDTH + r.0 == x
    ensures WorldToChunkPosition(x, z).1 * CHUNK_WIDTH + r.2 == z
    ensures (y / CHUNK_HEIGHT) * CHUNK_HEIGHT + r.1 == y
  {
    (x % CHUNK_WIDTH, y % CHUNK_HEIGHT, z % CHUNK_WIDTH)
  }

  /** The world coordinate of a local coordinate of a chunk, the position
      every chunk voxel carries. */
  function ChunkToWorld(chunk: (int, int), c: Local): Local {
    (c.0 + chunk.0 * CHUNK_WIDTH, c.1, c.2 + chunk.1 * CHUNK_WIDTH)
  }

  /** Floor, not truncation: 17 is in chunk 1 and -1 is in chunk -1, at local 15. */
  lemma NegativeCoordinates()
    ensures WorldToChunkPosition(17, 0) == (1, 0)
    ensures WorldToChunkPosition(-1, -1) == (-1, -1)
    ensures WorldToChunkCoordinate(-1, 0, 17) == (15, 0, 1)
  {
  }

  /** The y coordinate wraps modulo the height. */
  lemma VerticalWrap()
    ensures WorldToChunkCoordinate(0, CHUNK_HEIGHT, 0).1 == 0
    ensures WorldToChunkCoordinate(0, -1, 0).1 == CHUNK_HEIGHT - 1
  {
  }

  /** Splitting a world block into chunk and local coordinate and joining them
      again gives back the world block. */
  lemma WorldRoundTrip(x: int, y: int, z: int)
    requires 0 <= y < CHUNK_HEIGHT
    ensures ChunkToWorld(WorldToChunkPosition(x, z), WorldToChunkCoordinate(x, y, z)) == (x, y, z)
  {
  }

  /** Joining a chunk and an in-range local coordinate and splitting the result
      again gives back the same chunk and local coordinate. */
  lemma LocalRoundTrip(chunk: (int, int), c: Local)
    requires InChunk(c)
    ensures var w := ChunkToWorld(chunk, c);
            WorldToChunkPosition(w.0, w.2) == chunk && WorldToChunkCoordinate(w.0, w.1, w.2) == c
  {
    var w := ChunkToWorld(chunk, c);
    var p := WorldToChunkPosition(w.0, w.2);
    assert p.0 * CHUNK_WIDTH <= chunk.0 * CHUNK_WIDTH + c.0 < p.0 * CHUNK_WIDTH + CHUNK_WIDTH;
    assert p.0 == chunk.0;
    assert p.1 == chunk.1;
  }
}
