/** The first chunk: a fixed array of W * W * H cube coordinates, in which a
    randomly chosen subset of cells holds its own local coordinate and every
    other cell holds the zero vector. */
module LegacyChunks {
  import opened Utils

  /** An unsigned cube coordinate. */
  type UVec3 = BlockIndex

  const ZERO: UVec3 := (0, 0, 0)

  /** The flat index of cell (x, y, z): x fastest, then y, then z. */
  function GetIndex(x: nat, y: nat, z: nat): nat {
    x + CHUNK_WIDTH * (y + CHUNK_HEIGHT * z)
  }

  /** The chunk's own index is the shared block index, so it stays below
      W * W * H and never maps two cells to one slot. */
  lemma GetIndexFacts(a: UVec3, b: UVec3)
    ensures GetIndex(a.0, a.1, a.2) == GetChunkIndex(a)
    ensures InChunk(a) ==> GetIndex(a.0, a.1, a.2) < CHUNK_VOLUME
    ensures InChunk(a) && InChunk(b) && GetIndex(a.0, a.1, a.2) == GetIndex(b.0, b.1, b.2) ==> a == b
  {
    if InChunk(a) && InChunk(b) && GetIndex(a.0, a.1, a.2) == GetIndex(b.0, b.1, b.2) {
      GetChunkIndexInjective(a, b);
    }
  }

  /** The cell whose flat index is `i`. */
  function CellAt(i: nat): UVec3 {
    (i % CHUNK_WIDTH, (i / CHUNK_WIDTH) % CHUNK_HEIGHT, i / (CHUNK_WIDTH * CHUNK_HEIGHT))
  }

  /** `CellAt` inverts the flat index on the chunk. */
  lemma CellAtInverts(i: nat, c: UVec3)
    requires i < CHUNK_VOLUME && InChunk(c)
    ensures InChunk(CellAt(i)) && GetIndex(CellAt(i).0, CellAt(i).1, CellAt(i).2) == i
    ensures CellAt(GetIndex(c.0, c.1, c.2)) == c
  {
    var d := CellAt(i);
    assert i / CHUNK_WIDTH == d.1 + CHUNK_HEIGHT * d.2;
    GetIndexFacts(c, c);
  }

  /** What a cell ends up holding: its own coordinate when the random draw
      for it kept it, else the zero vector. */
  function Entry(placed: UVec3 -> bool, c: UVec3): UVec3 {
    if placed(c) then c else ZERO
  }

  /** The array the constructor builds, slot by slot. */
  function Contents(placed: UVec3 -> bool): (r: seq<UVec3>)
    ensures |r| == CHUNK_VOLUME
  {
    seq(CHUNK_VOLUME, i requires 0 <= i < CHUNK_VOLUME => Entry(placed, CellAt(i)))
  }

  /** Every entry is the zero vector or the coordinate of its own slot, and
      each in-chunk cell's slot holds its coordinate exactly when it was
      chosen; this holds whatever the random choices. */
  lemma ContentsShape(placed: UVec3 -> bool, i: nat, c: UVec3)
    requires i < CHUNK_VOLUME && InChunk(c)
    ensures var r := Contents(placed);
            && (r[i] == ZERO || GetIndex(r[i].0, r[i].1, r[i].2) == i)
            && r[GetIndex(c.0, c.1, c.2)] == (if placed(c) then c else ZERO)
  {
    CellAtInverts(i, c);
    GetIndexFacts(c, c);
  }

  /** The array after the loops have visited every cell before (x, y, z). */
  ghost predicate Progress(s: seq<UVec3>, placed: UVec3 -> bool, x: int, z: int, y: int) {
    && |s| == CHUNK_VOLUME
    && forall i :: 0 <= i < CHUNK_VOLUME ==>
         s[i] == if VisitedBefore(CellAt(i), x, z, y) then Entry(placed, CellAt(i)) else ZERO
  }

  /** Visiting (x, y, z) writes its entry into its own slot only. */
  lemma ProgressStep(s: seq<UVec3>, placed: UVec3 -> bool, x: nat, z: nat, y: nat)
    requires InChunk((x, y, z)) && Progress(s, placed, x, z, y)
    ensures var i := GetIndex(x, y, z);
            && i < CHUNK_VOLUME
            && Progress(s[i := Entry(placed, (x, y, z))], placed, x, z, y + 1)
            && (!placed((x, y, z)) ==> Progress(s, placed, x, z, y + 1))
  {
    var c := (x, y, z);
    var i := GetIndex(x, y, z);
    GetIndexFacts(c, c);
    forall j | 0 <= j < CHUNK_VOLUME
      ensures VisitedBefore(CellAt(j), x, z, y + 1) <==> VisitedBefore(CellAt(j), x, z, y) || j == i
    {
      CellAtInverts(j, c);
    }
  }

  /** Finishing a column moves to the next z; finishing a plane to the next x. */
  lemma ProgressNext(s: seq<UVec3>, placed: UVec3 -> bool, x: int, z: int)
    ensures Progress(s, placed, x, z, CHUNK_HEIGHT) ==> Progress(s, placed, x, z + 1, 0)
    ensures Progress(s, placed, x, CHUNK_WIDTH, 0) ==> Progress(s, placed, x + 1, 0, 0)
  {
    if Progress(s, placed, x, z, CHUNK_HEIGHT) {
      forall i | 0 <= i < CHUNK_VOLUME
        ensures VisitedBefore(CellAt(i), x, z, CHUNK_HEIGHT) == VisitedBefore(CellAt(i), x, z + 1, 0)
      {
      }
    }
    if Progress(s, placed, x, CHUNK_WIDTH, 0) {
      forall i | 0 <= i < CHUNK_VOLUME
        ensures VisitedBefore(CellAt(i), x, CHUNK_WIDTH, 0) == VisitedBefore(CellAt(i), x + 1, 0, 0)
      {
      }
    }
  }

  class Chunk {
    /** The position of the chunk in the world. */
    const position: (real, real)
    /** The cube coordinates, one per cell. */
    const cubes: array<UVec3>

    /** Visits every cell, x outer, z middle, y inner, and writes the cell's
        own coordinate into its slot when the random draw for it (`placed`)
        keeps it; every other slot stays the zero vector. */
    constructor (position: (real, real), placed: UVec3 -> bool)
      ensures this.position == position
      ensures fresh(cubes) && cubes[..] == Contents(placed)
    {
      var cubes := new UVec3[CHUNK_VOLUME](_ => ZERO);
      for x := 0 to CHUNK_WIDTH
        invariant Progress(cubes[..], placed, x, 0, 0)
      {
        for z := 0 to CHUNK_WIDTH
          invariant Progress(cubes[..], placed, x, z, 0)
        {
          for y := 0 to CHUNK_HEIGHT
            invariant Progress(cubes[..], placed, x, z, y)
          {
            ProgressStep(cubes[..], placed, x, z, y);
            if !placed((x, y, z)) {
              continue;
            }
            cubes[GetIndex(x, y, z)] := (x, y, z);
          }
          ProgressNext(cubes[..], placed, x, z);
        }
        ProgressNext(cubes[..], placed, x, CHUNK_WIDTH);
      }
      assert forall i :: 0 <= i < CHUNK_VOLUME ==> VisitedBefore(CellAt(i), CHUNK_WIDTH, 0, 0);
      this.position := position;
      this.cubes := cubes;
    }
  }
}
