/** The current mesh builder: for every non-Air voxel of every chunk and
    each of the six face directions, a quad of four vertices and six indices
    is appended unless the neighbouring cell holds a non-Air voxel. */
module RenderMesh {
  import opened Utils
  import opened VoxelTypes
  import opened Chunks
  import opened MeshIndexing
  import ChunkBuilder

  datatype FaceDirection = Up | Down | Left | Right | Front | Back

  /** `FaceDirection::all`, in declaration order. */
  function AllDirections(): (r: seq<FaceDirection>)
    ensures |r| == 6
  {
    [Up, Down, Left, Right, Front, Back]
  }

  /** `FaceDirection::all` lists every direction exactly once. */
  lemma AllDirectionsComplete()
    ensures NoDuplicates(AllDirections())
    ensures forall d: FaceDirection :: d in AllDirections()
  {
    var r := AllDirections();
    forall d: FaceDirection ensures d in r {
      match d
      case Up => assert r[0] == d;
      case Down => assert r[1] == d;
      case Left => assert r[2] == d;
      case Right => assert r[3] == d;
      case Front => assert r[4] == d;
      case Back => assert r[5] == d;
    }
  }

  /** Vertex positions are the integer corners the source casts to `f32`. */
  datatype Mesh = Mesh(vertices: seq<Local>, indices: seq<nat>)

  /** One emitted face: the voxel position and the direction it faces. */
  type Face = (Local, FaceDirection)

  /** The cell next to `p` in direction `d`. */
  function Neighbour(p: Local, d: FaceDirection): Local {
    match d
    case Up => (p.0, p.1 + 1, p.2)
    case Down => (p.0, p.1 - 1, p.2)
    case Left => (p.0 - 1, p.1, p.2)
    case Right => (p.0 + 1, p.1, p.2)
    case Front => (p.0, p.1, p.2 - 1)
    case Back => (p.0, p.1, p.2 + 1)
  }

  /** `v` is a corner of the unit cube whose lowest corner is `p`. */
  predicate InUnitCube(p: Local, v: Local) {
    p.0 <= v.0 <= p.0 + 1 && p.1 <= v.1 <= p.1 + 1 && p.2 <= v.2 <= p.2 + 1
  }

  /** The coordinate of `v` along the normal of direction `d`. */
  function NormalCoordinate(v: Local, d: FaceDirection): int {
    match d
    case Up => v.1
    case Down => v.1
    case Left => v.0
    case Right => v.0
    case Front => v.2
    case Back => v.2
  }

  /** The plane the face of the voxel at `p` in direction `d` lies in. */
  function FacePlane(p: Local, d: FaceDirection): int {
    match d
    case Up => p.1 + 1
    case Down => p.1
    case Left => p.0
    case Right => p.0 + 1
    case Front => p.2
    case Back => p.2 + 1
  }

  /** `get_face_verticies`: the four corners of one face of the voxel at `p`. */
  function FaceVertices(p: Local, d: FaceDirection): (r: seq<Local>)
    ensures |r| == 4
  {
    var (x, y, z) := p;
    match d
    case Up => [(x, y + 1, z + 1), (x, y + 1, z), (x + 1, y + 1, z), (x + 1, y + 1, z + 1)]
    case Down => [(x, y, z + 1), (x, y, z), (x + 1, y, z), (x + 1, y, z + 1)]
    case Left => [(x, y + 1, z + 1), (x, y, z + 1), (x, y, z), (x, y + 1, z)]
    case Right => [(x + 1, y + 1, z + 1), (x + 1, y, z + 1), (x + 1, y, z), (x + 1, y + 1, z)]
    case Front => [(x, y + 1, z), (x, y, z), (x + 1, y, z), (x + 1, y + 1, z)]
    case Back => [(x, y + 1, z + 1), (x, y, z + 1), (x + 1, y, z + 1), (x + 1, y + 1, z + 1)]
  }

  /** The four corners of a face are distinct corners of the voxel's unit
      cube, all in the plane of the face. */
  lemma FaceVerticesShape(p: Local, d: FaceDirection)
    ensures var r := FaceVertices(p, d);
            && NoDuplicates(r)
            && (forall k :: 0 <= k < 4 ==> InUnitCube(p, r[k]))
            && (forall k :: 0 <= k < 4 ==> NormalCoordinate(r[k], d) == FacePlane(p, d))
  {
  }

  /** `indices.iter().max()`. */
  function Max(s: seq<nat>): (r: Option<nat>)
    ensures r.None? <==> s == []
    ensures r.Some? ==> r.value in s && forall k :: 0 <= k < |s| ==> s[k] <= r.value
  {
    if s == [] then None
    else match Max(s[1..])
      case None => Some(s[0])
      case Some(m) => Some(if s[0] > m then s[0] else m)
  }

  /** The first index of the next quad: one past the largest index, or 0. */
  function IndexOffset(indices: seq<nat>): nat {
    match Max(indices)
    case None => 0
    case Some(m) => m + 1
  }

  /** The offset is the least number above every index: 0 for no indices,
      otherwise one more than an index that occurs. */
  lemma IndexOffsetBounds(indices: seq<nat>)
    ensures var o := IndexOffset(indices);
            && (indices == [] ==> o == 0)
            && (indices != [] ==> o > 0 && o - 1 in indices)
            && (forall k :: 0 <= k < |indices| ==> indices[k] < o)
  {
  }

  /** The mesh after `add_quad(p, d)`. */
  function WithQuad(m: Mesh, p: Local, d: FaceDirection): Mesh {
    Mesh(m.vertices + FaceVertices(p, d), m.indices + QuadIndices(IndexOffset(m.indices)))
  }

  /** The mesh after adding one quad per face, in order. */
  function MeshOf(m: Mesh, faces: seq<Face>): Mesh {
    if faces == [] then m
    else
      var last := faces[|faces| - 1];
      WithQuad(MeshOf(m, faces[..|faces| - 1]), last.0, last.1)
  }

  /** The shape of a mesh built from quads only: 6 indices per 4 vertices,
      and the next quad's offset is the vertex count. */
  predicate Consistent(m: Mesh) {
    && 2 * |m.indices| == 3 * |m.vertices|
    && IndexOffset(m.indices) == |m.vertices|
  }

  /** `add_quad` on a consistent mesh numbers the new quad from the current
      vertex count, so the mesh stays consistent. */
  lemma WithQuadConsistent(m: Mesh, p: Local, d: FaceDirection)
    requires Consistent(m)
    ensures var r := WithQuad(m, p, d);
            && Consistent(r)
            && r.vertices == m.vertices + FaceVertices(p, d)
            && r.indices == m.indices + QuadIndices(|m.vertices|)
  {
    var o := |m.vertices|;
    var r := WithQuad(m, p, d);
    assert r.indices[|m.indices| + 4] == o + 3;
    assert forall k :: 0 <= k < |r.indices| ==> r.indices[k] < o + 4 by {
      forall k | 0 <= k < |r.indices| ensures r.indices[k] < o + 4 {
        if k >= |m.indices| {
          assert r.indices[k] == QuadIndices(o)[k - |m.indices|];
        }
      }
    }
    IndexOffsetBounds(m.indices);
    IndexOffsetBounds(r.indices);
    var n := IndexOffset(r.indices);
    assert n - 1 < o + 4;
    assert n > o + 3;
  }

  lemma MeshOfAppend(m: Mesh, a: seq<Face>, b: seq<Face>)
    ensures MeshOf(m, a + b) == MeshOf(MeshOf(m, a), b)
    decreases |b|
  {
    if b != [] {
      assert (a + b)[..|a + b| - 1] == a + b[..|b| - 1];
      assert (a + b)[|a + b| - 1] == b[|b| - 1];
      MeshOfAppend(m, a, b[..|b| - 1]);
    } else {
      assert a + b == a;
    }
  }

  /** After q quads a consistent mesh is still consistent, has grown by 4q
      vertices and 6q indices, keeps what it had, and every index stays
      below the vertex count. */
  lemma {:induction false} MeshOfConsistent(m: Mesh, faces: seq<Face>)
    requires Consistent(m)
    ensures var r := MeshOf(m, faces);
            && Consistent(r)
            && |r.vertices| == |m.vertices| + 4 * |faces|
            && |r.indices| == |m.indices| + 6 * |faces|
            && (forall k :: 0 <= k < |r.indices| ==> r.indices[k] < |r.vertices|)
            && r.vertices[..|m.vertices|] == m.vertices
            && r.indices[..|m.indices|] == m.indices
    decreases |faces|
  {
    IndexOffsetBounds(MeshOf(m, faces).indices);
    if faces != [] {
      var n := |faces| - 1;
      MeshOfConsistent(m, faces[..n]);
      var prev := MeshOf(m, faces[..n]);
      WithQuadConsistent(prev, faces[n].0, faces[n].1);
      var r := MeshOf(m, faces);
      assert r.vertices[..|m.vertices|] == prev.vertices[..|m.vertices|];
      assert r.indices[..|m.indices|] == prev.indices[..|m.indices|];
    }
  }

  /** The corners of the faces, four per face, in order. */
  function FaceCorners(faces: seq<Face>): seq<Local> {
    if faces == [] then []
    else
      var n := |faces| - 1;
      FaceCorners(faces[..n]) + FaceVertices(faces[n].0, faces[n].1)
  }

  /** Adding quads appends the corners of each face in turn. */
  lemma {:induction false} MeshOfVertices(m: Mesh, faces: seq<Face>)
    ensures MeshOf(m, faces).vertices == m.vertices + FaceCorners(faces)
    decreases |faces|
  {
    if faces != [] {
      MeshOfVertices(m, faces[..|faces| - 1]);
    }
  }

  /** Adding quads to a consistent mesh numbers quad j from the old vertex
      count plus 4j. */
  lemma {:induction false} MeshOfIndices(m: Mesh, faces: seq<Face>)
    requires Consistent(m)
    ensures MeshOf(m, faces).indices == m.indices + QuadIndicesFrom(|m.vertices|, |faces|)
    decreases |faces|
  {
    if faces != [] {
      var n := |faces| - 1;
      MeshOfIndices(m, faces[..n]);
      MeshOfCount(m, faces[..n]);
      WithQuadIndices(MeshOf(m, faces[..n]), faces[n].0, faces[n].1, m.indices, |m.vertices|, n);
    }
  }

  /** One more quad on a mesh numbered like `n` quads from `o` is numbered
      like `n + 1` quads from `o`. */
  lemma WithQuadIndices(prev: Mesh, p: Local, d: FaceDirection, init: seq<nat>, o: nat, n: nat)
    requires Consistent(prev) && |prev.vertices| == o + 4 * n
    requires prev.indices == init + QuadIndicesFrom(o, n)
    ensures WithQuad(prev, p, d).indices == init + QuadIndicesFrom(o, n + 1)
  {
    WithQuadConsistent(prev, p, d);
    QuadIndicesFromStep(init, o, n);
  }

  /** A consistent mesh stays consistent and grows by four vertices per quad. */
  lemma {:induction false} MeshOfCount(m: Mesh, faces: seq<Face>)
    requires Consistent(m)
    ensures Consistent(MeshOf(m, faces))
    ensures |MeshOf(m, faces).vertices| == |m.vertices| + 4 * |faces|
    decreases |faces|
  {
    if faces != [] {
      var n := |faces| - 1;
      MeshOfCount(m, faces[..n]);
      WithQuadConsistent(MeshOf(m, faces[..n]), faces[n].0, faces[n].1);
    }
  }

  /** Every chunk of the snapshot has a voxel at every local coordinate. */
  ghost predicate SnapshotPopulated(adjacent: seq<Option<Chunk>>) {
    forall k :: 0 <= k < |adjacent| && adjacent[k].Some? ==> Populated(adjacent[k].value.blocks)
  }

  /** The first chunk of the snapshot at position `p`. */
  function FindInSnapshot(adjacent: seq<Option<Chunk>>, p: (int, int)): (r: Option<Chunk>)
    ensures r.Some? ==> r.value.position == p && Some(r.value) in adjacent
    ensures forall k :: 0 <= k < |adjacent| && adjacent[k].Some? && adjacent[k].value.position == p
                        && (forall j :: 0 <= j < k && adjacent[j].Some? ==> adjacent[j].value.position != p)
                        ==> r == adjacent[k]
    ensures r.None? <==> forall k :: 0 <= k < |adjacent| && adjacent[k].Some? ==> adjacent[k].value.position != p
  {
    if adjacent == [] then None
    else if adjacent[0].Some? && adjacent[0].value.position == p then adjacent[0]
    else
      var r := FindInSnapshot(adjacent[1..], p);
      assert forall k :: 1 <= k < |adjacent| ==> adjacent[k] == adjacent[1..][k - 1];
      r
  }

  /** `is_adjacent`: the neighbour cell of the voxel at world `position` in
      direction `d` is non-Air. The cell is looked up in `chunk` when the
      voxel's own column and the neighbour's column fall in the same chunk;
      otherwise the snapshot is searched for a chunk at the voxel's own chunk
      position, and no such chunk means "not adjacent". */
  function IsAdjacent(position: Local, d: FaceDirection, chunk: Chunk, adjacent: seq<Option<Chunk>>): bool
    requires Populated(chunk.blocks) && SnapshotPopulated(adjacent)
  {
    var b := Neighbour(position, d);
    var thisChunk := WorldToChunkPosition(position.0, position.2);
    var otherChunk := WorldToChunkPosition(b.0, b.2);
    var coords := WorldToChunkCoordinate(b.0, b.1, b.2);
    if thisChunk == otherChunk then chunk.blocks[coords].kind != Air
    else match FindInSnapshot(adjacent, thisChunk)
      case None => false
      case Some(other) => other.blocks[coords].kind != Air
  }

  /** The faces of the voxel at `p` among the directions `dirs`, in order. */
  function DirFaces(p: Local, dirs: seq<FaceDirection>, chunk: Chunk, adjacent: seq<Option<Chunk>>): (r: seq<Face>)
    requires Populated(chunk.blocks) && SnapshotPopulated(adjacent)
    ensures |r| <= |dirs|
  {
    if dirs == [] then []
    else
      var d := dirs[|dirs| - 1];
      DirFaces(p, dirs[..|dirs| - 1], chunk, adjacent) + if IsAdjacent(p, d, chunk, adjacent) then [] else [(p, d)]
  }

  /** The faces of the voxel at `p` are exactly (p, d) for the directions
      `d` of `dirs` whose neighbour is not adjacent. */
  lemma {:induction false} DirFacesMembers(p: Local, dirs: seq<FaceDirection>, chunk: Chunk, adjacent: seq<Option<Chunk>>)
    requires Populated(chunk.blocks) && SnapshotPopulated(adjacent)
    ensures forall f :: f in DirFaces(p, dirs, chunk, adjacent) <==>
      f.0 == p && f.1 in dirs && !IsAdjacent(p, f.1, chunk, adjacent)
  {
    if dirs != [] {
      var d := dirs[|dirs| - 1];
      var init := dirs[..|dirs| - 1];
      assert dirs == init + [d];
      DirFacesMembers(p, init, chunk, adjacent);
    }
  }

  /** With at most one covered direction, the voxel at `p` has one face per
      direction of `dirs` except the covered one. */
  lemma {:induction false} DirFacesCount(p: Local, dirs: seq<FaceDirection>, chunk: Chunk, adjacent: seq<Option<Chunk>>,
                                         covered: Option<FaceDirection>)
    requires Populated(chunk.blocks) && SnapshotPopulated(adjacent) && NoDuplicates(dirs)
    requires forall d :: d in dirs ==> (IsAdjacent(p, d, chunk, adjacent) <==> covered == Some(d))
    ensures |DirFaces(p, dirs, chunk, adjacent)| == if covered.Some? && covered.value in dirs then |dirs| - 1 else |dirs|
  {
    if dirs != [] {
      var d := dirs[|dirs| - 1];
      var init := dirs[..|dirs| - 1];
      assert dirs == init + [d];
      assert forall e :: e in dirs <==> e in init || e == d;
      assert d !in init;
      DirFacesCount(p, init, chunk, adjacent, covered);
    }
  }

  /** The faces one voxel contributes: none for Air, otherwise one per
      direction whose neighbour is not adjacent. */
  function VoxelFaces(chunk: Chunk, adjacent: seq<Option<Chunk>>, c: Local): (r: seq<Face>)
    requires Populated(chunk.blocks) && SnapshotPopulated(adjacent) && c in chunk.blocks
    ensures |r| <= 6
    ensures chunk.blocks[c].kind == Air ==> r == []
  {
    var v := chunk.blocks[c];
    if v.kind == Air then [] else DirFaces(v.position, AllDirections(), chunk, adjacent)
  }

  /** `order` lists the keys of the chunk's voxel map, each once: the map's
      iteration order. */
  predicate IsOrderOf(order: seq<Local>, chunk: Chunk) {
    && NoDuplicates(order)
    && (forall k :: 0 <= k < |order| ==> order[k] in chunk.blocks)
    && (forall c :: c in chunk.blocks ==> c in order)
  }

  /** The faces of the voxels listed in `order`, voxel by voxel. */
  function ChunkFaces(chunk: Chunk, adjacent: seq<Option<Chunk>>, order: seq<Local>): seq<Face>
    requires Populated(chunk.blocks) && SnapshotPopulated(adjacent)
    requires forall k :: 0 <= k < |order| ==> order[k] in chunk.blocks
  {
    if order == [] then []
    else
      var n := |order| - 1;
      ChunkFaces(chunk, adjacent, order[..n]) + VoxelFaces(chunk, adjacent, order[n])
  }

  /** The offsets of the eight neighbouring chunk positions, x offset outer,
      z offset inner, without (0, 0). */
  function NeighbourOffsets(): (r: seq<(int, int)>)
    ensures |r| == 8
    ensures forall k :: 0 <= k < |r| ==> r[k] != (0, 0)
  {
    [(-1, -1), (-1, 0), (-1, 1), (0, -1), (0, 1), (1, -1), (1, 0), (1, 1)]
  }

  /** The offsets are the eight distinct non-zero offsets of at most one
      step along x and z. */
  lemma NeighbourOffsetsExact()
    ensures NoDuplicates(NeighbourOffsets())
    ensures forall k :: 0 <= k < 8 ==> -1 <= NeighbourOffsets()[k].0 <= 1 && -1 <= NeighbourOffsets()[k].1 <= 1
    ensures forall dx, dz :: -1 <= dx <= 1 && -1 <= dz <= 1 && (dx, dz) != (0, 0) ==> (dx, dz) in NeighbourOffsets()
  {
    var r := NeighbourOffsets();
    forall dx, dz | -1 <= dx <= 1 && -1 <= dz <= 1 && (dx, dz) != (0, 0) ensures (dx, dz) in r {
      var k := (dx + 1) * 3 + (dz + 1);
      if k < 4 {
        assert r[k] == (dx, dz);
      } else {
        assert r[k - 1] == (dx, dz);
      }
    }
  }

  /** The first chunk of the list at position `p`. */
  function FindChunkAt(chunks: seq<Chunk>, p: (int, int)): (r: Option<Chunk>)
    ensures r.Some? ==> r.value in chunks && r.value.position == p
    ensures forall k :: 0 <= k < |chunks| && chunks[k].position == p
                        && (forall j :: 0 <= j < k ==> chunks[j].position != p)
                        ==> r == Some(chunks[k])
    ensures r.None? <==> forall k :: 0 <= k < |chunks| ==> chunks[k].position != p
  {
    if chunks == [] then None
    else if chunks[0].position == p then Some(chunks[0])
    else
      var r := FindChunkAt(chunks[1..], p);
      assert forall k :: 1 <= k < |chunks| ==> chunks[k] == chunks[1..][k - 1];
      r
  }

  /** Every chunk of the list has a voxel at every local coordinate. */
  ghost predicate AllPopulated(chunks: seq<Chunk>) {
    forall k :: 0 <= k < |chunks| ==> Populated(chunks[k].blocks)
  }

  /** The snapshot `build_mesh` hands to `build_chunk_mesh`: for each of the
      eight neighbouring positions, the first chunk there, if any. */
  function AdjacentChunks(chunks: seq<Chunk>, position: (int, int)): (r: seq<Option<Chunk>>)
    ensures |r| == 8
    ensures AllPopulated(chunks) ==> SnapshotPopulated(r)
  {
    var offsets := NeighbourOffsets();
    var r := seq(8, k requires 0 <= k < 8 => FindChunkAt(chunks, (position.0 + offsets[k].0, position.1 + offsets[k].1)));
    assert forall k :: 0 <= k < 8 && r[k].Some? ==> r[k].value in chunks;
    r
  }

  /** Entry k of the snapshot is the chunk at the k-th neighbouring
      position, or None when the list has none there; so no entry is at
      `position` itself. */
  lemma AdjacentChunksFacts(chunks: seq<Chunk>, position: (int, int))
    ensures var r := AdjacentChunks(chunks, position);
            forall k :: 0 <= k < 8 ==>
              var p := (position.0 + NeighbourOffsets()[k].0, position.1 + NeighbourOffsets()[k].1);
              && (r[k].Some? ==> r[k].value in chunks && r[k].value.position == p)
              && (r[k].None? <==> forall j :: 0 <= j < |chunks| ==> chunks[j].position != p)
    ensures var r := AdjacentChunks(chunks, position);
            forall k :: 0 <= k < 8 && r[k].Some? ==> r[k].value.position != position
  {
    var r := AdjacentChunks(chunks, position);
    var offsets := NeighbourOffsets();
    forall k | 0 <= k < 8
      ensures r[k] == FindChunkAt(chunks, (position.0 + offsets[k].0, position.1 + offsets[k].1))
    {
    }
  }

  /** `build_mesh`'s input: populated chunks, each with an iteration order. */
  ghost predicate MeshInput(chunks: seq<Chunk>, orders: seq<seq<Local>>) {
    && |orders| == |chunks|
    && AllPopulated(chunks)
    && forall i :: 0 <= i < |chunks| ==> IsOrderOf(orders[i], chunks[i])
  }

  /** The faces of the first `n` chunks, each meshed against its snapshot. */
  function AllFaces(chunks: seq<Chunk>, orders: seq<seq<Local>>, n: nat): seq<Face>
    requires MeshInput(chunks, orders) && n <= |chunks|
  {
    if n == 0 then []
    else
      var i := n - 1;
      AllFaces(chunks, orders, i) + ChunkMeshFaces(chunks, orders, i)
  }

  /** The faces of the `i`-th chunk, meshed against its snapshot. */
  function ChunkMeshFaces(chunks: seq<Chunk>, orders: seq<seq<Local>>, i: nat): seq<Face>
    requires MeshInput(chunks, orders) && i < |chunks|
  {
    assert IsOrderOf(orders[i], chunks[i]);
    ChunkFaces(chunks[i], AdjacentChunks(chunks, chunks[i].position), orders[i])
  }

  /** Within one chunk (whose voxels carry their true world positions), a
      face is emitted exactly when the neighbouring cell inside the chunk is
      Air. */
  lemma SameChunkRule(chunk: Chunk, adjacent: seq<Option<Chunk>>, c: Local, d: FaceDirection)
    requires Populated(chunk.blocks) && SnapshotPopulated(adjacent) && PositionsMatch(chunk)
    requires InChunk(c) && InChunk(Neighbour(c, d))
    ensures IsAdjacent(chunk.blocks[c].position, d, chunk, adjacent) <==> chunk.blocks[Neighbour(c, d)].kind != Air
  {
    var w := chunk.blocks[c].position;
    var nc := Neighbour(c, d);
    assert Neighbour(w, d) == ChunkToWorld(chunk.position, nc);
    LocalRoundTrip(chunk.position, c);
    LocalRoundTrip(chunk.position, nc);
  }

  /** A face whose neighbour lies in another chunk is always emitted: the
      snapshot is searched for the voxel's own chunk position, which no
      neighbouring chunk has. */
  lemma CrossChunkAlwaysEmitted(chunks: seq<Chunk>, i: nat, c: Local, d: FaceDirection)
    requires AllPopulated(chunks) && i < |chunks| && PositionsMatch(chunks[i])
    requires InChunk(c)
    requires var nc := Neighbour(c, d); !(0 <= nc.0 < CHUNK_WIDTH && 0 <= nc.2 < CHUNK_WIDTH)
    ensures var chunk := chunks[i];
            !IsAdjacent(chunk.blocks[c].position, d, chunk, AdjacentChunks(chunks, chunk.position))
  {
    var chunk := chunks[i];
    var w := chunk.blocks[c].position;
    var nc := Neighbour(c, d);
    assert Neighbour(w, d) == ChunkToWorld(chunk.position, nc);
    LocalRoundTrip(chunk.position, c);
    var b := Neighbour(w, d);
    var other := WorldToChunkPosition(b.0, b.2);
    assert other != chunk.position by {
      if nc.0 < 0 || nc.0 >= CHUNK_WIDTH {
        assert b.0 == nc.0 + chunk.position.0 * CHUNK_WIDTH;
      } else {
        assert b.2 == nc.2 + chunk.position.1 * CHUNK_WIDTH;
      }
    }
    var adjacent := AdjacentChunks(chunks, chunk.position);
    AdjacentChunksFacts(chunks, chunk.position);
    assert FindInSnapshot(adjacent, chunk.position).None?;
  }

  /** Up and Down never leave the chunk's column: at the top layer the Up
      test reads layer 0 of the same column, at the bottom layer the Down
      test reads the top layer. */
  lemma VerticalNeighboursWrap(chunk: Chunk, adjacent: seq<Option<Chunk>>, c: Local)
    requires Populated(chunk.blocks) && SnapshotPopulated(adjacent) && PositionsMatch(chunk)
    requires InChunk(c)
    ensures c.1 == CHUNK_HEIGHT - 1 ==>
      (IsAdjacent(chunk.blocks[c].position, Up, chunk, adjacent) <==> chunk.blocks[(c.0, 0, c.2)].kind != Air)
    ensures c.1 == 0 ==>
      (IsAdjacent(chunk.blocks[c].position, Down, chunk, adjacent)
       <==> chunk.blocks[(c.0, CHUNK_HEIGHT - 1, c.2)].kind != Air)
  {
    LocalRoundTrip(chunk.position, c);
  }

  /** The faces of a chunk whose only non-Air voxels are at `a` and `b`
      are the faces of `a` followed by those of `b`, counted. */
  lemma {:induction false} FacesOfTwoSolids(chunk: Chunk, adjacent: seq<Option<Chunk>>, order: seq<Local>, a: Local, b: Local)
    requires Populated(chunk.blocks) && SnapshotPopulated(adjacent)
    requires NoDuplicates(order) && forall k :: 0 <= k < |order| ==> order[k] in chunk.blocks
    requires a != b && a in chunk.blocks && b in chunk.blocks
    requires forall k :: 0 <= k < |order| && order[k] != a && order[k] != b ==> chunk.blocks[order[k]].kind == Air
    ensures |ChunkFaces(chunk, adjacent, order)|
            == (if a in order then |VoxelFaces(chunk, adjacent, a)| else 0)
             + (if b in order then |VoxelFaces(chunk, adjacent, b)| else 0)
  {
    if order != [] {
      var n := |order| - 1;
      var init := order[..n];
      assert order == init + [order[n]];
      assert forall c :: c in order <==> c in init || c == order[n];
      assert order[n] !in init;
      FacesOfTwoSolids(chunk, adjacent, init, a, b);
    }
  }

  /** A non-Air voxel away from the chunk's borders, whose neighbours are
      all Air except at most the one in direction `covered`: one face per
      uncovered direction. */
  lemma InteriorVoxelFaces(chunk: Chunk, adjacent: seq<Option<Chunk>>, c: Local, covered: Option<FaceDirection>)
    requires Populated(chunk.blocks) && SnapshotPopulated(adjacent) && PositionsMatch(chunk)
    requires Interior(c)
    requires chunk.blocks[c].kind != Air
    requires forall d: FaceDirection :: chunk.blocks[Neighbour(c, d)].kind != Air <==> covered == Some(d)
    ensures |VoxelFaces(chunk, adjacent, c)| == if covered.Some? then 5 else 6
  {
    var p := chunk.blocks[c].position;
    forall d: FaceDirection ensures IsAdjacent(p, d, chunk, adjacent) <==> covered == Some(d) {
      SameChunkRule(chunk, adjacent, c, d);
    }
    AllDirectionsComplete();
    DirFacesCount(p, AllDirections(), chunk, adjacent, covered);
  }

  /** The voxel lies at least one cell away from every side of the chunk. */
  predicate Interior(c: Local) {
    1 <= c.0 < CHUNK_WIDTH - 1 && 1 <= c.1 < CHUNK_HEIGHT - 1 && 1 <= c.2 < CHUNK_WIDTH - 1
  }

  /** The mesh of a chunk whose only non-Air voxels are `a` and `b`, both
      interior, each with at most one non-Air neighbour (`da`, `db`): one
      quad per uncovered face. */
  lemma TwoSolidsMesh(chunk: Chunk, adjacent: seq<Option<Chunk>>, order: seq<Local>,
                      a: Local, da: Option<FaceDirection>, b: Local, db: Option<FaceDirection>)
    requires Populated(chunk.blocks) && SnapshotPopulated(adjacent) && PositionsMatch(chunk)
    requires IsOrderOf(order, chunk)
    requires a != b && Interior(a) && Interior(b)
    requires chunk.blocks[a].kind != Air && chunk.blocks[b].kind != Air
    requires forall c :: c in chunk.blocks && c != a && c != b ==> chunk.blocks[c].kind == Air
    requires forall d: FaceDirection :: chunk.blocks[Neighbour(a, d)].kind != Air <==> da == Some(d)
    requires forall d: FaceDirection :: chunk.blocks[Neighbour(b, d)].kind != Air <==> db == Some(d)
    ensures var q := (if da.Some? then 5 else 6) + (if db.Some? then 5 else 6);
            var r := MeshOf(Mesh([], []), ChunkFaces(chunk, adjacent, order));
            |r.vertices| == 4 * q && |r.indices| == 6 * q
  {
    InLocalDomain(a);
    InLocalDomain(b);
    InteriorVoxelFaces(chunk, adjacent, a, da);
    InteriorVoxelFaces(chunk, adjacent, b, db);
    FacesOfTwoSolids(chunk, adjacent, order, a, b);
    MeshOfCount(Mesh([], []), ChunkFaces(chunk, adjacent, order));
  }

  /** The mesh of a chunk whose only non-Air voxel is the interior voxel
      `a`: its six faces. */
  lemma OneSolidMesh(chunk: Chunk, adjacent: seq<Option<Chunk>>, order: seq<Local>, a: Local)
    requires Populated(chunk.blocks) && SnapshotPopulated(adjacent) && PositionsMatch(chunk)
    requires IsOrderOf(order, chunk)
    requires Interior(a) && chunk.blocks[a].kind != Air
    requires forall c :: c in chunk.blocks && c != a ==> chunk.blocks[c].kind == Air
    ensures var r := MeshOf(Mesh([], []), ChunkFaces(chunk, adjacent, order));
            |r.vertices| == 24 && |r.indices| == 36
  {
    var b := (0, 0, 0);
    InLocalDomain(a);
    InLocalDomain(b);
    forall d: FaceDirection ensures chunk.blocks[Neighbour(a, d)].kind != Air <==> None == Some(d) {
      InLocalDomain(Neighbour(a, d));
    }
    InteriorVoxelFaces(chunk, adjacent, a, None);
    FacesOfTwoSolids(chunk, adjacent, order, a, b);
    MeshOfCount(Mesh([], []), ChunkFaces(chunk, adjacent, order));
  }

  /** One Grass voxel at local (1, 1, 1) of an otherwise Air chunk (the
      SingleVoxels test strategy on a fresh chunk) meshes to 6 quads: 24
      vertices and 36 indices, whatever the map's iteration order. */
  lemma SingleVoxelMesh(position: (int, int), noise: ChunkBuilder.NoiseField, adjacent: seq<Option<Chunk>>, order: seq<Local>)
    requires SnapshotPopulated(adjacent)
    requires var chunk := ChunkBuilder.Applied(ChunkBuilder.SingleVoxels([(1, 1, 1)]), NewChunk(position), noise);
             IsOrderOf(order, chunk)
    ensures var chunk := ChunkBuilder.Applied(ChunkBuilder.SingleVoxels([(1, 1, 1)]), NewChunk(position), noise);
            var r := MeshOf(Mesh([], []), ChunkFaces(chunk, adjacent, order));
            |r.vertices| == 24 && |r.indices| == 36
  {
    var chunk := ChunkBuilder.Applied(ChunkBuilder.SingleVoxels([(1, 1, 1)]), NewChunk(position), noise);
    InLocalDomain((1, 1, 1));
    forall c | c in chunk.blocks && c != (1, 1, 1) ensures chunk.blocks[c].kind == Air {
      ChunkBuilder.SingleVoxelsMarks(NewChunk(position), noise, [(1, 1, 1)], c);
    }
    OneSolidMesh(chunk, adjacent, order, (1, 1, 1));
  }

  /** The SingleVoxels strategy with (1, 1, 1) and (2, 1, 1) on a fresh
      chunk: those two are Grass, every other voxel is Air, and each one's
      only non-Air neighbour is the other. */
  lemma TwoVoxelChunk(position: (int, int), noise: ChunkBuilder.NoiseField)
    ensures var chunk := ChunkBuilder.Applied(ChunkBuilder.SingleVoxels([(1, 1, 1), (2, 1, 1)]), NewChunk(position), noise);
            && Populated(chunk.blocks) && PositionsMatch(chunk)
            && (1, 1, 1) in chunk.blocks && (2, 1, 1) in chunk.blocks
            && chunk.blocks[(1, 1, 1)].kind != Air && chunk.blocks[(2, 1, 1)].kind != Air
            && (forall c :: c in chunk.blocks && c != (1, 1, 1) && c != (2, 1, 1) ==> chunk.blocks[c].kind == Air)
            && (forall d: FaceDirection :: chunk.blocks[Neighbour((1, 1, 1), d)].kind != Air <==> Some(Right) == Some(d))
            && (forall d: FaceDirection :: chunk.blocks[Neighbour((2, 1, 1), d)].kind != Air <==> Some(Left) == Some(d))
  {
    var list := [(1, 1, 1), (2, 1, 1)];
    var chunk := ChunkBuilder.Applied(ChunkBuilder.SingleVoxels(list), NewChunk(position), noise);
    InLocalDomain((1, 1, 1));
    InLocalDomain((2, 1, 1));
    forall c | c in chunk.blocks && c != (1, 1, 1) && c != (2, 1, 1) ensures chunk.blocks[c].kind == Air {
      ChunkBuilder.SingleVoxelsMarks(NewChunk(position), noise, list, c);
    }
    forall d: FaceDirection ensures
      (chunk.blocks[Neighbour((1, 1, 1), d)].kind != Air <==> Some(Right) == Some(d))
      && (chunk.blocks[Neighbour((2, 1, 1), d)].kind != Air <==> Some(Left) == Some(d))
    {
      InLocalDomain(Neighbour((1, 1, 1), d));
      InLocalDomain(Neighbour((2, 1, 1), d));
    }
  }

  /** Grass at local (1, 1, 1) and (2, 1, 1) of an otherwise Air chunk: the
      shared face is culled on both sides, leaving 10 quads, 40 vertices and
      60 indices. */
  lemma TwoVoxelMesh(position: (int, int), noise: ChunkBuilder.NoiseField, adjacent: seq<Option<Chunk>>, order: seq<Local>)
    requires SnapshotPopulated(adjacent)
    requires var chunk := ChunkBuilder.Applied(ChunkBuilder.SingleVoxels([(1, 1, 1), (2, 1, 1)]), NewChunk(position), noise);
             IsOrderOf(order, chunk)
    ensures var chunk := ChunkBuilder.Applied(ChunkBuilder.SingleVoxels([(1, 1, 1), (2, 1, 1)]), NewChunk(position), noise);
            var r := MeshOf(Mesh([], []), ChunkFaces(chunk, adjacent, order));
            |r.vertices| == 40 && |r.indices| == 60
  {
    var chunk := ChunkBuilder.Applied(ChunkBuilder.SingleVoxels([(1, 1, 1), (2, 1, 1)]), NewChunk(position), noise);
    TwoVoxelChunk(position, noise);
    TwoSolidsMesh(chunk, adjacent, order, (1, 1, 1), Some(Right), (2, 1, 1), Some(Left));
  }

  lemma MeshOfStep(m: Mesh, faces: seq<Face>, f: Face)
    ensures MeshOf(m, faces + [f]) == WithQuad(MeshOf(m, faces), f.0, f.1)
  {
    assert (faces + [f])[..|faces|] == faces;
  }

  lemma DirFacesStep(p: Local, dirs: seq<FaceDirection>, j: nat, chunk: Chunk, adjacent: seq<Option<Chunk>>)
    requires Populated(chunk.blocks) && SnapshotPopulated(adjacent) && j < |dirs|
    ensures DirFaces(p, dirs[..j + 1], chunk, adjacent)
            == DirFaces(p, dirs[..j], chunk, adjacent) + if IsAdjacent(p, dirs[j], chunk, adjacent) then [] else [(p, dirs[j])]
  {
    assert dirs[..j + 1][..j] == dirs[..j];
  }

  lemma ChunkFacesStep(chunk: Chunk, adjacent: seq<Option<Chunk>>, order: seq<Local>, k: nat)
    requires Populated(chunk.blocks) && SnapshotPopulated(adjacent)
    requires forall i :: 0 <= i < |order| ==> order[i] in chunk.blocks
    requires k < |order|
    ensures ChunkFaces(chunk, adjacent, order[..k + 1])
            == ChunkFaces(chunk, adjacent, order[..k]) + VoxelFaces(chunk, adjacent, order[k])
  {
    assert order[..k + 1][..k] == order[..k];
  }

  lemma AllFacesStep(chunks: seq<Chunk>, orders: seq<seq<Local>>, i: nat)
    requires MeshInput(chunks, orders) && i < |chunks|
    ensures Populated(chunks[i].blocks)
    ensures SnapshotPopulated(AdjacentChunks(chunks, chunks[i].position))
    ensures forall k :: 0 <= k < |orders[i]| ==> orders[i][k] in chunks[i].blocks
    ensures AllFaces(chunks, orders, i + 1) == AllFaces(chunks, orders, i) + ChunkMeshFaces(chunks, orders, i)
  {
    assert IsOrderOf(orders[i], chunks[i]);
  }

  class MeshBuilder {
    /** The mesh being built. */
    var mesh: Mesh

    /** A builder with an empty mesh. */
    constructor ()
      ensures mesh == Mesh([], [])
    {
      mesh := Mesh([], []);
    }

    /** Meshes every chunk of the list against its eight neighbours and
        returns the mesh. */
    method BuildMesh(chunks: seq<Chunk>, orders: seq<seq<Local>>) returns (r: Mesh)
      requires MeshInput(chunks, orders)
      modifies this
      ensures r == mesh == MeshOf(old(mesh), AllFaces(chunks, orders, |chunks|))
    {
      ghost var m0 := mesh;
      for i := 0 to |chunks|
        invariant mesh == MeshOf(m0, AllFaces(chunks, orders, i))
      {
        AllFacesStep(chunks, orders, i);
        ghost var faces := AllFaces(chunks, orders, i);
        BuildChunkAt(chunks, orders, i);
        MeshOfAppend(m0, faces, ChunkMeshFaces(chunks, orders, i));
      }
      r := mesh;
    }

    /** One iteration of `build_mesh`'s loop: meshes the `i`-th chunk against
        its snapshot of neighbours. */
    method BuildChunkAt(chunks: seq<Chunk>, orders: seq<seq<Local>>, i: nat)
      requires MeshInput(chunks, orders) && i < |chunks|
      modifies this
      ensures mesh == MeshOf(old(mesh), ChunkMeshFaces(chunks, orders, i))
    {
      var chunk := chunks[i];
      var adjacentChunks := AdjacentChunks(chunks, chunk.position);
      AllFacesStep(chunks, orders, i);
      BuildChunkMesh(chunk, adjacentChunks, orders[i]);
    }

    /** Adds the faces of every non-Air voxel of `chunk`, visiting the voxels
        in `order`. */
    method BuildChunkMesh(chunk: Chunk, adjacentChunks: seq<Option<Chunk>>, order: seq<Local>)
      requires Populated(chunk.blocks) && SnapshotPopulated(adjacentChunks)
      requires forall k :: 0 <= k < |order| ==> order[k] in chunk.blocks
      modifies this
      ensures mesh == MeshOf(old(mesh), ChunkFaces(chunk, adjacentChunks, order))
    {
      ghost var m0 := mesh;
      for k := 0 to |order|
        invariant mesh == MeshOf(m0, ChunkFaces(chunk, adjacentChunks, order[..k]))
      {
        ChunkFacesStep(chunk, adjacentChunks, order, k);
        ghost var faces := ChunkFaces(chunk, adjacentChunks, order[..k]);
        var voxel := chunk.blocks[order[k]];
        if voxel.kind == Air {
          assert ChunkFaces(chunk, adjacentChunks, order[..k + 1]) == faces;
          continue;
        }
        AddVoxelFaces(voxel, chunk, adjacentChunks);
        MeshOfAppend(m0, faces, VoxelFaces(chunk, adjacentChunks, order[k]));
      }
      assert order[..|order|] == order;
    }

    /** The direction loop of `build_chunk_mesh` for one non-Air voxel. */
    method AddVoxelFaces(voxel: Voxel, chunk: Chunk, adjacentChunks: seq<Option<Chunk>>)
      requires Populated(chunk.blocks) && SnapshotPopulated(adjacentChunks)
      modifies this
      ensures mesh == MeshOf(old(mesh), DirFaces(voxel.position, AllDirections(), chunk, adjacentChunks))
    {
      var directions := AllDirections();
      ghost var m0 := mesh;
      for j := 0 to |directions|
        invariant mesh == MeshOf(m0, DirFaces(voxel.position, directions[..j], chunk, adjacentChunks))
      {
        DirFacesStep(voxel.position, directions, j, chunk, adjacentChunks);
        ghost var faces := DirFaces(voxel.position, directions[..j], chunk, adjacentChunks);
        ghost var next := DirFaces(voxel.position, directions[..j + 1], chunk, adjacentChunks);
        AddQuadIfNotAdjacent(voxel.position, directions[j], chunk, adjacentChunks);
        if IsAdjacent(voxel.position, directions[j], chunk, adjacentChunks) {
          assert next == faces;
        } else {
          assert next == faces + [(voxel.position, directions[j])];
          MeshOfStep(m0, faces, (voxel.position, directions[j]));
        }
      }
      assert directions[..|directions|] == directions;
    }

    /** Adds the face of the voxel at `position` in `direction` unless the
        neighbouring cell is non-Air. */
    method AddQuadIfNotAdjacent(position: Local, direction: FaceDirection, chunk: Chunk, adjacentChunks: seq<Option<Chunk>>)
      requires Populated(chunk.blocks) && SnapshotPopulated(adjacentChunks)
      modifies this
      ensures mesh == if IsAdjacent(position, direction, chunk, adjacentChunks) then old(mesh)
                      else WithQuad(old(mesh), position, direction)
    {
      if !IsAdjacent(position, direction, chunk, adjacentChunks) {
        AddQuad(position, direction);
      }
    }

    /** Appends the six indices of one quad, numbered from one past the
        largest index so far, and the face's four corners. */
    method AddQuad(position: Local, direction: FaceDirection)
      modifies this
      ensures mesh == WithQuad(old(mesh), position, direction)
    {
      var indexOffset := match Max(mesh.indices) case Some(m) => m + 1 case None => 0;
      var indices := mesh.indices;
      indices := indices + [indexOffset + 0];
      indices := indices + [indexOffset + 1];
      indices := indices + [indexOffset + 2];
      indices := indices + [indexOffset + 2];
      indices := indices + [indexOffset + 3];
      indices := indices + [indexOffset + 0];
      var positions := FaceVertices(position, direction);
      var vertices := mesh.vertices;
      for k := 0 to |positions|
        invariant vertices == old(mesh.vertices) + positions[..k]
      {
        assert positions[..k + 1] == positions[..k] + [positions[k]];
        vertices := vertices + [positions[k]];
      }
      assert positions[..|positions|] == positions;
      mesh := Mesh(vertices, indices);
    }
  }
}
