/** The first mesh builder: it meshes a flat list of voxels, emits a face of
    a non-Air voxel only where the list holds an Air voxel at the neighbouring
    position, and draws every face as the same unit square in the voxel's
    z plane, whichever side the neighbour is on. */
module LegacyMesh {
  import opened Utils
  import opened VoxelTypes
  import opened MeshIndexing

  /** The vertices (whole-number corners) and the triangle indices. */
  datatype Mesh = Mesh(vertices: seq<Local>, indices: seq<nat>)

  /** A face that passed the exposure test: the position of the voxel and
      the offset of the Air neighbour that exposed it. */
  type Face = (Local, Local)

  /** The six neighbour offsets in the order `build_mesh` visits them:
      right, left, top, bottom, front, back. */
  function Offsets(): (r: seq<Local>)
    ensures |r| == 6
  {
    [(1, 0, 0), (-1, 0, 0), (0, 1, 0), (0, -1, 0), (0, 0, 1), (0, 0, -1)]
  }

  /** Each offset is a step of one along exactly one axis, and each of the
      six such steps occurs once. */
  lemma OffsetsAreUnitSteps()
    ensures NoDuplicates(Offsets())
    ensures forall k :: 0 <= k < 6 ==>
              var o := Offsets()[k];
              (o.0 == 0 && o.1 == 0 && (o.2 == 1 || o.2 == -1))
              || (o.0 == 0 && (o.1 == 1 || o.1 == -1) && o.2 == 0)
              || ((o.0 == 1 || o.0 == -1) && o.1 == 0 && o.2 == 0)
  {
  }

  function Shift(p: Local, o: Local): Local {
    (p.0 + o.0, p.1 + o.1, p.2 + o.2)
  }

  /** The exposure test: some voxel of the list sits at `face` and is Air. */
  function AnyAirAt(voxels: seq<Voxel>, face: Local): bool {
    if voxels == [] then false
    else (voxels[0].position == face && voxels[0].kind == Air) || AnyAirAt(voxels[1..], face)
  }

  /** The test holds exactly when some voxel of the list is Air at `face`. */
  lemma {:induction false} AnyAirAtExists(voxels: seq<Voxel>, face: Local)
    ensures AnyAirAt(voxels, face) <==> exists k :: 0 <= k < |voxels| && voxels[k].position == face && voxels[k].kind == Air
  {
    if voxels != [] {
      AnyAirAtExists(voxels[1..], face);
      assert forall k :: 1 <= k < |voxels| ==> voxels[k] == voxels[1..][k - 1];
    }
  }

  /** The four corners `add_quad` pushes, in order. */
  function QuadCorners(p: Local, size: (int, int)): (r: seq<Local>)
    ensures |r| == 4
  {
    [(p.0, p.1, p.2), (p.0 + size.0, p.1, p.2), (p.0 + size.0, p.1 + size.1, p.2), (p.0, p.1 + size.1, p.2)]
  }

  /** The corners span a size.0 by size.1 rectangle from `p` in the plane
      z = p.z, anticlockwise from `p`. */
  lemma QuadCornersShape(p: Local, size: (int, int))
    ensures var r := QuadCorners(p, size);
            && (forall k :: 0 <= k < 4 ==> r[k].2 == p.2)
            && r[0] == p
            && r[1].0 == r[2].0 == p.0 + size.0 && r[0].0 == r[3].0 == p.0
            && r[2].1 == r[3].1 == p.1 + size.1 && r[0].1 == r[1].1 == p.1
  {
  }

  /** The quad size `build_mesh` always passes. */
  const UNIT: (int, int) := (1, 1)

  /** The mesh after `add_quad(p, size)`: the new quad is numbered from the
      current vertex count. */
  function WithQuad(m: Mesh, p: Local, size: (int, int)): Mesh {
    Mesh(m.vertices + QuadCorners(p, size), m.indices + QuadIndices(|m.vertices|))
  }

  /** Six indices per four vertices, and every index names a vertex. */
  predicate Consistent(m: Mesh) {
    && 4 * |m.indices| == 6 * |m.vertices|
    && forall k :: 0 <= k < |m.indices| ==> m.indices[k] < |m.vertices|
  }

  lemma WithQuadConsistent(m: Mesh, p: Local, size: (int, int))
    requires Consistent(m)
    ensures Consistent(WithQuad(m, p, size))
  {
    var r := WithQuad(m, p, size);
    forall k | 0 <= k < |r.indices| ensures r.indices[k] < |r.vertices| {
      if k >= |m.indices| {
        assert r.indices[k] == QuadIndices(|m.vertices|)[k - |m.indices|];
      }
    }
  }

  /** The faces `build_mesh` finds for a voxel at `p` among `offsets`, in
      offset order. */
  function ExposedFaces(data: seq<Voxel>, p: Local, offsets: seq<Local>): (r: seq<Face>)
    ensures |r| <= |offsets|
  {
    if offsets == [] then []
    else
      var n := |offsets| - 1;
      var rest := ExposedFaces(data, p, offsets[..n]);
      if AnyAirAt(data, Shift(p, offsets[n])) then rest + [(p, offsets[n])] else rest
  }

  /** A face is found exactly for the offsets whose neighbour position holds
      an Air voxel of the list; a neighbour missing from the list exposes
      nothing. */
  lemma {:induction false} ExposedFacesMembers(data: seq<Voxel>, p: Local, offsets: seq<Local>, f: Face)
    ensures f in ExposedFaces(data, p, offsets) <==> f.0 == p && f.1 in offsets && AnyAirAt(data, Shift(p, f.1))
  {
    if offsets != [] {
      var n := |offsets| - 1;
      ExposedFacesMembers(data, p, offsets[..n], f);
      assert offsets == offsets[..n] + [offsets[n]];
    }
  }

  /** With distinct offsets, no face is found twice. */
  lemma {:induction false} ExposedFacesDistinct(data: seq<Voxel>, p: Local, offsets: seq<Local>)
    requires NoDuplicates(offsets)
    ensures NoDuplicates(ExposedFaces(data, p, offsets))
  {
    if offsets != [] {
      var n := |offsets| - 1;
      var init := offsets[..n];
      ExposedFacesDistinct(data, p, init);
      var rest := ExposedFaces(data, p, init);
      ExposedFacesMembers(data, p, init, (p, offsets[n]));
      assert offsets[n] !in init;
      assert (p, offsets[n]) !in rest;
    }
  }

  lemma {:induction false} ExposedFacesAppend(data: seq<Voxel>, p: Local, a: seq<Local>, b: seq<Local>)
    ensures ExposedFaces(data, p, a + b) == ExposedFaces(data, p, a) + ExposedFaces(data, p, b)
    decreases |b|
  {
    if b == [] {
      assert a + b == a;
    } else {
      var n := |b| - 1;
      assert (a + b)[..|a + b| - 1] == a + b[..n];
      assert (a + b)[|a + b| - 1] == b[n];
      ExposedFacesAppend(data, p, a, b[..n]);
    }
  }

  /** No offset reaches an Air voxel, so no face is found. */
  lemma ExposedFacesNone(data: seq<Voxel>, p: Local, offsets: seq<Local>)
    requires forall k :: 0 <= k < |offsets| ==> !AnyAirAt(data, Shift(p, offsets[k]))
    ensures ExposedFaces(data, p, offsets) == []
  {
    if ExposedFaces(data, p, offsets) != [] {
      var f := ExposedFaces(data, p, offsets)[0];
      ExposedFacesMembers(data, p, offsets, f);
    }
  }

  /** The faces of one voxel: none for Air, else one per exposing offset. */
  function VoxelFaces(data: seq<Voxel>, v: Voxel): (r: seq<Face>)
    ensures |r| <= 6
  {
    if v.kind == Air then [] else ExposedFaces(data, v.position, Offsets())
  }

  /** The faces of `voxels` in visiting order, voxel-major, then by offset. */
  function AllFaces(data: seq<Voxel>, voxels: seq<Voxel>): seq<Face> {
    if voxels == [] then []
    else
      var n := |voxels| - 1;
      AllFaces(data, voxels[..n]) + VoxelFaces(data, voxels[n])
  }

  /** Some non-Air voxel of the list sits at `p`. */
  predicate SolidAt(voxels: seq<Voxel>, p: Local) {
    exists i :: 0 <= i < |voxels| && voxels[i].kind != Air && voxels[i].position == p
  }

  lemma SolidAtStep(voxels: seq<Voxel>, p: Local)
    requires voxels != []
    ensures var n := |voxels| - 1;
            SolidAt(voxels, p) <==> SolidAt(voxels[..n], p) || (voxels[n].kind != Air && voxels[n].position == p)
  {
    var n := |voxels| - 1;
    if SolidAt(voxels, p) {
      var i :| 0 <= i < |voxels| && voxels[i].kind != Air && voxels[i].position == p;
      if i < n {
        assert voxels[..n][i] == voxels[i];
      }
    }
    if SolidAt(voxels[..n], p) {
      var i :| 0 <= i < n && voxels[..n][i].kind != Air && voxels[..n][i].position == p;
      assert voxels[i] == voxels[..n][i];
    }
  }

  lemma AllFacesStep(data: seq<Voxel>, voxels: seq<Voxel>, i: nat)
    requires i < |voxels|
    ensures AllFaces(data, voxels[..i + 1]) == AllFaces(data, voxels[..i]) + VoxelFaces(data, voxels[i])
  {
    assert voxels[..i + 1][..i] == voxels[..i];
  }

  lemma ExposedFacesStep(data: seq<Voxel>, p: Local, offsets: seq<Local>, j: nat)
    requires j < |offsets|
    ensures ExposedFaces(data, p, offsets[..j + 1])
            == ExposedFaces(data, p, offsets[..j]) + if AnyAirAt(data, Shift(p, offsets[j])) then [(p, offsets[j])] else []
  {
    assert offsets[..j + 1][..j] == offsets[..j];
  }

  /** A face is found exactly when it belongs to a non-Air voxel of the
      list and one of the six offsets leads from it to an Air voxel. */
  lemma {:induction false} AllFacesMembers(data: seq<Voxel>, voxels: seq<Voxel>, f: Face)
    ensures f in AllFaces(data, voxels) <==>
              SolidAt(voxels, f.0) && f.1 in Offsets() && AnyAirAt(data, Shift(f.0, f.1))
  {
    if voxels != [] {
      var n := |voxels| - 1;
      AllFacesMembers(data, voxels[..n], f);
      ExposedFacesMembers(data, voxels[n].position, Offsets(), f);
      SolidAtStep(voxels, f.0);
    }
  }

  /** At most six faces per voxel. */
  lemma {:induction false} AllFacesCount(data: seq<Voxel>, voxels: seq<Voxel>)
    ensures |AllFaces(data, voxels)| <= 6 * |voxels|
  {
    if voxels != [] {
      AllFacesCount(data, voxels[..|voxels| - 1]);
    }
  }

  /** A list without Air voxels exposes nothing, so its mesh is empty. */
  lemma NoAirNoFaces(data: seq<Voxel>, voxels: seq<Voxel>)
    requires forall k :: 0 <= k < |data| ==> data[k].kind != Air
    ensures AllFaces(data, voxels) == []
  {
    if AllFaces(data, voxels) != [] {
      var f := AllFaces(data, voxels)[0];
      AllFacesMembers(data, voxels, f);
      AnyAirAtExists(data, Shift(f.0, f.1));
    }
  }

  /** The mesh after one quad of size `UNIT` per face, in order. */
  function MeshOf(m: Mesh, faces: seq<Face>): Mesh {
    if faces == [] then m
    else
      var n := |faces| - 1;
      WithQuad(MeshOf(m, faces[..n]), faces[n].0, UNIT)
  }

  lemma MeshOfStep(m: Mesh, faces: seq<Face>, f: Face)
    ensures MeshOf(m, faces + [f]) == WithQuad(MeshOf(m, faces), f.0, UNIT)
  {
    assert (faces + [f])[..|faces|] == faces;
  }

  lemma MeshOfAppend(m: Mesh, a: seq<Face>, b: seq<Face>)
    ensures MeshOf(m, a + b) == MeshOf(MeshOf(m, a), b)
    decreases |b|
  {
    if b != [] {
      assert (a + b)[..|a + b| - 1] == a + b[..|b| - 1];
      MeshOfAppend(m, a, b[..|b| - 1]);
    } else {
      assert a + b == a;
    }
  }

  /** Every quad adds four vertices, so the vertex count is known. */
  lemma {:induction false} MeshOfCount(m: Mesh, faces: seq<Face>)
    ensures |MeshOf(m, faces).vertices| == |m.vertices| + 4 * |faces|
  {
    if faces != [] {
      MeshOfCount(m, faces[..|faces| - 1]);
    }
  }

  /** A consistent mesh stays consistent: 6 indices per 4 vertices and every
      index below the vertex count. */
  lemma {:induction false} MeshOfConsistent(m: Mesh, faces: seq<Face>)
    requires Consistent(m)
    ensures Consistent(MeshOf(m, faces))
  {
    if faces != [] {
      var n := |faces| - 1;
      MeshOfConsistent(m, faces[..n]);
      WithQuadConsistent(MeshOf(m, faces[..n]), faces[n].0, UNIT);
    }
  }

  /** Quad j is numbered from the old vertex count plus 4j. */
  lemma {:induction false} MeshOfIndices(m: Mesh, faces: seq<Face>)
    ensures MeshOf(m, faces).indices == m.indices + QuadIndicesFrom(|m.vertices|, |faces|)
  {
    if faces != [] {
      var n := |faces| - 1;
      MeshOfIndices(m, faces[..n]);
      MeshOfCount(m, faces[..n]);
      QuadIndicesFromStep(m.indices, |m.vertices|, n);
    }
  }

  /** The corners of the faces' quads, four per face, in order. */
  function Corners(faces: seq<Face>): (r: seq<Local>)
    ensures |r| == 4 * |faces|
  {
    if faces == [] then []
    else
      var n := |faces| - 1;
      Corners(faces[..n]) + QuadCorners(faces[n].0, UNIT)
  }

  /** Vertex k of the corners is corner k % 4 of the unit square at the
      position of face k / 4, so every vertex lies in that voxel's z plane. */
  lemma {:induction false} CornersOfFaces(faces: seq<Face>)
    ensures forall k :: 0 <= k < 4 * |faces| ==>
              Corners(faces)[k] == QuadCorners(faces[k / 4].0, UNIT)[k % 4]
              && Corners(faces)[k].2 == faces[k / 4].0.2
  {
    if faces != [] {
      var n := |faces| - 1;
      CornersOfFaces(faces[..n]);
      var r := Corners(faces);
      forall k | 0 <= k < 4 * |faces|
        ensures r[k] == QuadCorners(faces[k / 4].0, UNIT)[k % 4] && r[k].2 == faces[k / 4].0.2
      {
        QuadCornersShape(faces[k / 4].0, UNIT);
        if k < 4 * n {
          assert r[k] == Corners(faces[..n])[k];
          assert faces[..n][k / 4] == faces[k / 4];
        } else {
          assert k / 4 == n;
          assert r[k] == QuadCorners(faces[n].0, UNIT)[k - 4 * n];
        }
      }
    }
  }

  /** Adding quads appends their corners. */
  lemma {:induction false} MeshOfVertices(m: Mesh, faces: seq<Face>)
    ensures MeshOf(m, faces).vertices == m.vertices + Corners(faces)
  {
    if faces != [] {
      MeshOfVertices(m, faces[..|faces| - 1]);
    }
  }

  /** A Grass voxel with nothing around it gets no face: a missing
      neighbour is not Air. */
  lemma LoneVoxelHasNoFaces()
    ensures var data := [Voxel((0, 0, 0), Grass)];
            MeshOf(Mesh([], []), AllFaces(data, data)) == Mesh([], [])
  {
    var data := [Voxel((0, 0, 0), Grass)];
    NoAirNoFaces(data, data);
  }

  /** A Grass voxel at the origin and an Air voxel to its right. */
  function RightNeighbourData(): seq<Voxel> {
    [Voxel((0, 0, 0), Grass), Voxel((1, 0, 0), Air)]
  }

  lemma RightNeighbourAir(face: Local)
    ensures AnyAirAt(RightNeighbourData(), face) <==> face == (1, 0, 0)
  {
    var data := RightNeighbourData();
    var tail := data[1..];
    assert tail == [Voxel((1, 0, 0), Air)];
    assert tail[1..] == [];
    assert !AnyAirAt(tail[1..], face);
    assert AnyAirAt(tail, face) <==> face == (1, 0, 0);
  }

  /** Of the six offsets from the origin only the first, right, reaches the
      Air voxel. */
  lemma RightNeighbourExposure()
    ensures ExposedFaces(RightNeighbourData(), (0, 0, 0), Offsets()) == [((0, 0, 0), (1, 0, 0))]
  {
    var data := RightNeighbourData();
    var p := (0, 0, 0);
    var offsets := Offsets();
    var first := offsets[..1];
    var rest := offsets[1..];
    assert offsets == first + rest;
    ExposedFacesAppend(data, p, first, rest);
    RightNeighbourAir(Shift(p, offsets[0]));
    assert first[..0] == [];
    forall k | 0 <= k < |rest| ensures !AnyAirAt(data, Shift(p, rest[k])) {
      RightNeighbourAir(Shift(p, rest[k]));
    }
    ExposedFacesNone(data, p, rest);
  }

  /** The Air voxel itself is skipped, so the only face is the Grass voxel's
      right face. */
  lemma RightNeighbourFaces()
    ensures AllFaces(RightNeighbourData(), RightNeighbourData()) == [((0, 0, 0), (1, 0, 0))]
  {
    var data := RightNeighbourData();
    RightNeighbourExposure();
    AllFacesStep(data, data, 0);
    AllFacesStep(data, data, 1);
    assert data[..0] == [] && data[..2] == data;
  }

  /** A Grass voxel with an Air voxel to its right gets exactly the one face
      that offset exposes: a unit square in its own z plane. */
  lemma AirOnTheRight()
    ensures MeshOf(Mesh([], []), AllFaces(RightNeighbourData(), RightNeighbourData()))
            == Mesh([(0, 0, 0), (1, 0, 0), (1, 1, 0), (0, 1, 0)], [0, 1, 2, 2, 3, 0])
  {
    RightNeighbourFaces();
    var right: Face := ((0, 0, 0), (1, 0, 0));
    assert [right][..0] == [];
  }

  class MeshBuilder {
    /** The voxels to mesh. */
    const voxelData: seq<Voxel>
    /** The mesh being built. */
    var mesh: Mesh

    /** A builder over `voxelData` with an empty mesh. */
    constructor (voxelData: seq<Voxel>)
      ensures this.voxelData == voxelData && mesh == Mesh([], [])
    {
      this.voxelData := voxelData;
      mesh := Mesh([], []);
    }

    /** Adds a quad for every face `AllFaces` finds, voxel by voxel and
        offset by offset, and returns the mesh. */
    method BuildMesh() returns (r: Mesh)
      modifies this
      ensures r == mesh == MeshOf(old(mesh), AllFaces(voxelData, voxelData))
    {
      var voxels := voxelData;
      ghost var m0 := mesh;
      for i := 0 to |voxels|
        invariant mesh == MeshOf(m0, AllFaces(voxelData, voxels[..i]))
      {
        var voxel := voxels[i];
        AllFacesStep(voxelData, voxels, i);
        ghost var faces := AllFaces(voxelData, voxels[..i]);
        if voxel.kind == Air {
          assert AllFaces(voxelData, voxels[..i + 1]) == faces;
          continue;
        }
        AddVoxelFaces(voxel);
        MeshOfAppend(m0, faces, VoxelFaces(voxelData, voxel));
      }
      assert voxels[..|voxels|] == voxels;
      r := mesh;
    }

    /** The offset loop of `build_mesh` for one non-Air voxel: a quad at the
        voxel's position for each offset whose neighbour is an Air voxel of
        the list. */
    method AddVoxelFaces(voxel: Voxel)
      requires voxel.kind != Air
      modifies this
      ensures mesh == MeshOf(old(mesh), VoxelFaces(voxelData, voxel))
    {
      var positionOffsets := Offsets();
      ghost var m1 := mesh;
      for j := 0 to |positionOffsets|
        invariant mesh == MeshOf(m1, ExposedFaces(voxelData, voxel.position, positionOffsets[..j]))
      {
        ExposedFacesStep(voxelData, voxel.position, positionOffsets, j);
        ghost var done := ExposedFaces(voxelData, voxel.position, positionOffsets[..j]);
        var faceOffset := positionOffsets[j];
        var face := Shift(voxel.position, faceOffset);
        var exposed := AnyAirAt(voxelData, face);
        if exposed {
          AddQuad(voxel.position, UNIT);
          MeshOfStep(m1, done, (voxel.position, faceOffset));
        } else {
          assert ExposedFaces(voxelData, voxel.position, positionOffsets[..j + 1]) == done;
        }
      }
      assert positionOffsets[..|positionOffsets|] == positionOffsets;
    }

    /** Appends the six indices of one quad, numbered from the vertex count,
        and its four corners. */
    method AddQuad(position: Local, size: (int, int))
      modifies this
      ensures mesh == WithQuad(old(mesh), position, size)
    {
      var indexOffset := |mesh.vertices|;
      var indices := mesh.indices;
      indices := indices + [indexOffset + 0];
      indices := indices + [indexOffset + 1];
      indices := indices + [indexOffset + 2];
      indices := indices + [indexOffset + 2];
      indices := indices + [indexOffset + 3];
      indices := indices + [indexOffset + 0];
      var vertices := mesh.vertices;
      vertices := vertices + [(position.0, position.1, position.2)];
      vertices := vertices + [(position.0 + size.0, position.1, position.2)];
      vertices := vertices + [(position.0 + size.0, position.1 + size.1, position.2)];
      vertices := vertices + [(position.0, position.1 + size.1, position.2)];
      mesh := Mesh(vertices, indices);
    }
  }
}
