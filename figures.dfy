/**
 * The literal geometry of the three solids and the part of each factory
 * (`createOctahedron`, `createDodecahedron`, `createPyramid`) that assembles
 * the mesh descriptor from it.
 *
 * Index tables are written in the groups the source lays them out in: one
 * triangle per group for the octahedron and the pyramid, one pentagonal face
 * (three triangles) per group for the dodecahedron.
 */
module Figures {
  import opened Meshes

  // ---------------------------------------------------------------- octahedron

  /** Eight triangular faces, three vertices each, three floats per vertex. */
  function OctahedronVertices(): seq<real>
  {
    [ 0.0,  0.0,  1.0,   0.0,  1.0,  0.0,   1.0,  0.0,  0.0,
      0.0,  0.0,  1.0,   1.0,  0.0,  0.0,   0.0, -1.0,  0.0,
      0.0,  0.0,  1.0,   0.0, -1.0,  0.0,  -1.0,  0.0,  0.0,
      0.0,  0.0,  1.0,  -1.0,  0.0,  0.0,   0.0,  1.0,  0.0,
      0.0,  0.0, -1.0,   0.0,  1.0,  0.0,   1.0,  0.0,  0.0,
      0.0,  0.0, -1.0,   1.0,  0.0,  0.0,   0.0, -1.0,  0.0,
      0.0,  0.0, -1.0,   0.0, -1.0,  0.0,  -1.0,  0.0,  0.0,
      0.0,  0.0, -1.0,  -1.0,  0.0,  0.0,   0.0,  1.0,  0.0 ]
  }

  function OctahedronFaceColors(): seq<Rgba>
  {
    [ Rgba(1.0, 0.0, 0.0, 1.0), Rgba(0.0, 1.0, 0.0, 1.0),
      Rgba(0.0, 0.0, 1.0, 1.0), Rgba(1.0, 1.0, 1.0, 1.0),
      Rgba(0.0, 0.0, 1.0, 1.0), Rgba(0.2, 0.6, 0.2, 1.0),
      Rgba(0.8, 0.8, 0.0, 1.0), Rgba(0.5, 0.5, 0.5, 1.0) ]
  }

  function OctahedronTriangles(): seq<seq<int>>
  {
    [ [0, 1, 2], [3, 4, 5], [6, 7, 8], [9, 10, 11],
      [12, 13, 14], [15, 16, 17], [18, 19, 20], [21, 22, 23] ]
  }

  // -------------------------------------------------------------- dodecahedron

  /** Twenty-one vertices, three floats each. */
  function DodecahedronVertices(): seq<real>
  {
    [  0.35682,  0.0,      0.93417,
      -0.35682,  0.0,      0.93417,
       0.0,      0.93417,  0.35682,
       0.57735,  0.57735,  0.57735,
      -0.57735,  0.57735,  0.57735,
       0.0,     -0.93417,  0.35682,
       0.57735, -0.57735,  0.57735,
      -0.57735, -0.57735,  0.57735,
       0.93417,  0.35682,  0.0,
       0.93417, -0.35682,  0.0,
      -0.93417,  0.35682,  0.0,
      -0.93417, -0.35682,  0.0,
       0.0,     -0.93417, -0.35682,
      -0.57735, -0.57735, -0.57735,
       0.93417, -0.35682,  0.0,
       0.57735, -0.57735, -0.57735,
       0.35682,  0.0,     -0.93417,
      -0.35682,  0.0,     -0.93417,
       0.0,      0.93417, -0.35682,
       0.57735,  0.57735, -0.57735,
      -0.57735,  0.57735, -0.57735 ]
  }

  function DodecahedronFaceColors(): seq<Rgba>
  {
    [ Rgba(0.0, 1.0, 0.0, 1.0), Rgba(1.0, 1.0, 1.0, 1.0),
      Rgba(0.2, 0.0, 1.0, 1.0), Rgba(0.3, 0.0, 1.0, 1.0),
      Rgba(0.4, 1.0, 0.0, 1.0), Rgba(0.5, 0.5, 1.0, 1.0),
      Rgba(1.0, 0.9, 1.0, 1.0), Rgba(0.6, 0.0, 1.0, 1.0),
      Rgba(0.7, 0.0, 1.0, 1.0), Rgba(0.8, 1.0, 0.0, 1.0),
      Rgba(0.7, 0.3, 1.0, 1.0), Rgba(0.8, 1.0, 0.5, 1.0) ]
  }

  /** Twelve faces of three triangles each. */
  function DodecahedronFaces(): seq<seq<int>>
  {
    DodecahedronFacesFirstHalf() + DodecahedronFacesSecondHalf()
  }

  /** Faces 0 to 5 of the index table. */
  function DodecahedronFacesFirstHalf(): seq<seq<int>>
  {
    [ [0, 1, 2,    0, 2, 3,    1, 2, 4],
      [0, 1, 5,    0, 5, 6,    1, 5, 7],
      [0, 3, 8,    0, 6, 8,    6, 8, 9],
      [1, 4, 10,   1, 7, 10,   7, 10, 11],
      [12, 15, 16, 12, 13, 16, 13, 16, 17],
      [16, 17, 18, 16, 18, 19, 17, 18, 20] ]
  }

  /** Faces 6 to 11 of the index table. */
  function DodecahedronFacesSecondHalf(): seq<seq<int>>
  {
    [ [13, 17, 10, 10, 11, 13, 10, 17, 20],
      [8, 15, 16,  8, 16, 19,  8, 9, 15],
      [2, 8, 18,   2, 3, 8,    8, 18, 19],
      [5, 7, 11,   5, 11, 12,  11, 12, 13],
      [5, 6, 14,   5, 12, 14,  12, 14, 15],
      [2, 4, 10,   2, 10, 20,  2, 18, 20] ]
  }

  // ------------------------------------------------------------------- pyramid

  /** Three base triangles and five side faces, three vertices each. */
  function PyramidVertices(): seq<real>
  {
    [ -0.5, -1.0,  0.0,   0.5, -1.0,  0.0,   1.0, -1.0, -1.0,
      -0.5, -1.0,  0.0,   1.0, -1.0, -1.0,   0.0, -1.0, -2.0,
      -0.5, -1.0,  0.0,   0.0, -1.0, -2.0,  -1.0, -1.0, -1.0,
      -0.5, -1.0,  0.0,   0.5, -1.0,  0.0,   0.0,  1.0, -1.0,
       0.5, -1.0,  0.0,   1.0, -1.0, -1.0,   0.0,  1.0, -1.0,
       1.0, -1.0, -1.0,   0.0, -1.0, -2.0,   0.0,  1.0, -1.0,
       0.0, -1.0, -2.0,  -1.0, -1.0, -1.0,   0.0,  1.0, -1.0,
      -1.0, -1.0, -1.0,  -0.5, -1.0,  0.0,   0.0,  1.0, -1.0 ]
  }

  function PyramidFaceColors(): seq<Rgba>
  {
    [ Rgba(1.0, 0.0, 0.0, 1.0), Rgba(0.0, 1.0, 0.0, 1.0),
      Rgba(0.0, 0.0, 1.0, 1.0), Rgba(1.0, 1.0, 1.0, 1.0),
      Rgba(0.0, 0.0, 1.0, 1.0), Rgba(0.2, 0.6, 0.2, 1.0),
      Rgba(0.8, 0.8, 0.0, 1.0), Rgba(0.5, 0.5, 0.5, 1.0) ]
  }

  function PyramidTriangles(): seq<seq<int>>
  {
    [ [0, 1, 2], [3, 4, 5], [6, 7, 8], [9, 10, 11],
      [12, 13, 14], [15, 16, 17], [18, 19, 20], [21, 22, 23] ]
  }

  // ------------------------------------------------------------ shared facts

  /**
   * Triangle `t` of the index list (entries 3·t .. 3·t+2) is drawn in face
   * colour `t` at every corner: each face has one flat colour.
   */
  predicate FlatShaded(m: Mesh, fc: seq<Rgba>)
  {
    forall i :: 0 <= i < |m.indices| ==>
      && 0 <= m.indices[i] && ColorSize * m.indices[i] + ColorSize <= |m.vertexColors|
      && i / 3 < |fc|
      && VertexColor(m, m.indices[i]) == Components(fc[i / 3])
  }

  /**
   * A table of `n` triangles listing the vertices 0, 1, ..., 3·n-1 in order,
   * coloured three vertices per face colour, is drawn flat shaded.
   */
  lemma SequentialTrianglesFlat(m: Mesh, fc: seq<Rgba>)
    requires m.vertexColors == Flatten(Repeat(fc, 3))
    requires |m.indices| == 3 * |fc|
    requires forall i :: 0 <= i < |m.indices| ==> m.indices[i] == i
    ensures FlatShaded(m, fc)
  {
    forall i | 0 <= i < |m.indices|
      ensures && 0 <= m.indices[i] && ColorSize * m.indices[i] + ColorSize <= |m.vertexColors|
              && i / 3 < |fc|
              && VertexColor(m, m.indices[i]) == Components(fc[i / 3])
    {
      ExpandedColorOf(fc, 3, i);
    }
  }

  /** The triangle tables of the octahedron and the pyramid list 0 .. 23 in order. */
  lemma SequentialTable(ts: seq<seq<int>>)
    requires ts == OctahedronTriangles() || ts == PyramidTriangles()
    ensures |Concat(ts)| == 24
    ensures forall i :: 0 <= i < |Concat(ts)| ==> Concat(ts)[i] == i
  {
    forall g | 0 <= g < |ts| ensures |ts[g]| == 3 {
    }
    ConcatLength(ts, 3);
    forall i | 0 <= i < |ts| * 3 ensures Concat(ts)[i] == i {
      ConcatIndex(ts, 3, i);
      var g := i / 3;
      assert ts[g] == [3 * g, 3 * g + 1, 3 * g + 2];
    }
  }

  // --------------------------------------------------------------- factories

  /**
   * The descriptor `createOctahedron` builds: 72 floats for 24 vertices, 24
   * colours (eight faces times three), 24 indices, all of them in range.
   */
  method OctahedronMesh() returns (m: Mesh)
    ensures m.vertices == OctahedronVertices() && m.indices == Concat(OctahedronTriangles())
    ensures m.vertexColors == Flatten(Repeat(OctahedronFaceColors(), 3))
    ensures m.nVerts == 24 && m.nColors == 24 && m.nIndices == 24
    ensures TriangleList(m) && DrawSafe(m) && FitsUint16(m) && CountsAgree(m)
    ensures FlatShaded(m, OctahedronFaceColors())
  {
    var vertices := OctahedronVertices();
    var vertexColors := ExpandColors(OctahedronFaceColors(), 3);
    var indices := Concat(OctahedronTriangles());
    m := Mesh(vertices, vertexColors, indices, VertSize, |vertices| / 3, ColorSize, |vertices| / 3,
              |indices|, Triangles);
    SequentialTable(OctahedronTriangles());
    RepeatLength(OctahedronFaceColors(), 3);
    FlattenAt(Repeat(OctahedronFaceColors(), 3));
    SequentialTrianglesFlat(m, OctahedronFaceColors());
  }

  /**
   * The descriptor `createDodecahedron` builds: 63 floats for 21 vertices,
   * 108 indices all below 21, and `nColors` recorded as 21 while the colour
   * loop, repeating each of the 12 colours five times, uploads 60 colours.
   * Because faces share vertices, that colouring is not per face: triangle 3
   * (entries 9 .. 11) has corners in two different colours.
   */
  method DodecahedronMesh() returns (m: Mesh)
    ensures m.vertices == DodecahedronVertices() && m.indices == Concat(DodecahedronFaces())
    ensures m.vertexColors == Flatten(Repeat(DodecahedronFaceColors(), 5))
    ensures m.nVerts == 21 == VertexCount(m) && m.nIndices == 108
    ensures m.nColors == 21 && ColorEntries(m) == 60
    ensures TriangleList(m) && DrawSafe(m) && FitsUint16(m) && !CountsAgree(m)
    ensures VertexColor(m, m.indices[9]) != VertexColor(m, m.indices[11])
  {
    var vertices := DodecahedronVertices();
    var vertexColors := ExpandColors(DodecahedronFaceColors(), 5);
    var indices := Concat(DodecahedronFaces());
    m := Mesh(vertices, vertexColors, indices, VertSize, |vertices| / 3, ColorSize, |vertices| / 3,
              |indices|, Triangles);
    DodecahedronIndexTable();
    DodecahedronColorTable();
  }

  /**
   * The dodecahedron's index list has 108 entries, all naming one of its 21
   * vertices; the second face starts with triangle (0, 1, 5).
   */
  lemma DodecahedronIndexTable()
    ensures |Concat(DodecahedronFaces())| == 108
    ensures AllBelow(Concat(DodecahedronFaces()), 21)
    ensures Concat(DodecahedronFaces())[9] == 0 && Concat(DodecahedronFaces())[11] == 5
  {
    var fs := DodecahedronFaces();
    DodecahedronFacesShape();
    ConcatBelow(fs, 21);
    ConcatLength(fs, 9);
    ConcatIndex(fs, 9, 9);
    ConcatIndex(fs, 9, 11);
  }

  /** Each dodecahedron face lists three triangles over the 21 vertices. */
  lemma DodecahedronFacesShape()
    ensures forall g :: 0 <= g < |DodecahedronFaces()| ==> |DodecahedronFaces()[g]| == 9
    ensures forall g :: 0 <= g < |DodecahedronFaces()| ==> AllBelow(DodecahedronFaces()[g], 21)
  {
    var a := DodecahedronFacesFirstHalf();
    var b := DodecahedronFacesSecondHalf();
    forall g | 0 <= g < |a| ensures |a[g]| == 9 && AllBelow(a[g], 21) {
    }
    forall g | 0 <= g < |b| ensures |b[g]| == 9 && AllBelow(b[g], 21) {
    }
  }

  /**
   * Repeating each of the 12 face colours 5 times gives 60 RGBA entries;
   * vertex 0 gets the first face colour and vertex 5 the second.
   */
  lemma DodecahedronColorTable()
    ensures |Flatten(Repeat(DodecahedronFaceColors(), 5))| == 240
    ensures Flatten(Repeat(DodecahedronFaceColors(), 5))[0..4] == Components(DodecahedronFaceColors()[0])
    ensures Flatten(Repeat(DodecahedronFaceColors(), 5))[20..24] == Components(DodecahedronFaceColors()[1])
  {
    ExpandedColorOf(DodecahedronFaceColors(), 5, 0);
    ExpandedColorOf(DodecahedronFaceColors(), 5, 5);
  }

  /**
   * The descriptor `createPyramid` builds, as written: 72 floats for 24
   * vertices, but `nVerts` and `nColors` recorded as 72, the length of the
   * float array rather than the number of vertices.
   */
  method PyramidMeshAsWritten() returns (m: Mesh)
    ensures m.vertices == PyramidVertices() && m.indices == Concat(PyramidTriangles())
    ensures m.vertexColors == Flatten(Repeat(PyramidFaceColors(), 3))
    ensures m.nVerts == 72 && m.nColors == 72 && m.nIndices == 24
    ensures VertexCount(m) == 24 == ColorEntries(m)
    ensures TriangleList(m) && DrawSafe(m) && FitsUint16(m) && !CountsAgree(m)
    ensures FlatShaded(m, PyramidFaceColors())
  {
    var vertices := PyramidVertices();
    var vertexColors := ExpandColors(PyramidFaceColors(), 3);
    var indices := Concat(PyramidTriangles());
    m := Mesh(vertices, vertexColors, indices, VertSize, |vertices|, ColorSize, |vertices|,
              |indices|, Triangles);
    SequentialTable(PyramidTriangles());
    RepeatLength(PyramidFaceColors(), 3);
    FlattenAt(Repeat(PyramidFaceColors(), 3));
    SequentialTrianglesFlat(m, PyramidFaceColors());
  }

  /**
   * The pyramid descriptor with both counts divided by the vertex size, as the
   * other two factories do: every recorded count then agrees with the arrays.
   */
  method PyramidMesh() returns (m: Mesh)
    ensures m.vertices == PyramidVertices() && m.indices == Concat(PyramidTriangles())
    ensures m.vertexColors == Flatten(Repeat(PyramidFaceColors(), 3))
    ensures m.nVerts == 24 && m.nColors == 24 && m.nIndices == 24
    ensures TriangleList(m) && DrawSafe(m) && FitsUint16(m) && CountsAgree(m)
    ensures FlatShaded(m, PyramidFaceColors())
  {
    m := PyramidMeshAsWritten();
    RepeatLength(PyramidFaceColors(), 3);
    FlattenAt(Repeat(PyramidFaceColors(), 3));
    m := m.(nVerts := |m.vertices| / VertSize, nColors := |m.vertices| / VertSize);
  }
}
