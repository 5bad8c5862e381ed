/**
 * The three factories as a whole: each assembles its solid's mesh descriptor
 * and wraps it in a scene object whose matrix is the identity translated by
 * `translation`, whose timestamp is the clock reading `now`, and whose update
 * rotates about `rotationAxis` (and, for the octahedron, bobs).
 */
module Scene {
  import opened Meshes
  import opened Figures
  import opened Animation

  method CreateOctahedron(translation: Vec3, rotationAxis: Vec3, now: int) returns (o: SceneObject)
    ensures fresh(o) && o.axis == rotationAxis
    ensures o.State() == ObjectState([Translate(translation)], now, SpinAndBob(true))
    ensures o.Valid() <==> translation.y <= 3.0
    ensures o.mesh.vertices == OctahedronVertices() && o.mesh.indices == Concat(OctahedronTriangles())
    ensures o.mesh.vertexColors == Flatten(Repeat(OctahedronFaceColors(), 3))
    ensures o.mesh.nVerts == 24 && o.mesh.nColors == 24 && o.mesh.nIndices == 24
    ensures TriangleList(o.mesh) && DrawSafe(o.mesh) && FitsUint16(o.mesh) && CountsAgree(o.mesh)
    ensures FlatShaded(o.mesh, OctahedronFaceColors())
  {
    var mesh := OctahedronMesh();
    o := new SceneObject(mesh, translation, rotationAxis, true, now);
  }

  method CreateDodecahedron(translation: Vec3, rotationAxis: Vec3, now: int) returns (o: SceneObject)
    ensures fresh(o) && o.axis == rotationAxis
    ensures o.State() == ObjectState([Translate(translation)], now, Spin) && o.Valid()
    ensures o.mesh.vertices == DodecahedronVertices() && o.mesh.indices == Concat(DodecahedronFaces())
    ensures o.mesh.vertexColors == Flatten(Repeat(DodecahedronFaceColors(), 5))
    ensures o.mesh.nVerts == 21 && o.mesh.nColors == 21 && o.mesh.nIndices == 108
    ensures TriangleList(o.mesh) && DrawSafe(o.mesh) && FitsUint16(o.mesh)
    ensures ColorEntries(o.mesh) == 60 && !CountsAgree(o.mesh)
  {
    var mesh := DodecahedronMesh();
    o := new SceneObject(mesh, translation, rotationAxis, false, now);
  }

  method CreatePyramid(translation: Vec3, rotationAxis: Vec3, now: int) returns (o: SceneObject)
    ensures fresh(o) && o.axis == rotationAxis
    ensures o.State() == ObjectState([Translate(translation)], now, Spin) && o.Valid()
    ensures o.mesh.vertices == PyramidVertices() && o.mesh.indices == Concat(PyramidTriangles())
    ensures o.mesh.vertexColors == Flatten(Repeat(PyramidFaceColors(), 3))
    ensures o.mesh.nVerts == 72 && o.mesh.nColors == 72 && o.mesh.nIndices == 24
    ensures VertexCount(o.mesh) == 24 == ColorEntries(o.mesh)
    ensures TriangleList(o.mesh) && DrawSafe(o.mesh) && FitsUint16(o.mesh) && !CountsAgree(o.mesh)
    ensures FlatShaded(o.mesh, PyramidFaceColors())
  {
    var mesh := PyramidMeshAsWritten();
    o := new SceneObject(mesh, translation, rotationAxis, false, now);
  }
}
