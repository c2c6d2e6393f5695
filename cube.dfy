/** `CreateDefaultCube`: a unit cube centred on the origin as a flat list of
    36 vertices, two triangles per face, each vertex carrying its face's
    outward normal. The pipeline culls back faces and treats
    counter-clockwise triangles as front-facing, so every triangle must wind
    counter-clockwise seen from outside.

    The table in the source places the second vertex of the bottom face at
    y = +0.5 instead of y = -0.5. `CubeVerticesAsWritten` keeps the table as
    written and is what `CreateDefaultCube` returns; `BottomFaceStrayVertex`
    exhibits the stray vertex. `CubeVertices` is the corrected table, which
    `CreateDefaultCubeCorrected` returns. */
module Cube {
  import opened MeshTypes

  function V(px: Float, py: Float, pz: Float, nx: Float, ny: Float, nz: Float, u: Float, v: Float): Vertex
  {
    Vertex(Vec3(px, py, pz), Vec3(nx, ny, nz), Vec2(u, v))
  }

  /** The vertex table exactly as the source lists it. */
  function CubeVerticesAsWritten(): seq<Vertex>
  {
    CubeSides() + [
      // bottom (-Y)
      V(-0.5, -0.5, -0.5, 0.0, -1.0, 0.0, 0.0, 0.0),
      V( 0.5,  0.5, -0.5, 0.0, -1.0, 0.0, 1.0, 0.0),
      V( 0.5, -0.5,  0.5, 0.0, -1.0, 0.0, 1.0, 1.0),
      V(-0.5, -0.5, -0.5, 0.0, -1.0, 0.0, 0.0, 0.0),
      V( 0.5, -0.5,  0.5, 0.0, -1.0, 0.0, 1.0, 1.0),
      V(-0.5, -0.5,  0.5, 0.0, -1.0, 0.0, 0.0, 1.0)]
  }

  /** The vertex table with the bottom face's second vertex on the bottom
      plane. */
  function CubeVertices(): seq<Vertex>
  {
    CubeSides() + [
      // bottom (-Y)
      V(-0.5, -0.5, -0.5, 0.0, -1.0, 0.0, 0.0, 0.0),
      V( 0.5, -0.5, -0.5, 0.0, -1.0, 0.0, 1.0, 0.0),
      V( 0.5, -0.5,  0.5, 0.0, -1.0, 0.0, 1.0, 1.0),
      V(-0.5, -0.5, -0.5, 0.0, -1.0, 0.0, 0.0, 0.0),
      V( 0.5, -0.5,  0.5, 0.0, -1.0, 0.0, 1.0, 1.0),
      V(-0.5, -0.5,  0.5, 0.0, -1.0, 0.0, 0.0, 1.0)]
  }

  /** The first five faces, which both tables share. */
  function CubeSides(): seq<Vertex>
  {
    [ // front (+Z)
      V(-0.5, -0.5,  0.5, 0.0, 0.0, 1.0, 0.0, 0.0),
      V( 0.5, -0.5,  0.5, 0.0, 0.0, 1.0, 1.0, 0.0),
      V( 0.5,  0.5,  0.5, 0.0, 0.0, 1.0, 1.0, 1.0),
      V(-0.5, -0.5,  0.5, 0.0, 0.0, 1.0, 0.0, 0.0),
      V( 0.5,  0.5,  0.5, 0.0, 0.0, 1.0, 1.0, 1.0),
      V(-0.5,  0.5,  0.5, 0.0, 0.0, 1.0, 0.0, 1.0),
      // back (-Z)
      V( 0.5, -0.5, -0.5, 0.0, 0.0, -1.0, 0.0, 0.0),
      V(-0.5, -0.5, -0.5, 0.0, 0.0, -1.0, 1.0, 0.0),
      V(-0.5,  0.5, -0.5, 0.0, 0.0, -1.0, 1.0, 1.0),
      V( 0.5, -0.5, -0.5, 0.0, 0.0, -1.0, 0.0, 0.0),
      V(-0.5,  0.5, -0.5, 0.0, 0.0, -1.0, 1.0, 1.0),
      V( 0.5,  0.5, -0.5, 0.0, 0.0, -1.0, 0.0, 1.0),
      // left (-X)
      V(-0.5, -0.5, -0.5, -1.0, 0.0, 0.0, 0.0, 0.0),
      V(-0.5, -0.5,  0.5, -1.0, 0.0, 0.0, 1.0, 0.0),
      V(-0.5,  0.5,  0.5, -1.0, 0.0, 0.0, 1.0, 1.0),
      V(-0.5, -0.5, -0.5, -1.0, 0.0, 0.0, 0.0, 0.0),
      V(-0.5,  0.5,  0.5, -1.0, 0.0, 0.0, 1.0, 1.0),
      V(-0.5,  0.5, -0.5, -1.0, 0.0, 0.0, 0.0, 1.0),
      // right (+X)
      V( 0.5, -0.5,  0.5, 1.0, 0.0, 0.0, 0.0, 0.0),
      V( 0.5, -0.5, -0.5, 1.0, 0.0, 0.0, 1.0, 0.0),
      V( 0.5,  0.5, -0.5, 1.0, 0.0, 0.0, 1.0, 1.0),
      V( 0.5, -0.5,  0.5, 1.0, 0.0, 0.0, 0.0, 0.0),
      V( 0.5,  0.5, -0.5, 1.0, 0.0, 0.0, 1.0, 1.0),
      V( 0.5,  0.5,  0.5, 1.0, 0.0, 0.0, 0.0, 1.0),
      // top (+Y)
      V(-0.5,  0.5,  0.5, 0.0, 1.0, 0.0, 0.0, 0.0),
      V( 0.5,  0.5,  0.5, 0.0, 1.0, 0.0, 1.0, 0.0),
      V( 0.5,  0.5, -0.5, 0.0, 1.0, 0.0, 1.0, 1.0),
      V(-0.5,  0.5,  0.5, 0.0, 1.0, 0.0, 0.0, 0.0),
      V( 0.5,  0.5, -0.5, 0.0, 1.0, 0.0, 1.0, 1.0),
      V(-0.5,  0.5, -0.5, 0.0, 1.0, 0.0, 0.0, 1.0)]
  }

  function Dot(a: Vec3, b: Vec3): Float
  {
    a.x * b.x + a.y * b.y + a.z * b.z
  }

  function Sub(a: Vec3, b: Vec3): Vec3
  {
    Vec3(a.x - b.x, a.y - b.y, a.z - b.z)
  }

  function Cross(a: Vec3, b: Vec3): Vec3
  {
    Vec3(a.y * b.z - a.z * b.y, a.z * b.x - a.x * b.z, a.x * b.y - a.y * b.x)
  }

  /** A vertex of the unit cube lies on the face its normal points out of. */
  predicate OnFacePlane(v: Vertex)
  {
    Dot(v.position, v.normal) == 0.5
  }

  /** A triangle is front-facing (counter-clockwise seen from outside) when
      the normal of its winding points the same way as its vertex normal. */
  predicate FacesOutward(a: Vertex, b: Vertex, c: Vertex)
  {
    Dot(Cross(Sub(b.position, a.position), Sub(c.position, a.position)), a.normal) > 0.0
  }

  /** The source's table puts vertex 31 (the second of the bottom face) on
      the top plane although its normal points down; every other vertex lies
      on its face, and the corrected table differs only there. */
  lemma BottomFaceStrayVertex()
    ensures |CubeVerticesAsWritten()| == |CubeVertices()| == 36
    ensures CubeVerticesAsWritten()[31].normal == Vec3(0.0, -1.0, 0.0)
    ensures CubeVerticesAsWritten()[31].position.y == 0.5
    ensures !OnFacePlane(CubeVerticesAsWritten()[31])
    ensures forall i :: 0 <= i < 36 && i != 31 ==> OnFacePlane(CubeVerticesAsWritten()[i])
    ensures forall i :: 0 <= i < 36 && i != 31 ==> CubeVerticesAsWritten()[i] == CubeVertices()[i]
  {
  }

  /** In the corrected table every vertex lies on the plane of its face. */
  lemma CubeVerticesOnFacePlanes()
    ensures |CubeVertices()| == 36
    ensures forall i :: 0 <= i < 36 ==> OnFacePlane(CubeVertices()[i])
  {
  }

  /** In the corrected table every one of the twelve triangles is
      front-facing. */
  lemma CubeTrianglesFaceOutward()
    ensures |CubeVertices()| == 36
    ensures forall t :: 0 <= t < 12 ==>
              FacesOutward(CubeVertices()[3 * t], CubeVertices()[3 * t + 1], CubeVertices()[3 * t + 2])
  {
  }

  /** `CreateDefaultCube(pos)`: a mesh at `pos` of the 36 vertices of the
      table as written, whose byte size is the size of the table. Every
      vertex but the stray vertex 31 lies on the plane of its face. */
  function CreateDefaultCube(pos: Vec3): (m: Mesh)
    ensures m.position == pos && m.vertices == CubeVerticesAsWritten()
    ensures m.vertexCount == |m.vertices| == 36
    ensures m.size == 36 * SIZEOF_VERTEX
    ensures forall i :: 0 <= i < 36 ==> (OnFacePlane(m.vertices[i]) <==> i != 31)
  {
    BottomFaceStrayVertex();
    var table := CubeVerticesAsWritten();
    Mesh(pos, table, |table|, |table| * SIZEOF_VERTEX)
  }

  /** The cube with the bottom face repaired: every vertex lies on the plane
      of its face and every triangle is front-facing. */
  function CreateDefaultCubeCorrected(pos: Vec3): (m: Mesh)
    ensures m.position == pos && m.vertexCount == |m.vertices| == 36
    ensures m.size == 36 * SIZEOF_VERTEX
    ensures forall i :: 0 <= i < 36 ==> OnFacePlane(m.vertices[i])
    ensures forall t :: 0 <= t < 12 ==> FacesOutward(m.vertices[3 * t], m.vertices[3 * t + 1], m.vertices[3 * t + 2])
    ensures forall i :: 0 <= i < 36 && i != 31 ==> m.vertices[i] == CreateDefaultCube(pos).vertices[i]
  {
    CubeVerticesOnFacePlanes();
    CubeTrianglesFaceOutward();
    BottomFaceStrayVertex();
    var table := CubeVertices();
    Mesh(pos, table, |table|, |table| * SIZEOF_VERTEX)
  }
}
