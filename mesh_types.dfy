/** Value types shared by the OBJ loader and the built-in cube: the vertex
    layout the GPU pipeline consumes and the `Mesh` record handed to it. */
module MeshTypes {

  datatype Option<+T> = None | Some(value: T)

  /** A C `float`. Coordinates are only copied by the loader, never computed,
      so an exact real stands for each one. */
  type Float = real

  datatype Vec3 = Vec3(x: Float, y: Float, z: Float)

  datatype Vec2 = Vec2(x: Float, y: Float)

  /** One flat, unshared vertex record: position, normal, texture coordinate. */
  datatype Vertex = Vertex(position: Vec3, normal: Vec3, uv: Vec2)

  /** `sizeof(Vertex)`: eight 4-byte floats with no padding. */
  const SIZEOF_VERTEX: nat := 32

  /** Initial capacity of every growable stream (`MAX_VERT_COUNT`). */
  const MAX_VERT_COUNT: nat := 2048

  /** A loaded mesh: its placement point, its vertex stream, the number of
      vertices to draw and the byte size of the stream. The vertex pointer of
      the C record is modelled by the contents it points to. */
  datatype Mesh = Mesh(position: Vec3, vertices: seq<Vertex>, vertexCount: int, size: int)

  /** The all-zero mesh returned when a file cannot be opened. */
  const ZERO_MESH: Mesh := Mesh(Vec3(0.0, 0.0, 0.0), [], 0, 0)

  /** Normal given to a corner whose normal index is out of range. */
  const DEFAULT_NORMAL: Vec3 := Vec3(0.0, 1.0, 0.0)

  /** Texture coordinate given to a corner whose UV index is out of range. */
  const DEFAULT_UV: Vec2 := Vec2(0.0, 0.0)
}
