/** `LoadObjFromFile` as the source runs it: four growable buffers, a loop
    over the lines that dispatches on the first two characters, and an inner
    loop over the three corners of each face. The loader is proved to return
    exactly `ObjFormat.LoadObj`, so every property proved of that function
    holds of the loader. */
module ObjLoader {
  import opened MeshTypes
  import opened ObjFormat
  import opened Growable

  /** The four buffers are each valid and the two that hold `Vec3` values
      are different objects with different blocks. */
  ghost predicate Separate(positions: GrowableBuffer<Vec3>, normals: GrowableBuffer<Vec3>,
                           uvs: GrowableBuffer<Vec2>, vertices: GrowableBuffer<Vertex>)
    reads positions, normals, uvs, vertices
  {
    positions.Valid() && normals.Valid() && uvs.Valid() && vertices.Valid() &&
    positions != normals && positions.data != normals.data
  }

  /** The streams the buffers hold. */
  ghost function Contents(positions: GrowableBuffer<Vec3>, normals: GrowableBuffer<Vec3>,
                          uvs: GrowableBuffer<Vec2>, vertices: GrowableBuffer<Vertex>): Streams
    reads positions, normals, uvs, vertices, positions.data, normals.data, uvs.data, vertices.data
    requires Separate(positions, normals, uvs, vertices)
  {
    Streams(positions.Elements(), normals.Elements(), uvs.Elements(), vertices.Elements())
  }

  /** One pass of the corner loop: grow the vertex buffer when full,
      resolve the three indices, skip the corner when its position is out of
      range, and otherwise append the vertex with its normal and UV or their
      defaults. Only the vertex buffer changes, and it gains exactly the
      vertex `Corner` gives. The growth comes first, so a full buffer doubles
      its capacity even for a corner that is then dropped. */
  method EmitCorner(corner: CornerRef, ghost s: Streams, positions: GrowableBuffer<Vec3>, normals: GrowableBuffer<Vec3>,
                    uvs: GrowableBuffer<Vec2>, vertices: GrowableBuffer<Vertex>)
    requires Separate(positions, normals, uvs, vertices)
    requires positions.Elements() == s.positions && normals.Elements() == s.normals && uvs.Elements() == s.uvs
    modifies vertices, vertices.data
    ensures Separate(positions, normals, uvs, vertices)
    ensures positions.Elements() == s.positions && normals.Elements() == s.normals && uvs.Elements() == s.uvs
    ensures vertices.Elements() == old(vertices.Elements()) + AsSeq(Corner(s, corner))
    ensures vertices.capacity == if old(vertices.count) >= old(vertices.capacity) then 2 * old(vertices.capacity)
                                 else old(vertices.capacity)
    ensures vertices.data == old(vertices.data) || fresh(vertices.data)
  {
    vertices.GrowIfFull();
    var vi := ResolveIndex(corner.v, positions.count);
    var vti := ResolveIndex(corner.vt, uvs.count);
    var vni := ResolveIndex(corner.vn, normals.count);
    if vi < 0 || vi >= positions.count {
      return;
    }
    var normal := if 0 <= vni < normals.count then normals.data[vni] else DEFAULT_NORMAL;
    var uv := if 0 <= vti < uvs.count then uvs.data[vti] else DEFAULT_UV;
    assert Corner(s, corner) == Some(Vertex(positions.data[vi], normal, uv));
    vertices.PushWithinCapacity(Vertex(positions.data[vi], normal, uv));
  }

  /** The corner loop of a matched face. Only the vertex buffer changes, and
      it gains exactly the face's vertices. */
  method AssembleFace(corners: seq<CornerRef>, ghost s: Streams, positions: GrowableBuffer<Vec3>, normals: GrowableBuffer<Vec3>,
                      uvs: GrowableBuffer<Vec2>, vertices: GrowableBuffer<Vertex>)
    requires |corners| == 3
    requires Separate(positions, normals, uvs, vertices)
    requires Contents(positions, normals, uvs, vertices) == s
    modifies vertices, vertices.data
    ensures Separate(positions, normals, uvs, vertices)
    ensures Contents(positions, normals, uvs, vertices) == s.(vertices := s.vertices + FaceVertices(s, corners))
    ensures vertices.data == old(vertices.data) || fresh(vertices.data)
  {
    for c := 0 to 3
      invariant Separate(positions, normals, uvs, vertices)
      invariant positions.Elements() == s.positions && normals.Elements() == s.normals && uvs.Elements() == s.uvs
      invariant vertices.Elements() == s.vertices + FaceVertices(s, corners[..c])
      invariant vertices.data == old(vertices.data) || fresh(vertices.data)
    {
      ghost var emitted := s.vertices + FaceVertices(s, corners[..c]);
      EmitCorner(corners[c], s, positions, normals, uvs, vertices);
      FaceVerticesSnoc(s, corners, c);
      assert s.vertices + FaceVertices(s, corners[..c + 1]) == emitted + AsSeq(Corner(s, corners[c]));
    }
    assert corners[..3] == corners;
  }

  /** One iteration of the `fgets` loop: the streams afterwards are `Step`
      of the streams before. */
  method ProcessLine(line: Line, positions: GrowableBuffer<Vec3>, normals: GrowableBuffer<Vec3>,
                     uvs: GrowableBuffer<Vec2>, vertices: GrowableBuffer<Vertex>)
    requires Separate(positions, normals, uvs, vertices)
    modifies positions, positions.data, normals, normals.data, uvs, uvs.data, vertices, vertices.data
    ensures Separate(positions, normals, uvs, vertices)
    ensures Contents(positions, normals, uvs, vertices) == Step(old(Contents(positions, normals, uvs, vertices)), line)
    ensures positions.data == old(positions.data) || fresh(positions.data)
    ensures normals.data == old(normals.data) || fresh(normals.data)
    ensures uvs.data == old(uvs.data) || fresh(uvs.data)
    ensures vertices.data == old(vertices.data) || fresh(vertices.data)
  {
    if line.c0 == 'v' && line.c1 == ' ' {
      if |line.floats| >= 3 {
        positions.Append(Vec3(line.floats[0], line.floats[1], line.floats[2]));
      }
    } else if line.c0 == 'v' && line.c1 == 'n' {
      if |line.floats| >= 3 {
        normals.Append(Vec3(line.floats[0], line.floats[1], line.floats[2]));
      }
    } else if line.c0 == 'v' && line.c1 == 't' {
      if |line.floats| >= 2 {
        uvs.Append(Vec2(line.floats[0], line.floats[1]));
      }
    } else if line.c0 == 'f' && line.c1 == ' ' {
      if |line.ints| < 9 {
        return;
      }
      var corners := [CornerRef(line.ints[0], line.ints[1], line.ints[2]),
                      CornerRef(line.ints[3], line.ints[4], line.ints[5]),
                      CornerRef(line.ints[6], line.ints[7], line.ints[8])];
      AssembleFace(corners, Contents(positions, normals, uvs, vertices), positions, normals, uvs, vertices);
    }
  }

  /** `LoadObjFromFile(filePath, pos)`. `file` is `None` when the file cannot
      be opened, and otherwise the lines `fgets` returns. The result is
      `LoadObj(file, pos)`: the all-zero mesh for a missing file, and
      otherwise a mesh at `pos` holding the parsed vertex stream, its count,
      and its size in bytes. */
  method LoadObjFromFile(file: Option<seq<Line>>, pos: Vec3) returns (mesh: Mesh)
    ensures mesh == LoadObj(file, pos)
  {
    if file.None? {
      return ZERO_MESH;
    }
    var lines := file.value;
    var positions := new GrowableBuffer<Vec3>(MAX_VERT_COUNT);
    var normals := new GrowableBuffer<Vec3>(MAX_VERT_COUNT);
    var uvs := new GrowableBuffer<Vec2>(MAX_VERT_COUNT);
    var vertices := new GrowableBuffer<Vertex>(MAX_VERT_COUNT);
    var i := 0;
    while i < |lines|
      invariant 0 <= i <= |lines|
      invariant fresh(positions) && fresh(normals) && fresh(uvs) && fresh(vertices)
      invariant fresh(positions.data) && fresh(normals.data) && fresh(uvs.data) && fresh(vertices.data)
      invariant Separate(positions, normals, uvs, vertices)
      invariant Run(Contents(positions, normals, uvs, vertices), lines[i..]) == Parse(lines)
    {
      assert lines[i..][1..] == lines[i + 1..];
      ProcessLine(lines[i], positions, normals, uvs, vertices);
      i := i + 1;
    }
    var vertexCount := vertices.count;
    mesh := Mesh(pos, vertices.Elements(), vertexCount, vertexCount * SIZEOF_VERTEX);
  }
}
