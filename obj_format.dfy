/** What `LoadObjFromFile` computes, as functions over already-read lines:
    line classification, OBJ index resolution, face-corner assembly with
    defaults, and the left-to-right fold of lines into the three attribute
    streams and the flat vertex stream. The imperative loader in
    obj_loader.dfy is proved to compute exactly `LoadObj`. */
module ObjFormat {
  import opened MeshTypes

  /** One line as `fgets` delivers it and `sscanf` reads it. `c0` and `c1`
      are `line[0]` and `line[1]`, the only characters that select a branch.
      `floats` holds the values that the branch's `%f` conversions read after
      the directive, up to the first one that fails; `ints` holds the values
      that the face pattern `f %d/%d/%d %d/%d/%d %d/%d/%d` reads, in pattern
      order, up to the first mismatch. `sscanf` reports how many of its own
      conversions succeeded, so "matched == 3" is `|floats| >= 3` and
      "matched == 9" is `|ints| >= 9`. */
  datatype Line = Line(c0: char, c1: char, floats: seq<Float>, ints: seq<int>)

  /** The branch a line takes in the parse loop. */
  datatype Directive = Position | Normal | TexCoord | Face | Ignored

  /** One face corner as written: position, texture-coordinate and normal
      index, in the `v/vt/vn` order of the file. */
  datatype CornerRef = CornerRef(v: int, vt: int, vn: int)

  /** The four attribute and output streams built while reading a file. */
  datatype Streams = Streams(positions: seq<Vec3>, normals: seq<Vec3>, uvs: seq<Vec2>, vertices: seq<Vertex>)

  const EMPTY: Streams := Streams([], [], [], [])

  function Classify(c0: char, c1: char): (d: Directive)
    ensures d == Position <==> c0 == 'v' && c1 == ' '
    ensures d == Normal <==> c0 == 'v' && c1 == 'n'
    ensures d == TexCoord <==> c0 == 'v' && c1 == 't'
    ensures d == Face <==> c0 == 'f' && c1 == ' '
  {
    if c0 == 'v' && c1 == ' ' then Position
    else if c0 == 'v' && c1 == 'n' then Normal
    else if c0 == 'v' && c1 == 't' then TexCoord
    else if c0 == 'f' && c1 == ' ' then Face
    else Ignored
  }

  /** The position a well-formed `v` line contributes, if it is one. */
  function PositionOf(l: Line): (r: Option<Vec3>)
    ensures r.Some? <==> Classify(l.c0, l.c1) == Position && |l.floats| >= 3
    ensures r.Some? ==> r.value == Vec3(l.floats[0], l.floats[1], l.floats[2])
  {
    if Classify(l.c0, l.c1) == Position && |l.floats| >= 3
    then Some(Vec3(l.floats[0], l.floats[1], l.floats[2])) else None
  }

  /** The normal a well-formed `vn` line contributes, if it is one. */
  function NormalOf(l: Line): (r: Option<Vec3>)
    ensures r.Some? <==> Classify(l.c0, l.c1) == Normal && |l.floats| >= 3
    ensures r.Some? ==> r.value == Vec3(l.floats[0], l.floats[1], l.floats[2])
  {
    if Classify(l.c0, l.c1) == Normal && |l.floats| >= 3
    then Some(Vec3(l.floats[0], l.floats[1], l.floats[2])) else None
  }

  /** The texture coordinate a well-formed `vt` line contributes, if it is one. */
  function TexCoordOf(l: Line): (r: Option<Vec2>)
    ensures r.Some? <==> Classify(l.c0, l.c1) == TexCoord && |l.floats| >= 2
    ensures r.Some? ==> r.value == Vec2(l.floats[0], l.floats[1])
  {
    if Classify(l.c0, l.c1) == TexCoord && |l.floats| >= 2
    then Some(Vec2(l.floats[0], l.floats[1])) else None
  }

  /** The three corners of an `f` line whose nine integers all matched. */
  function FaceOf(l: Line): (r: Option<seq<CornerRef>>)
    ensures r.Some? <==> Classify(l.c0, l.c1) == Face && |l.ints| >= 9
    ensures r.Some? ==> |r.value| == 3
  {
    if Classify(l.c0, l.c1) == Face && |l.ints| >= 9
    then Some([CornerRef(l.ints[0], l.ints[1], l.ints[2]),
               CornerRef(l.ints[3], l.ints[4], l.ints[5]),
               CornerRef(l.ints[6], l.ints[7], l.ints[8])])
    else None
  }

  function AsSeq<T>(o: Option<T>): (r: seq<T>)
    ensures |r| <= 1
  {
    if o.Some? then [o.value] else []
  }

  // ----- OBJ indices -----

  /** An OBJ index names an element of a stream of `count` elements when it
      counts 1-based from the start (`1..count`) or back from the end
      (`-count..-1`). */
  predicate Addresses(idx: int, count: int)
  {
    1 <= idx <= count || -count <= idx <= -1
  }

  /** Reference reading of an OBJ index: the `idx`-th element from the start,
      or the `-idx`-th element counted back from the end. */
  function Element<T>(s: seq<T>, idx: int): T
    requires Addresses(idx, |s|)
  {
    if idx > 0 then s[idx - 1] else s[|s| + idx]
  }

  /** `resolve_index`: a zero-based offset, not bounds-checked. The result is
      a valid offset exactly when the index addresses an element; index 0
      resolves to -1. */
  function ResolveIndex(idx: int, count: int): (r: int)
    ensures 0 <= r < count <==> Addresses(idx, count)
  {
    if idx < 0 then count + idx else idx - 1
  }

  /** Every offset of a stream is reached by exactly two OBJ indices: one
      from the start and one from the end. */
  lemma ResolveIndexInverse(count: int, k: int)
    requires 0 <= k < count
    ensures ResolveIndex(k + 1, count) == k && ResolveIndex(k - count, count) == k
    ensures forall idx :: ResolveIndex(idx, count) == k ==> idx == k + 1 || idx == k - count
  {
  }

  /** Reading a stream at a resolved index agrees with the reference reading. */
  lemma ResolveIndexReadsElement<T>(s: seq<T>, idx: int)
    requires Addresses(idx, |s|)
    ensures s[ResolveIndex(idx, |s|)] == Element(s, idx)
  {
  }

  /** A bounds-checked lookup with a fallback, as done for normals and UVs. */
  function Lookup<T>(s: seq<T>, idx: int, default: T): (r: T)
    ensures Addresses(idx, |s|) ==> r == Element(s, idx)
    ensures !Addresses(idx, |s|) ==> r == default
  {
    var k := ResolveIndex(idx, |s|);
    if 0 <= k < |s| then s[k] else default
  }

  // ----- face assembly -----

  /** The vertex one corner contributes: none when its position index is out
      of range; otherwise the addressed position, with the addressed normal
      and UV where those are in range and the defaults where they are not. */
  function Corner(s: Streams, c: CornerRef): (r: Option<Vertex>)
    ensures r.Some? <==> Addresses(c.v, |s.positions|)
    ensures r.Some? ==> r.value.position == Element(s.positions, c.v)
    ensures r.Some? ==>
              r.value.normal == if Addresses(c.vn, |s.normals|) then Element(s.normals, c.vn) else DEFAULT_NORMAL
    ensures r.Some? ==>
              r.value.uv == if Addresses(c.vt, |s.uvs|) then Element(s.uvs, c.vt) else DEFAULT_UV
  {
    var vi := ResolveIndex(c.v, |s.positions|);
    if 0 <= vi < |s.positions|
    then Some(Vertex(s.positions[vi], Lookup(s.normals, c.vn, DEFAULT_NORMAL), Lookup(s.uvs, c.vt, DEFAULT_UV)))
    else None
  }

  /** The vertices a run of corners contributes, in corner order: at most one
      per corner. */
  function FaceVertices(s: Streams, corners: seq<CornerRef>): (r: seq<Vertex>)
    ensures |r| <= |corners|
  {
    if corners == [] then []
    else FaceVertices(s, corners[..|corners| - 1]) + AsSeq(Corner(s, corners[|corners| - 1]))
  }

  /** A run of corners contributes one vertex for each corner exactly when
      every position index is in range. */
  lemma {:induction false} FaceVerticesComplete(s: Streams, corners: seq<CornerRef>)
    ensures |FaceVertices(s, corners)| == |corners| <==>
              forall c :: 0 <= c < |corners| ==> Addresses(corners[c].v, |s.positions|)
    decreases |corners|
  {
    if corners != [] {
      var init := corners[..|corners| - 1];
      FaceVerticesComplete(s, init);
      assert forall c :: 0 <= c < |init| ==> init[c] == corners[c];
    }
  }

  /** Extending a run of corners by one adds that corner's vertex, if any. */
  lemma FaceVerticesSnoc(s: Streams, corners: seq<CornerRef>, c: int)
    requires 0 <= c < |corners|
    ensures FaceVertices(s, corners[..c + 1]) == FaceVertices(s, corners[..c]) + AsSeq(Corner(s, corners[c]))
  {
    assert corners[..c + 1][..c] == corners[..c];
  }

  // ----- the line loop -----

  /** The effect of one line: each attribute stream grows by the element its
      own well-formed line yields, and the vertex stream by the corners of a
      fully matched face. */
  function Step(s: Streams, l: Line): (r: Streams)
    ensures r.positions == s.positions + AsSeq(PositionOf(l))
    ensures r.normals == s.normals + AsSeq(NormalOf(l))
    ensures r.uvs == s.uvs + AsSeq(TexCoordOf(l))
    ensures r.vertices == s.vertices + (if FaceOf(l).Some? then FaceVertices(s, FaceOf(l).value) else [])
  {
    match Classify(l.c0, l.c1)
    case Position =>
      if |l.floats| >= 3 then s.(positions := s.positions + [Vec3(l.floats[0], l.floats[1], l.floats[2])]) else s
    case Normal =>
      if |l.floats| >= 3 then s.(normals := s.normals + [Vec3(l.floats[0], l.floats[1], l.floats[2])]) else s
    case TexCoord =>
      if |l.floats| >= 2 then s.(uvs := s.uvs + [Vec2(l.floats[0], l.floats[1])]) else s
    case Face =>
      var face := FaceOf(l);
      if face.Some? then s.(vertices := s.vertices + FaceVertices(s, face.value)) else s
    case Ignored =>
      s
  }

  /** Reading `lines` in order, starting from streams `s`. A line feeds at
      most one attribute stream, and a face at most three vertices. */
  function Run(s: Streams, lines: seq<Line>): (r: Streams)
    ensures |r.positions| + |r.normals| + |r.uvs| <= |s.positions| + |s.normals| + |s.uvs| + |lines|
    ensures |r.vertices| <= |s.vertices| + 3 * |lines|
    decreases |lines|
  {
    if lines == [] then s else Run(Step(s, lines[0]), lines[1..])
  }

  /** The streams built from a whole file: no more attribute elements than
      lines, and no more vertices than three per line. */
  function Parse(lines: seq<Line>): (r: Streams)
    ensures |r.positions| + |r.normals| + |r.uvs| <= |lines|
    ensures |r.vertices| <= 3 * |lines|
  {
    Run(EMPTY, lines)
  }

  /** `LoadObjFromFile`, with `None` standing for a file that could not be
      opened. */
  function LoadObj(file: Option<seq<Line>>, pos: Vec3): (m: Mesh)
    ensures file.None? ==> m == ZERO_MESH
    ensures file.Some? ==> m.position == pos && m.vertices == Parse(file.value).vertices
    ensures m.vertexCount == |m.vertices| && m.size == m.vertexCount * SIZEOF_VERTEX
  {
    match file
    case None => ZERO_MESH
    case Some(lines) =>
      var vertices := Parse(lines).vertices;
      Mesh(pos, vertices, |vertices|, |vertices| * SIZEOF_VERTEX)
  }

  /** The elements that `pick` draws from the lines, in file order. */
  function Collect<T>(lines: seq<Line>, pick: Line -> Option<T>): seq<T>
  {
    if lines == [] then [] else AsSeq(pick(lines[0])) + Collect(lines[1..], pick)
  }
}
