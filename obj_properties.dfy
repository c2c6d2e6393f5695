/** Properties of the OBJ reading functions: streams are append-only and
    preserve file order, lines the loader does not use change nothing, a face
    adds at most three vertices, and a small file yields the expected
    triangle. */
module ObjProperties {
  import opened MeshTypes
  import opened ObjFormat

  /** Reading two pieces of a file one after the other is reading the whole. */
  lemma {:induction false} RunConcat(s: Streams, a: seq<Line>, b: seq<Line>)
    ensures Run(s, a + b) == Run(Run(s, a), b)
    decreases |a|
  {
    if a != [] {
      assert (a + b)[0] == a[0];
      assert (a + b)[1..] == a[1..] + b;
      RunConcat(Step(s, a[0]), a[1..], b);
    } else {
      assert a + b == b;
    }
  }

  /** No attribute stream and no vertex is ever removed or rewritten: the
      streams before reading some lines are prefixes of the streams after. */
  lemma {:induction false} RunAppendOnly(s: Streams, lines: seq<Line>)
    ensures var r := Run(s, lines);
      s.positions <= r.positions && s.normals <= r.normals &&
      s.uvs <= r.uvs && s.vertices <= r.vertices
    decreases |lines|
  {
    if lines != [] {
      RunAppendOnly(Step(s, lines[0]), lines[1..]);
    }
  }

  /** A line that yields nothing (a comment, a group directive, a blank
      line, or a `v`/`vn`/`vt`/`f` line whose fields did not all match) can
      be removed from any file without changing what is read. */
  lemma InertLineChangesNothing(a: seq<Line>, l: Line, b: seq<Line>)
    requires PositionOf(l).None? && NormalOf(l).None? && TexCoordOf(l).None? && FaceOf(l).None?
    ensures Parse(a + [l] + b) == Parse(a + b)
  {
    RunConcat(EMPTY, a + [l], b);
    RunConcat(EMPTY, a, [l]);
    RunConcat(EMPTY, a, b);
    var s := Run(EMPTY, a);
    assert Run(s, [l]) == Run(Step(s, l), []);
  }

  /** Every line that the dispatch ignores yields nothing. */
  lemma IgnoredLineYieldsNothing(l: Line)
    requires Classify(l.c0, l.c1) == Ignored
    ensures PositionOf(l).None? && NormalOf(l).None? && TexCoordOf(l).None? && FaceOf(l).None?
  {
  }

  /** `Collect` distributes over concatenation. */
  lemma {:induction false} CollectConcat<T>(a: seq<Line>, b: seq<Line>, pick: Line -> Option<T>)
    ensures Collect(a + b, pick) == Collect(a, pick) + Collect(b, pick)
    decreases |a|
  {
    if a == [] {
      assert a + b == b;
    } else {
      assert (a + b)[0] == a[0];
      assert (a + b)[1..] == a[1..] + b;
      CollectConcat(a[1..], b, pick);
    }
  }

  /** The element drawn from line `i` sits, in the collected sequence, right
      after the elements drawn from the lines before it. */
  lemma CollectAt<T>(lines: seq<Line>, i: int, pick: Line -> Option<T>)
    requires 0 <= i < |lines| && pick(lines[i]).Some?
    ensures |Collect(lines[..i], pick)| < |Collect(lines, pick)|
    ensures Collect(lines, pick)[|Collect(lines[..i], pick)|] == pick(lines[i]).value
  {
    assert lines == lines[..i] + ([lines[i]] + lines[i + 1..]);
    CollectConcat(lines[..i], [lines[i]] + lines[i + 1..], pick);
    CollectConcat([lines[i]], lines[i + 1..], pick);
    assert Collect([lines[i]], pick) == [pick(lines[i]).value] + Collect([], pick);
  }

  lemma {:induction false} RunCollectsPositions(s: Streams, lines: seq<Line>)
    ensures Run(s, lines).positions == s.positions + Collect(lines, PositionOf)
    decreases |lines|
  {
    if lines != [] {
      var next := Step(s, lines[0]);
      RunCollectsPositions(next, lines[1..]);
      assert Collect(lines, PositionOf) == AsSeq(PositionOf(lines[0])) + Collect(lines[1..], PositionOf);
      assert next.positions + Collect(lines[1..], PositionOf) == s.positions + Collect(lines, PositionOf);
    }
  }

  lemma {:induction false} RunCollectsNormals(s: Streams, lines: seq<Line>)
    ensures Run(s, lines).normals == s.normals + Collect(lines, NormalOf)
    decreases |lines|
  {
    if lines != [] {
      var next := Step(s, lines[0]);
      RunCollectsNormals(next, lines[1..]);
      assert Collect(lines, NormalOf) == AsSeq(NormalOf(lines[0])) + Collect(lines[1..], NormalOf);
      assert next.normals + Collect(lines[1..], NormalOf) == s.normals + Collect(lines, NormalOf);
    }
  }

  lemma {:induction false} RunCollectsTexCoords(s: Streams, lines: seq<Line>)
    ensures Run(s, lines).uvs == s.uvs + Collect(lines, TexCoordOf)
    decreases |lines|
  {
    if lines != [] {
      var next := Step(s, lines[0]);
      RunCollectsTexCoords(next, lines[1..]);
      assert Collect(lines, TexCoordOf) == AsSeq(TexCoordOf(lines[0])) + Collect(lines[1..], TexCoordOf);
      assert next.uvs + Collect(lines[1..], TexCoordOf) == s.uvs + Collect(lines, TexCoordOf);
    }
  }

  /** Each attribute stream holds exactly what its well-formed lines carry,
      in file order. */
  lemma RunCollectsAttributes(s: Streams, lines: seq<Line>)
    ensures Run(s, lines).positions == s.positions + Collect(lines, PositionOf)
    ensures Run(s, lines).normals == s.normals + Collect(lines, NormalOf)
    ensures Run(s, lines).uvs == s.uvs + Collect(lines, TexCoordOf)
  {
    RunCollectsPositions(s, lines);
    RunCollectsNormals(s, lines);
    RunCollectsTexCoords(s, lines);
  }

  /** Order preservation: the well-formed `v` (`vn`, `vt`) line that has `n`
      well-formed lines of its kind before it produces element `n` of its
      stream. */
  lemma AttributeOrder(lines: seq<Line>, i: int)
    requires 0 <= i < |lines|
    ensures PositionOf(lines[i]).Some? ==>
              var n := |Collect(lines[..i], PositionOf)|;
              n < |Parse(lines).positions| && Parse(lines).positions[n] == PositionOf(lines[i]).value
    ensures NormalOf(lines[i]).Some? ==>
              var n := |Collect(lines[..i], NormalOf)|;
              n < |Parse(lines).normals| && Parse(lines).normals[n] == NormalOf(lines[i]).value
    ensures TexCoordOf(lines[i]).Some? ==>
              var n := |Collect(lines[..i], TexCoordOf)|;
              n < |Parse(lines).uvs| && Parse(lines).uvs[n] == TexCoordOf(lines[i]).value
  {
    RunCollectsAttributes(EMPTY, lines);
    assert Parse(lines) == Run(EMPTY, lines);
    if PositionOf(lines[i]).Some? { CollectAt(lines, i, PositionOf); }
    if NormalOf(lines[i]).Some? { CollectAt(lines, i, NormalOf); }
    if TexCoordOf(lines[i]).Some? { CollectAt(lines, i, TexCoordOf); }
  }

  /** Every corner of a face has its position index in range. */
  ghost predicate CornersResolve(s: Streams, corners: seq<CornerRef>)
  {
    forall c :: 0 <= c < |corners| ==> Addresses(corners[c].v, |s.positions|)
  }

  /** Every matched face of the file, read from `s`, has all three position
      indices in range at the point where it is read. */
  ghost predicate FacesResolve(s: Streams, lines: seq<Line>)
    decreases |lines|
  {
    lines == [] ||
    ((FaceOf(lines[0]).Some? ==> CornersResolve(s, FaceOf(lines[0]).value)) &&
     FacesResolve(Step(s, lines[0]), lines[1..]))
  }

  /** Each matched face adds at most three vertices, so a file yields at
      most three vertices per matched face; when every corner resolves it
      yields exactly three, and the vertex count is a multiple of three. */
  lemma {:induction false} VertexCountPerFace(s: Streams, lines: seq<Line>)
    ensures |Run(s, lines).vertices| <= |s.vertices| + 3 * |Collect(lines, FaceOf)|
    ensures FacesResolve(s, lines) ==>
              |Run(s, lines).vertices| == |s.vertices| + 3 * |Collect(lines, FaceOf)|
    decreases |lines|
  {
    if lines != [] {
      VertexCountPerFace(Step(s, lines[0]), lines[1..]);
      if FaceOf(lines[0]).Some? {
        FaceVerticesComplete(s, FaceOf(lines[0]).value);
      }
    }
  }

  /** A `v` line as `sscanf` reads it. */
  function PositionLine(p: Vec3): Line
  {
    Line('v', ' ', [p.x, p.y, p.z], [])
  }

  /** A `vn` line as `sscanf` reads it. */
  function NormalLine(n: Vec3): Line
  {
    Line('v', 'n', [n.x, n.y, n.z], [])
  }

  /** A `vt` line as `sscanf` reads it. */
  function TexCoordLine(t: Vec2): Line
  {
    Line('v', 't', [t.x, t.y], [])
  }

  /** An `f v/vt/vn v/vt/vn v/vt/vn` line as `sscanf` reads it. */
  function FaceLine(c0: CornerRef, c1: CornerRef, c2: CornerRef): Line
  {
    Line('f', ' ', [], [c0.v, c0.vt, c0.vn, c1.v, c1.vt, c1.vn, c2.v, c2.vt, c2.vn])
  }

  /** Three positions, one normal, one texture coordinate. */
  function TriangleHeader(a: Vec3, b: Vec3, c: Vec3, n: Vec3, t: Vec2): seq<Line>
  {
    [PositionLine(a), PositionLine(b), PositionLine(c), NormalLine(n), TexCoordLine(t)]
  }

  lemma RunCons(s: Streams, l: Line, rest: seq<Line>)
    ensures Run(s, [l] + rest) == Run(Step(s, l), rest)
  {
    assert ([l] + rest)[1..] == rest;
  }

  lemma HeaderStreams(a: Vec3, b: Vec3, c: Vec3, n: Vec3, t: Vec2)
    ensures Parse(TriangleHeader(a, b, c, n, t)) == Streams([a, b, c], [n], [t], [])
  {
    var pa, pb, pc, nl, tl := PositionLine(a), PositionLine(b), PositionLine(c), NormalLine(n), TexCoordLine(t);
    assert TriangleHeader(a, b, c, n, t) == [pa] + ([pb] + ([pc] + ([nl] + ([tl] + []))));
    var s1 := Streams([a], [], [], []);
    var s2 := Streams([a, b], [], [], []);
    var s3 := Streams([a, b, c], [], [], []);
    var s4 := Streams([a, b, c], [n], [], []);
    var s5 := Streams([a, b, c], [n], [t], []);
    assert Step(EMPTY, pa) == s1;
    assert Step(s1, pb) == s2;
    assert Step(s2, pc) == s3;
    assert Step(s3, nl) == s4;
    assert Step(s4, tl) == s5;
    RunCons(EMPTY, pa, [pb] + ([pc] + ([nl] + ([tl] + []))));
    RunCons(s1, pb, [pc] + ([nl] + ([tl] + [])));
    RunCons(s2, pc, [nl] + ([tl] + []));
    RunCons(s3, nl, [tl] + []);
    RunCons(s4, tl, []);
  }

  /** The vertices of a three-corner face are its corners' vertices in
      order. */
  lemma FaceVerticesOfThree(s: Streams, cs: seq<CornerRef>)
    requires |cs| == 3
    ensures FaceVertices(s, cs) == AsSeq(Corner(s, cs[0])) + AsSeq(Corner(s, cs[1])) + AsSeq(Corner(s, cs[2]))
  {
    assert cs[..|cs| - 1] == cs[..2];
    assert cs[..2][..1] == cs[..1];
    assert cs[..1][..0] == [];
    assert FaceVertices(s, cs[..1]) == FaceVertices(s, []) + AsSeq(Corner(s, cs[0]));
    assert FaceVertices(s, cs[..2]) == FaceVertices(s, cs[..1]) + AsSeq(Corner(s, cs[1]));
  }

  /** Reading a face line after the header reads it against the header's
      streams. */
  lemma FaceAfterHeader(a: Vec3, b: Vec3, c: Vec3, n: Vec3, t: Vec2, f: Line)
    ensures Parse(TriangleHeader(a, b, c, n, t) + [f]) == Step(Streams([a, b, c], [n], [t], []), f)
  {
    HeaderStreams(a, b, c, n, t);
    RunConcat(EMPTY, TriangleHeader(a, b, c, n, t), [f]);
    RunCons(Streams([a, b, c], [n], [t], []), f, []);
  }

  /** A face line whose nine integers all matched adds its corners'
      vertices, in order, and nothing else. */
  lemma StepFaceLine(s: Streams, c0: CornerRef, c1: CornerRef, c2: CornerRef)
    ensures Step(s, FaceLine(c0, c1, c2)).vertices
            == s.vertices + AsSeq(Corner(s, c0)) + AsSeq(Corner(s, c1)) + AsSeq(Corner(s, c2))
  {
    assert FaceOf(FaceLine(c0, c1, c2)) == Some([c0, c1, c2]);
    FaceVerticesOfThree(s, [c0, c1, c2]);
  }

  /** A one-triangle file yields three vertices that carry the three
      positions in file order and share the one normal and texture
      coordinate. */
  lemma OneTriangle(a: Vec3, b: Vec3, c: Vec3, n: Vec3, t: Vec2)
    ensures Parse(TriangleHeader(a, b, c, n, t) +
                  [FaceLine(CornerRef(1, 1, 1), CornerRef(2, 1, 1), CornerRef(3, 1, 1))]).vertices
            == [Vertex(a, n, t), Vertex(b, n, t), Vertex(c, n, t)]
  {
    var k0, k1, k2 := CornerRef(1, 1, 1), CornerRef(2, 1, 1), CornerRef(3, 1, 1);
    var s := Streams([a, b, c], [n], [t], []);
    FaceAfterHeader(a, b, c, n, t, FaceLine(k0, k1, k2));
    StepFaceLine(s, k0, k1, k2);
    assert Corner(s, k0) == Some(Vertex(a, n, t));
    assert Corner(s, k1) == Some(Vertex(b, n, t));
    assert Corner(s, k2) == Some(Vertex(c, n, t));
  }

  /** Indexing the same elements back from the end yields the same
      triangle. */
  lemma OneTriangleFromEnd(a: Vec3, b: Vec3, c: Vec3, n: Vec3, t: Vec2)
    ensures Parse(TriangleHeader(a, b, c, n, t) +
                  [FaceLine(CornerRef(-3, -1, -1), CornerRef(-2, -1, -1), CornerRef(-1, -1, -1))]).vertices
            == [Vertex(a, n, t), Vertex(b, n, t), Vertex(c, n, t)]
  {
    var k0, k1, k2 := CornerRef(-3, -1, -1), CornerRef(-2, -1, -1), CornerRef(-1, -1, -1);
    var s := Streams([a, b, c], [n], [t], []);
    FaceAfterHeader(a, b, c, n, t, FaceLine(k0, k1, k2));
    StepFaceLine(s, k0, k1, k2);
    assert Corner(s, k0) == Some(Vertex(a, n, t));
    assert Corner(s, k1) == Some(Vertex(b, n, t));
    assert Corner(s, k2) == Some(Vertex(c, n, t));
  }

  /** A corner with position index 0 is dropped, leaving two vertices, and a
      normal index past the end of the normals falls back to the default. */
  lemma OneTriangleDegenerate(a: Vec3, b: Vec3, c: Vec3, n: Vec3, t: Vec2)
    ensures Parse(TriangleHeader(a, b, c, n, t) +
                  [FaceLine(CornerRef(0, 1, 1), CornerRef(2, 1, 2), CornerRef(3, 1, 1))]).vertices
            == [Vertex(b, DEFAULT_NORMAL, t), Vertex(c, n, t)]
  {
    var k0, k1, k2 := CornerRef(0, 1, 1), CornerRef(2, 1, 2), CornerRef(3, 1, 1);
    var s := Streams([a, b, c], [n], [t], []);
    FaceAfterHeader(a, b, c, n, t, FaceLine(k0, k1, k2));
    StepFaceLine(s, k0, k1, k2);
    assert Corner(s, k0) == None;
    assert Corner(s, k1) == Some(Vertex(b, DEFAULT_NORMAL, t));
    assert Corner(s, k2) == Some(Vertex(c, n, t));
  }
}
