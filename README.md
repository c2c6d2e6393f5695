# OBJ mesh loader of the SDL GPU test program, in Dafny

This project models the mesh-ingestion core of a small SDL3 GPU demo
(`main.c`). `LoadObjFromFile` reads a subset of the Wavefront OBJ format:
`v`, `vn` and `vt` lines, and triangular faces written `f v/vt/vn v/vt/vn v/vt/vn`.
It builds three attribute streams in capacity-doubling heap buffers. It then
turns every face corner into one flat, unshared `Vertex`. `CreateDefaultCube`
returns a built-in 36-vertex cube.

The model has six modules:

- `MeshTypes` (mesh_types.dfy): `Vec3`, `Vec2`, `Vertex`, `Mesh`, the
  all-zero mesh, the default normal `(0,1,0)` and UV `(0,0)`, and
  `sizeof(Vertex)` = 32 bytes.
- `ObjFormat` (obj_format.dfy): the loader as functions. A `Line` is what
  `fgets` and `sscanf` deliver: its first two characters and the values the
  branch's conversions read. The module holds the two-character dispatch,
  `resolve_index`, face-corner assembly with defaults, `Step` (one line) and
  `Parse` (a whole file).
- `ObjProperties` (obj_properties.dfy): lemmas about those functions. Streams
  keep file order and are append-only. Inert lines can be removed. A face adds
  at most three vertices. A one-triangle file gives the expected vertices.
- `Growable` (growable_buffer.dfy): the growable buffer as a class over an
  `array`. It has a count and a capacity, doubles the capacity and copies the
  block as `realloc` does.
- `ObjLoader` (obj_loader.dfy): `LoadObjFromFile` as imperative code. It has
  four buffers, a `while` loop over lines and a `for` loop over face corners.
  It is proved to return exactly `ObjFormat.LoadObj`.
- `Cube` (cube.dfy): the cube's vertex table as written and its mesh, and the
  corrected table of the finding below.

The file itself is a parameter: `None` means `fopen` failed, and `Some(lines)`
is the sequence of lines `fgets` returned.

In these details the model follows what `main.c` does:
- A `v`/`vn`/`vt` line with more numbers than needed is still accepted.
  `sscanf` ignores what follows its last conversion, so a `v` line with a
  fourth coordinate adds a position.
- A face line with more than three corners, such as the quad
  `f a/b/c d/e/f g/h/i j/k/l`, is read as its first three corners:
  `sscanf` stops after its nine conversions (main.c:140-144), and `FaceOf`
  only asks for at least nine integers.
- Allocation failure is not detected by the code, and skipped lines or
  corners are dropped silently.
- The vertex buffer grows before a corner's position index is checked. The
  capacity can therefore double for a corner that is then dropped.

## Model

| member | source | states |
|---|---|---|
| `ObjFormat.PositionOf` | main.c:110-116 | a line yields a position exactly when it starts `v ` and three floats matched; the position is those three floats |
| `ObjFormat.NormalOf` | main.c:119-126 | a line yields a normal exactly when it starts `vn` and three floats matched; the normal is those three floats |
| `ObjFormat.TexCoordOf` | main.c:128-136 | a line yields a UV exactly when it starts `vt` and two floats matched; the UV is those two floats |
| `ObjFormat.Classify` | main.c:110-138 | a line goes to positions, normals, UVs or faces exactly when its first two characters are `v `, `vn`, `vt` or `f `; any other line is ignored |
| `ObjFormat.FaceOf` | main.c:139-144 | a face line yields its three corners exactly when it is an `f ` line and all nine integers matched |
| `ObjFormat.ResolveIndex` | main.c:83-86 | the resolved offset lies in `[0, count)` exactly when the OBJ index addresses an element, 1-based from the start or negative from the end; so index 0 never does |
| `ObjFormat.ResolveIndexInverse` | main.c:83-86 | each offset `k` of a stream is reached by exactly the two indices `k+1` and `k-count` |
| `ObjFormat.ResolveIndexReadsElement` | main.c:83-86 | reading a stream at the resolved offset gives the element the OBJ index names, counted from the start or back from the end |
| `ObjFormat.Lookup` | main.c:157-172 | a normal or UV lookup yields the addressed element when the index is in range and the given default otherwise |
| `ObjFormat.Corner` | main.c:150-172 | a corner yields a vertex exactly when its position index is in range; that vertex copies the addressed position, and takes the addressed normal or `(0,1,0)` and the addressed UV or `(0,0)` |
| `ObjFormat.FaceVertices` | main.c:145-174 | a face yields at most one vertex per corner, in corner order |
| `ObjFormat.FaceVerticesComplete` | main.c:145-174 | a face yields one vertex for every corner exactly when all its position indices are in range |
| `ObjFormat.Step` | main.c:109-175 | each stream grows only by what a well-formed line of its own kind yields; a face changes only the vertex stream; malformed and other lines change nothing |
| `ObjFormat.Run` | main.c:109-176 | the `fgets` loop as a left fold of `Step`; each line feeds at most one attribute stream and adds at most three vertices (file order and append-only behaviour are `RunCollectsAttributes`, `AttributeOrder` and `RunAppendOnly`) |
| `ObjFormat.Parse` | main.c:95-176 | the streams of a whole file, read from four empty buffers: no more attribute elements than lines and no more than three vertices per line |
| `ObjFormat.LoadObj` | main.c:88-188 | an unopenable file gives the all-zero mesh; otherwise the mesh is at `pos`, holds the parsed vertices, has `vertex_count` equal to their number and `size` equal to that number times 32 |
| `ObjProperties.RunConcat` | main.c:109-176 | reading a file in two pieces is the same as reading it whole |
| `ObjProperties.RunAppendOnly` | main.c:109-176 | no stream element is ever removed or rewritten; the streams before any lines are prefixes of the streams after them |
| `ObjProperties.InertLineChangesNothing` | main.c:109-176 | a line that yields nothing can be deleted from any file without changing the result |
| `ObjProperties.IgnoredLineYieldsNothing` | main.c:110-138 | a line whose first two characters select no branch yields no position, normal, UV or face |
| `ObjProperties.RunCollectsAttributes` | main.c:110-137 | each attribute stream is exactly the values of its well-formed lines, in file order |
| `ObjProperties.AttributeOrder` | main.c:111-136 | the well-formed line of a kind with `n` such lines before it produces element `n` of that stream |
| `ObjProperties.VertexCountPerFace` | main.c:138-175 | a file yields at most three vertices per matched face, and exactly three per face (a multiple of three) when every corner's position resolves |
| `ObjProperties.OneTriangle` | main.c:109-175 | three `v`, one `vn`, one `vt` and `f 1/1/1 2/1/1 3/1/1` give three vertices with the positions in file order and the shared normal and UV |
| `ObjProperties.OneTriangleFromEnd` | main.c:83-86 | the face `f -3/-1/-1 -2/-1/-1 -1/-1/-1` gives the same triangle |
| `ObjProperties.OneTriangleDegenerate` | main.c:150-172 | a corner with position index 0 is dropped, and a normal index past the end takes the default normal |
| `Growable.GrowableBuffer.constructor` | main.c:95-104 | a new buffer is empty and has the initial capacity |
| `Growable.GrowableBuffer.GrowIfFull` | main.c:112-115 | the capacity doubles exactly when count has reached it; elements are preserved and there is then room for one more |
| `Growable.GrowableBuffer.PushWithinCapacity` | main.c:154-173 | the element is written at the old count; count grows by one and earlier elements are kept |
| `Growable.GrowableBuffer.Append` | main.c:112-116 | append doubles a full buffer, writes at the old count, grows count by one, keeps `count <= capacity` and preserves earlier elements |
| `ObjLoader.EmitCorner` | main.c:146-173 | one corner pass doubles the capacity of a full vertex buffer first, even for a corner it then drops, and appends exactly the vertex `Corner` gives; the attribute buffers are unchanged |
| `ObjLoader.AssembleFace` | main.c:145-174 | the corner loop appends exactly the face's vertices to the vertex buffer and leaves the attribute buffers unchanged |
| `ObjLoader.ProcessLine` | main.c:110-175 | one loop iteration changes the buffers exactly as `Step` changes the streams |
| `ObjLoader.LoadObjFromFile` | main.c:88-189 | the loader returns exactly `LoadObj`: the zero mesh for an unopenable file, otherwise the parsed vertices with their count and byte size |
| `Cube.BottomFaceStrayVertex` | main.c:235-241 | in the table as written, vertex 31 has a downward normal but lies on the top plane; every other vertex lies on its face, and the corrected table differs only at vertex 31 |
| `Cube.CubeVerticesOnFacePlanes` | main.c:193-242 | in the corrected table every vertex lies on the face plane its normal points out of |
| `Cube.CubeTrianglesFaceOutward` | main.c:193-242 | in the corrected table all twelve triangles wind counter-clockwise seen from outside, the front face the pipeline keeps under back-face culling |
| `Cube.CreateDefaultCube` | main.c:191-250 | the cube mesh is at `pos` and holds the 36 vertices of the table as written; `vertex_count` is 36, `size` is 36 × 32 bytes, and every vertex but vertex 31 lies on the plane of its face |
| `Cube.CreateDefaultCubeCorrected` | main.c:191-250 | with the bottom face repaired, the cube has every vertex on its face plane and all twelve triangles front-facing, and differs from the table as written only at vertex 31 |

## Findings

| source | as written | input that shows it | evidently intended | confidence | as-written member | corrected member |
|---|---|---|---|---|---|---|
| main.c:237 | the second bottom-face vertex is at `(0.5, 0.5, -0.5)` with normal `(0,-1,0)` | `CreateDefaultCube` with any position: vertex 31 lies on the top plane `y = 0.5` | `(0.5, -0.5, -0.5)`, on the bottom plane like the other five bottom-face vertices | high; not executed | `Cube.BottomFaceStrayVertex` | `Cube.CreateDefaultCubeCorrected` |

## Left out

- File I/O (`fopen`, `fgets`, `fclose`, `free`): the file is given as an optional sequence of lines. `fgets` uses a 256-byte buffer, so a longer line arrives as several lines. The model takes the lines as delivered and does not derive that split.
- `sscanf`'s lexing of floats and integers is not modelled. Each `Line` carries the values its branch's conversions read.
- Floats are modelled as exact reals. The loader only copies them, so no rounding arises.
- The `Mesh` vertex pointer is modelled by the vertices it points to. The model does not capture that `CreateDefaultCube` returns a pointer to one static table shared by every call, or that a loaded mesh owns its heap block.
- `malloc`/`realloc` failure is not modelled, and the source does not check it. The `int` overflow of `capacity *= 2`, of the counters and of `vert_count * sizeof(Vertex)` is not modelled either; counts are unbounded.
- Growable.GrowableBuffer.GrowIfFull: does not state that every capacity is the initial 2048 times a power of two; only the one-step doubling rule is stated.
- `LoadTexture` (main.c:47-81) reads a SPIR-V shader file into an SDL shader; it is file I/O plus one SDL call.
- `main` (main.c:252-729) is not modelled. It covers window, device, texture, sampler, pipeline and depth-texture setup, the staging uploads of the texture, vertex buffers and uniform buffer, the five scene slots, the render loop, and the matrix and trigonometry math. All of these are SDL GPU calls or floating-point numerics.
- The vertex-buffer upload releases each transfer buffer right after submitting the copy, without waiting for the device (main.c:441-443). The texture upload waits for the device first (main.c:372-374). This ordering is not modelled.
