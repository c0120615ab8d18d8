/// The data of rust/src/programs/cube.rs: the six faces of a cube of side 1
/// centred on the origin, the vertex buffer they flatten into, the colour
/// buffer giving every corner its face's colour, and the index buffer that
/// draws each face as two triangles. A WebGL buffer is modelled by the data
/// uploaded into it; the GL calls themselves are not modelled.
module Cube {
  import opened Point
  import opened Plane
  import opened Colors

  /** Half the side of the cube. */
  const Scale: real := 0.5

  /** Number of indices drawn by `draw_elements_with_i32`. */
  const VertexCount: int := 36

  /** The faces built in `new`, in the order front, back, left, right, top, bottom. */
  function Faces(s: real): (sides: seq<Plane3D>)
    ensures |sides| == 6 && forall f :: 0 <= f < 6 ==> |sides[f].points| == 4
  {
    [ NewPlane3D(Point3D(-s, -s, s), Point3D(-s, s, s), Point3D(s, s, s), Point3D(s, -s, s)),
      NewPlane3D(Point3D(-s, -s, -s), Point3D(-s, s, -s), Point3D(s, s, -s), Point3D(s, -s, -s)),
      NewPlane3D(Point3D(-s, -s, -s), Point3D(-s, s, -s), Point3D(-s, s, s), Point3D(-s, -s, s)),
      NewPlane3D(Point3D(s, -s, s), Point3D(s, s, s), Point3D(s, s, -s), Point3D(s, -s, -s)),
      NewPlane3D(Point3D(-s, s, s), Point3D(-s, s, -s), Point3D(s, s, -s), Point3D(s, s, s)),
      NewPlane3D(Point3D(-s, -s, s), Point3D(-s, -s, -s), Point3D(s, -s, -s), Point3D(s, -s, s)) ]
  }

  /** The colours given to the faces, in the same order. */
  const FaceColors: seq<SingleColor> := [
    SingleColor(1.0, 1.0, 1.0, 1.0),
    SingleColor(1.0, 0.0, 0.0, 1.0),
    SingleColor(0.0, 1.0, 0.0, 1.0),
    SingleColor(0.0, 0.0, 1.0, 1.0),
    SingleColor(1.0, 1.0, 0.0, 1.0),
    SingleColor(1.0, 0.0, 1.0, 1.0)
  ]

  /** The `indices` array of `init_buffers`. */
  const Indices: seq<int> := [
    0, 1, 2, 0, 2, 3,
    4, 5, 6, 4, 6, 7,
    8, 9, 10, 8, 10, 11,
    12, 13, 14, 12, 14, 15,
    16, 17, 18, 16, 18, 19,
    20, 21, 22, 20, 22, 23
  ]

  /** The axis (0 for x, 1 for y, 2 for z) on which every corner of face `f` sits at `FixedSign(f) * Scale`. */
  function FixedAxis(f: int): int
  {
    if f < 2 then 2 else if f < 4 then 0 else 1
  }

  function FixedSign(f: int): real
  {
    if f == 0 || f == 3 || f == 4 then 1.0 else -1.0
  }

  /** Each face's flattened corners, face by face. */
  function FaceRows(sides: seq<Plane3D>): (rows: seq<seq<real>>)
    ensures |rows| == |sides|
  {
    if sides == [] then [] else FaceRows(sides[..|sides| - 1]) + [Concat(Rows3(sides[|sides| - 1].points))]
  }

  /** `n` copies of a row. */
  function Copies(a: seq<real>, n: nat): (rows: seq<seq<real>>)
    ensures |rows| == n
  {
    if n == 0 then [] else Copies(a, n - 1) + [a]
  }

  /** The colour rows uploaded: each colour's components four times, once per corner of its face. */
  function ColorRows(colors: seq<SingleColor>): (rows: seq<seq<real>>)
    ensures |rows| == 4 * |colors|
  {
    if colors == [] then [] else ColorRows(colors[..|colors| - 1]) + Copies(colors[|colors| - 1].AsArray(), 4)
  }

  lemma {:induction false} CopiesAt(a: seq<real>, n: nat)
    ensures forall i :: 0 <= i < n ==> Copies(a, n)[i] == a
  {
    if n > 0 {
      CopiesAt(a, n - 1);
    }
  }

  lemma {:induction false} ColorRowsAt(colors: seq<SingleColor>)
    ensures forall i :: 0 <= i < |ColorRows(colors)| ==> ColorRows(colors)[i] == colors[i / 4].AsArray()
  {
    if colors != [] {
      ColorRowsAt(colors[..|colors| - 1]);
      CopiesAt(colors[|colors| - 1].AsArray(), 4);
    }
  }

  /** The `vertices` of `new`: every side's `points_as_array`, side by side. */
  method BuildVertices(sides: seq<Plane3D>) returns (vertices: seq<real>)
    ensures vertices == Concat(FaceRows(sides))
  {
    vertices := [];
    var i := 0;
    while i < |sides|
      invariant 0 <= i <= |sides|
      invariant vertices == Concat(FaceRows(sides[..i]))
    {
      var flat := sides[i].PointsAsArray();
      vertices := PushEach(vertices, flat);
      assert sides[..i + 1][..i] == sides[..i];
      assert FaceRows(sides[..i + 1]) == FaceRows(sides[..i]) + [Concat(Rows3(sides[i].points))];
      ConcatSnoc(FaceRows(sides[..i]), flat);
      i := i + 1;
    }
    assert sides[..|sides|] == sides;
  }

  /** One colour's contribution: its four channels pushed once for each of the face's four vertices. */
  method PushVertexColors(returnable: seq<real>, vals: seq<real>) returns (r: seq<real>)
    requires |vals| == 4
    ensures r == returnable + Concat(Copies(vals, 4))
  {
    r := returnable;
    var n := 0;
    while n < 4
      invariant 0 <= n <= 4
      invariant r == returnable + Concat(Copies(vals, n))
    {
      ghost var before := r;
      r := r + [vals[0]];
      r := r + [vals[1]];
      r := r + [vals[2]];
      r := r + [vals[3]];
      FourPushes(before, vals);
      assert Copies(vals, n + 1) == Copies(vals, n) + [vals];
      ConcatSnoc(Copies(vals, n), vals);
      n := n + 1;
    }
  }

  /** Pushing the four components of a colour one by one appends the colour. */
  lemma FourPushes(v: seq<real>, vals: seq<real>)
    requires |vals| == 4
    ensures v + [vals[0]] + [vals[1]] + [vals[2]] + [vals[3]] == v + vals
  {
    assert vals == [vals[0], vals[1], vals[2], vals[3]];
  }

  /** The colour data of `init_buffers`: for each colour, four times its r, g, b, a. */
  method BuildColors(colors: seq<SingleColor>) returns (returnable: seq<real>)
    ensures returnable == Concat(ColorRows(colors))
  {
    returnable := [];
    var f := 0;
    while f < |colors|
      invariant 0 <= f <= |colors|
      invariant returnable == Concat(ColorRows(colors[..f]))
    {
      var vals := colors[f].AsArray();
      returnable := PushVertexColors(returnable, vals);
      assert colors[..f + 1][..f] == colors[..f];
      assert ColorRows(colors[..f + 1]) == ColorRows(colors[..f]) + Copies(vals, 4);
      ConcatAppend(ColorRows(colors[..f]), Copies(vals, 4));
      f := f + 1;
    }
    assert colors[..|colors|] == colors;
  }

  /** The buffers `init_buffers` fills: the vertices as given, the expanded colours, and the indices. */
  method InitBuffers(vertices: seq<real>, colors: seq<SingleColor>) returns (positions: seq<real>, colorData: seq<real>, indices: seq<int>)
    ensures positions == vertices
    ensures colorData == Concat(ColorRows(colors))
    ensures indices == Indices
  {
    positions := vertices;
    colorData := BuildColors(colors);
    indices := Indices;
  }

  /** Every corner of every face has each coordinate equal to +s or -s, and the face's own axis at its sign. */
  lemma CornersOnFaces(s: real, f: int, c: int, k: int)
    requires 0 <= f < 6 && 0 <= c < 4 && 0 <= k < 3
    ensures Faces(s)[f].points[c].AsArray()[k] in {s, -s}
    ensures Faces(s)[f].points[c].AsArray()[FixedAxis(f)] == FixedSign(f) * s
  {
    assert f in {0, 1, 2, 3, 4, 5} && c in {0, 1, 2, 3} && k in {0, 1, 2};
  }

  lemma {:induction false} FaceRowsAt(sides: seq<Plane3D>)
    ensures |FaceRows(sides)| == |sides|
    ensures forall f :: 0 <= f < |sides| ==> FaceRows(sides)[f] == Concat(Rows3(sides[f].points))
  {
    if sides != [] {
      FaceRowsAt(sides[..|sides| - 1]);
    }
  }

  /** With four corners a face, the faces flatten to twelve coordinates each. */
  lemma FaceRowsWidth(sides: seq<Plane3D>)
    requires forall f :: 0 <= f < |sides| ==> |sides[f].points| == 4
    ensures forall f :: 0 <= f < |sides| ==> |FaceRows(sides)[f]| == 12
    ensures |Concat(FaceRows(sides))| == 12 * |sides|
  {
    FaceRowsAt(sides);
    forall f | 0 <= f < |sides| ensures |FaceRows(sides)[f]| == 12 {
      ConcatLength(Rows3(sides[f].points), 3);
    }
    ConcatLength(FaceRows(sides), 12);
  }

  /** Coordinate `k` of corner `c` of face `f` is element `12 * f + 3 * c + k` of the vertices. */
  lemma VertexAt(sides: seq<Plane3D>, f: int, c: int, k: int)
    requires forall g :: 0 <= g < |sides| ==> |sides[g].points| == 4
    requires 0 <= f < |sides| && 0 <= c < 4 && 0 <= k < 3
    ensures 12 * f + 3 * c + k < |Concat(FaceRows(sides))|
    ensures Concat(FaceRows(sides))[12 * f + 3 * c + k] == sides[f].points[c].AsArray()[k]
  {
    FaceRowsAt(sides);
    FaceRowsWidth(sides);
    ConcatAt(FaceRows(sides), 12, f, 3 * c + k);
    ConcatAt(Rows3(sides[f].points), 3, c, k);
  }

  /** The vertex buffer holds 72 coordinates, 24 corners of 3; every coordinate is +0.5 or -0.5, and
      the corners of each face share the coordinate that puts them on that face. */
  lemma VertexLayout()
    ensures |Concat(FaceRows(Faces(Scale)))| == 72
    ensures forall i :: 0 <= i < 72 ==>
              Concat(FaceRows(Faces(Scale)))[i] == Faces(Scale)[i / 12].points[(i % 12) / 3].AsArray()[i % 3]
    ensures forall i :: 0 <= i < 72 ==> Concat(FaceRows(Faces(Scale)))[i] in {Scale, -Scale}
    ensures forall i :: 0 <= i < 72 && i % 3 == FixedAxis(i / 12) ==> Concat(FaceRows(Faces(Scale)))[i] == FixedSign(i / 12) * Scale
  {
    FaceRowsWidth(Faces(Scale));
    forall i | 0 <= i < 72
      ensures Concat(FaceRows(Faces(Scale)))[i] == Faces(Scale)[i / 12].points[(i % 12) / 3].AsArray()[i % 3]
      ensures Concat(FaceRows(Faces(Scale)))[i] in {Scale, -Scale}
      ensures i % 3 == FixedAxis(i / 12) ==> Concat(FaceRows(Faces(Scale)))[i] == FixedSign(i / 12) * Scale
    {
      var f, c, k := i / 12, (i % 12) / 3, i % 3;
      assert i == 12 * f + 3 * c + k;
      VertexAt(Faces(Scale), f, c, k);
      CornersOnFaces(Scale, f, c, k);
    }
  }

  /** The colour buffer holds 16 components per colour: entries `16 * f` to `16 * f + 15` are
      colour `f`'s r, g, b, a, once for each of the four corners of its face. */
  lemma ColorLayout(colors: seq<SingleColor>)
    ensures |Concat(ColorRows(colors))| == 16 * |colors|
    ensures forall i :: 0 <= i < 16 * |colors| ==> Concat(ColorRows(colors))[i] == colors[i / 16].AsArray()[i % 4]
  {
    var rows := ColorRows(colors);
    ColorRowsAt(colors);
    ConcatLength(rows, 4);
    forall i | 0 <= i < 16 * |colors| ensures Concat(rows)[i] == colors[i / 16].AsArray()[i % 4] {
      ConcatAt(rows, 4, i / 4, i % 4);
      assert (i / 4) / 4 == i / 16;
    }
  }

  /** The indices draw each face as the triangles (0, 1, 2) and (0, 2, 3) of its own four corners:
      36 of them, as many as are drawn, each naming one of the 24 corners, of the face `i / 6`. */
  lemma IndexLayout()
    ensures |Indices| == VertexCount
    ensures forall i :: 0 <= i < |Indices| ==> Indices[i] == 4 * (i / 6) + [0, 1, 2, 0, 2, 3][i % 6]
    ensures forall i :: 0 <= i < |Indices| ==> 0 <= Indices[i] < 24 && Indices[i] / 4 == i / 6
  {
    forall i | 0 <= i < |Indices|
      ensures Indices[i] == 4 * (i / 6) + [0, 1, 2, 0, 2, 3][i % 6]
      ensures 0 <= Indices[i] < 24 && Indices[i] / 4 == i / 6
    {
      assert i in {0, 1, 2, 3, 4, 5, 6, 7, 8, 9, 10, 11, 12, 13, 14, 15, 16, 17,
                   18, 19, 20, 21, 22, 23, 24, 25, 26, 27, 28, 29, 30, 31, 32, 33, 34, 35};
    }
  }

  /** The cube: its faces and colours, the data of its three GL buffers, and the rotation state
      `draw_scene` advances. */
  class Cube {
    const sides: seq<Plane3D>
    const colors: seq<SingleColor>
    const bufferVertices: seq<real>
    const bufferColors: seq<real>
    const bufferIndices: seq<int>
    var lastRotation: real
    var squareRotation: real

    /** `new`, at time `now` (milliseconds). */
    constructor (now: real)
      ensures sides == Faces(Scale) && colors == FaceColors
      ensures bufferVertices == Concat(FaceRows(sides)) && |bufferVertices| == 72
      ensures bufferColors == Concat(ColorRows(colors)) && |bufferColors| == 96
      ensures bufferIndices == Indices && forall i :: 0 <= i < |bufferIndices| ==> 0 <= bufferIndices[i] < |bufferVertices| / 3
      ensures squareRotation == 0.0 && lastRotation == now
    {
      var faces := Faces(Scale);
      var vertices := BuildVertices(faces);
      var positions, colorData, indices := InitBuffers(vertices, FaceColors);
      VertexLayout();
      ColorLayout(FaceColors);
      IndexLayout();
      sides := faces;
      colors := FaceColors;
      bufferVertices := positions;
      bufferColors := colorData;
      bufferIndices := indices;
      squareRotation := 0.0;
      lastRotation := now;
    }

    /** The end of `draw_scene`: the rotation grows by a thousandth of the milliseconds elapsed. */
    method AdvanceRotation(now: real)
      modifies this`squareRotation, this`lastRotation
      ensures squareRotation == old(squareRotation) + (now - old(lastRotation)) * 0.001
      ensures lastRotation == now
    {
      squareRotation := squareRotation + (now - lastRotation) * 0.001;
      lastRotation := now;
    }
  }
}
