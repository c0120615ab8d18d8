/// rust/src/programs/cube/plane.rs: a quadrilateral given by its four corners
/// (bottom left, top left, top right, bottom right), flattened into the
/// coordinate list a vertex buffer expects.
module Plane {
  import opened Point

  /** The concatenation of a list of rows. */
  function Concat(rows: seq<seq<real>>): seq<real>
  {
    if rows == [] then [] else Concat(rows[..|rows| - 1]) + rows[|rows| - 1]
  }

  lemma {:induction false} ConcatLength(rows: seq<seq<real>>, w: nat)
    requires forall k :: 0 <= k < |rows| ==> |rows[k]| == w
    ensures |Concat(rows)| == w * |rows|
  {
    if rows != [] {
      ConcatLength(rows[..|rows| - 1], w);
      assert w * |rows| == w * (|rows| - 1) + w;
    }
  }

  /** When every row has `w` elements, element `w * i + j` of the concatenation is element `j` of row `i`. */
  lemma {:induction false} ConcatAt(rows: seq<seq<real>>, w: nat, i: int, j: int)
    requires forall k :: 0 <= k < |rows| ==> |rows[k]| == w
    requires 0 <= i < |rows| && 0 <= j < w
    ensures |Concat(rows)| == w * |rows|
    ensures w * i + j < |Concat(rows)| && Concat(rows)[w * i + j] == rows[i][j]
  {
    var n := |rows|;
    var init := rows[..n - 1];
    ConcatLength(rows, w);
    ConcatLength(init, w);
    if i < n - 1 {
      ConcatAt(init, w, i, j);
    } else {
      assert w * i == w * (n - 1);
    }
  }

  /** Appending a row appends its elements. */
  lemma ConcatSnoc(rows: seq<seq<real>>, r: seq<real>)
    ensures Concat(rows + [r]) == Concat(rows) + r
  {
    assert (rows + [r])[..|rows|] == rows;
  }

  lemma {:induction false} ConcatAppend(rows: seq<seq<real>>, more: seq<seq<real>>)
    ensures Concat(rows + more) == Concat(rows) + Concat(more)
  {
    if more != [] {
      var init := more[..|more| - 1];
      assert (rows + more)[..|rows + more| - 1] == rows + init;
      ConcatAppend(rows, init);
    } else {
      assert rows + more == rows;
    }
  }

  /** `items.iter().for_each(|x| v.push(x.clone()))`: the items pushed one by one onto `v`. */
  method PushEach(v: seq<real>, items: seq<real>) returns (r: seq<real>)
    ensures r == v + items
  {
    r := v;
    var j := 0;
    while j < |items|
      invariant 0 <= j <= |items|
      invariant r == v + items[..j]
    {
      r := r + [items[j]];
      j := j + 1;
    }
    assert items[..j] == items;
  }

  /** The coordinate arrays of a list of 3D points, point by point. */
  function Rows3(ps: seq<Point3D>): (rows: seq<seq<real>>)
    ensures |rows| == |ps| && forall i :: 0 <= i < |ps| ==> rows[i] == ps[i].AsArray()
  {
    if ps == [] then [] else Rows3(ps[..|ps| - 1]) + [ps[|ps| - 1].AsArray()]
  }

  function Rows2(ps: seq<Point2D>): (rows: seq<seq<real>>)
    ensures |rows| == |ps| && forall i :: 0 <= i < |ps| ==> rows[i] == ps[i].AsArray()
  {
    if ps == [] then [] else Rows2(ps[..|ps| - 1]) + [ps[|ps| - 1].AsArray()]
  }

  datatype Plane3D = Plane3D(points: seq<Point3D>)
  {
    /** `points_as_array`: every corner's `as_array`, corner by corner. */
    method PointsAsArray() returns (returnable: seq<real>)
      ensures returnable == Concat(Rows3(points))
    {
      returnable := [];
      var i := 0;
      while i < |points|
        invariant 0 <= i <= |points|
        invariant returnable == Concat(Rows3(points[..i]))
      {
        var coords := points[i].AsArray();
        returnable := PushEach(returnable, coords);
        assert points[..i + 1][..i] == points[..i];
        assert Rows3(points[..i + 1]) == Rows3(points[..i]) + [coords];
        ConcatSnoc(Rows3(points[..i]), coords);
        i := i + 1;
      }
      assert points[..|points|] == points;
    }
  }

  /** `Plane3D::new(bl, tl, tr, br)`. */
  function NewPlane3D(bl: Point3D, tl: Point3D, tr: Point3D, br: Point3D): (p: Plane3D)
    ensures |p.points| == 4
    ensures p.points[0] == bl && p.points[1] == tl && p.points[2] == tr && p.points[3] == br
  {
    Plane3D([bl, tl, tr, br])
  }

  datatype Plane2D = Plane2D(points: seq<Point2D>)
  {
    /** `points_as_array`: every corner's `as_array`, corner by corner. */
    method PointsAsArray() returns (returnable: seq<real>)
      ensures returnable == Concat(Rows2(points))
    {
      returnable := [];
      var i := 0;
      while i < |points|
        invariant 0 <= i <= |points|
        invariant returnable == Concat(Rows2(points[..i]))
      {
        var coords := points[i].AsArray();
        returnable := PushEach(returnable, coords);
        assert points[..i + 1][..i] == points[..i];
        assert Rows2(points[..i + 1]) == Rows2(points[..i]) + [coords];
        ConcatSnoc(Rows2(points[..i]), coords);
        i := i + 1;
      }
      assert points[..|points|] == points;
    }
  }

  /** `Plane2D::new(bl, tl, tr, br)`. */
  function NewPlane2D(bl: Point2D, tl: Point2D, tr: Point2D, br: Point2D): (p: Plane2D)
    ensures |p.points| == 4
    ensures p.points[0] == bl && p.points[1] == tl && p.points[2] == tr && p.points[3] == br
  {
    Plane2D([bl, tl, tr, br])
  }

  /** A quadrilateral flattens to 12 coordinates, element `3 * i + j` being coordinate `j` of corner `i`. */
  lemma Plane3DLayout(p: Plane3D)
    requires |p.points| == 4
    ensures |Concat(Rows3(p.points))| == 12
    ensures forall i, j :: 0 <= i < 4 && 0 <= j < 3 ==> Concat(Rows3(p.points))[3 * i + j] == p.points[i].AsArray()[j]
  {
    ConcatLength(Rows3(p.points), 3);
    forall i, j | 0 <= i < 4 && 0 <= j < 3 ensures Concat(Rows3(p.points))[3 * i + j] == p.points[i].AsArray()[j] {
      ConcatAt(Rows3(p.points), 3, i, j);
    }
  }

  /** A flat quadrilateral flattens to 8 coordinates, element `2 * i + j` being coordinate `j` of corner `i`. */
  lemma Plane2DLayout(p: Plane2D)
    requires |p.points| == 4
    ensures |Concat(Rows2(p.points))| == 8
    ensures forall i, j :: 0 <= i < 4 && 0 <= j < 2 ==> Concat(Rows2(p.points))[2 * i + j] == p.points[i].AsArray()[j]
  {
    ConcatLength(Rows2(p.points), 2);
    forall i, j | 0 <= i < 4 && 0 <= j < 2 ensures Concat(Rows2(p.points))[2 * i + j] == p.points[i].AsArray()[j] {
      ConcatAt(Rows2(p.points), 2, i, j);
    }
  }
}
