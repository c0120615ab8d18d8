/// rust/src/programs/cube/point.rs: corners of the cube and of flat shapes.
/// Coordinates are only copied, never computed, so they are modelled as reals.
module Point {

  datatype Point3D = Point3D(x: real, y: real, z: real)
  {
    /** `as_array`: the coordinates in the order x, y, z. */
    function AsArray(): (r: seq<real>)
      ensures |r| == 3 && r[0] == x && r[1] == y && r[2] == z
    {
      [x, y, z]
    }
  }

  datatype Point2D = Point2D(x: real, y: real)
  {
    /** `as_array`: the coordinates in the order x, y. */
    function AsArray(): (r: seq<real>)
      ensures |r| == 2 && r[0] == x && r[1] == y
    {
      [x, y]
    }
  }

}
