/// rust/src/programs/colors.rs: an RGBA colour.
module Colors {

  datatype SingleColor = SingleColor(r: real, g: real, b: real, a: real)
  {
    /** `as_array`: the components in the order r, g, b, a. */
    function AsArray(): (s: seq<real>)
      ensures |s| == 4 && s[0] == r && s[1] == g && s[2] == b && s[3] == a
    {
      [r, g, b, a]
    }
  }
}
