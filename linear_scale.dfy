/** The linear scales the chart builds with d3-scale's `scaleLinear()`:
    a domain [d0, d1] mapped onto a range [r0, r1], without clamping. */
module LinearScale {

  datatype Linear = Linear(d0: real, d1: real, r0: real, r1: real) {

    /** Position of `x` within the domain, as a fraction: 0 at d0, 1 at d1.
        A domain with equal ends maps everything to the middle (0.5). */
    function Normalize(x: real): (t: real)
      ensures d0 != d1 ==> (t == 0.0 <==> x == d0)
      ensures d0 != d1 ==> (t == 1.0 <==> x == d1)
      ensures d0 == d1 ==> t == 0.5
    {
      if d1 - d0 != 0.0 then
        var t := (x - d0) / (d1 - d0);
        assert t * (d1 - d0) == x - d0;
        assert x == d1 ==> t == (d1 - d0) / (d1 - d0) == 1.0;
        assert t == 1.0 ==> 1.0 * (d1 - d0) == x - d0;
        t
      else 0.5
    }

    /** The scale applied to `x`: the range interpolated at Normalize(x).
        A non-degenerate scale is affine, moving the output by
        (r1 - r0) / (d1 - d0) per unit of the domain; a degenerate one is
        constant at the middle of the range. */
    function Apply(x: real): (y: real)
      ensures d0 != d1 ==> y == r0 + (x - d0) * ((r1 - r0) / (d1 - d0))
      ensures d0 == d1 ==> y == (r0 + r1) / 2.0
    {
      var t := Normalize(x);
      assert d0 != d1 ==> (r1 - r0) * t == (x - d0) * ((r1 - r0) / (d1 - d0));
      r0 * (1.0 - t) + r1 * t
    }
  }

  /** A non-degenerate scale sends its domain ends to its range ends. */
  lemma ApplyEnds(s: Linear)
    requires s.d0 != s.d1
    ensures s.Apply(s.d0) == s.r0 && s.Apply(s.d1) == s.r1
  {
  }

  /** With an increasing domain and a non-decreasing range, the scale is
      non-decreasing. */
  lemma ApplyMonotone(s: Linear, x: real, y: real)
    requires s.d0 < s.d1 && s.r0 <= s.r1 && x <= y
    ensures s.Apply(x) <= s.Apply(y)
  {
    var k := (s.r1 - s.r0) / (s.d1 - s.d0);
    assert k >= 0.0;
    assert (x - s.d0) * k <= (y - s.d0) * k;
  }
}
