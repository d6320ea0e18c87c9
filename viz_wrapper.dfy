/** The radii and ring scales the chart component derives from its size
    (the embedded VizWrapper.tsx of src/files.ts). */
module VizWrapper {
  import opened Data
  import opened LinearScale
  import Viz

  /** `Math.min(width, height) / 2`. */
  function Radius(width: real, height: real): (r: real)
    ensures r * 2.0 <= width && r * 2.0 <= height
    ensures r * 2.0 == width || r * 2.0 == height
  {
    (if width <= height then width else height) / 2.0
  }

  /** The innermost ring starts at a sixteenth of the radius. */
  function InnerRadius(width: real, height: real): (r: real)
    ensures r * 16.0 == Radius(width, height)
    ensures width > 0.0 && height > 0.0 ==> 0.0 < r < Radius(width, height)
  {
    Radius(width, height) / 16.0
  }

  /** The outermost ring ends at the radius, outside the inner radius
      exactly when the chart has a positive size. */
  function OuterRadius(width: real, height: real): (r: real)
    ensures r == Radius(width, height)
    ensures r > InnerRadius(width, height) <==> width > 0.0 && height > 0.0
  {
    Radius(width, height)
  }

  /** `rScale`: ring index onto [innerRadius, outerRadius]. It is the `y`
      scale the drawing code builds from the same radii and ring count. */
  function RScale(width: real, height: real, rings: nat): (r: Linear)
    ensures rings > 0 ==>
      r.Apply(0.0) == InnerRadius(width, height) && r.Apply(rings as real) == OuterRadius(width, height)
  {
    Viz.YScale(InnerRadius(width, height), OuterRadius(width, height), rings)
  }

  /** `getDountScale(i)`: a value in [0, 1] onto the band of ring `i`,
      [rScale(i), rScale(i + 1)]. */
  function DountScale(width: real, height: real, rings: nat, i: int): (s: Linear)
    ensures s.Apply(0.0) == RScale(width, height, rings).Apply(i as real)
    ensures s.Apply(1.0) == RScale(width, height, rings).Apply(i as real + 1.0)
  {
    var r := RScale(width, height, rings);
    Linear(0.0, 1.0, r.Apply(i as real), r.Apply(i as real + 1.0))
  }

  /** The ring scale runs from a sixteenth of the outer radius at ring 0 to
      the outer radius at the last ring's outer edge. */
  lemma RScaleEnds(width: real, height: real, rings: nat)
    requires rings > 0
    ensures RScale(width, height, rings).Apply(0.0) == OuterRadius(width, height) / 16.0
    ensures RScale(width, height, rings).Apply(rings as real) == OuterRadius(width, height)
  {
  }

  /** Neighbouring ring bands touch: the next ring's value scale starts
      where this one's ends. */
  lemma DountScaleEnds(width: real, height: real, rings: nat, i: int)
    ensures DountScale(width, height, rings, i + 1).Apply(0.0) == DountScale(width, height, rings, i).Apply(1.0)
  {
  }

  /** A point's marker, placed with `y(dount + value)`, sits at the radius
      its ring's path gives it, `getDountScale(dount)(value)`: markers lie on
      the ring curves. With no ring both scales are degenerate and agree too. */
  lemma MarkerOnRingPath(width: real, height: real, rings: nat, p: DataShape)
    ensures Viz.MarkerRadius(InnerRadius(width, height), OuterRadius(width, height), rings, p)
         == DountScale(width, height, rings, p.dount).Apply(p.value)
  {
  }

  /** The path of ring `i` is drawn with `getDountScale(i)`, keyed on the
      ring's position in the dataset. In a well-formed dataset every point of
      ring `i` has `dount == i`, so its marker lies on that path. */
  lemma MarkerOnIndexedRingPath(width: real, height: real, d: Dataset, i: nat, j: nat)
    requires WellFormed(d) && i < |d| && j < |d[i]|
    ensures Viz.MarkerRadius(InnerRadius(width, height), OuterRadius(width, height), |d|, d[i][j])
         == DountScale(width, height, |d|, i).Apply(d[i][j].value)
  {
    MarkerOnRingPath(width, height, |d|, d[i][j]);
  }

  /** For a chart of positive size, each ring's band lies between the inner
      and the outer radius, in ring order. */
  lemma BandsNested(width: real, height: real, rings: nat, i: nat, v: real)
    requires width > 0.0 && height > 0.0 && rings > 0
    requires i < rings && 0.0 <= v <= 1.0
    ensures InnerRadius(width, height) <= DountScale(width, height, rings, i).Apply(0.0)
    ensures DountScale(width, height, rings, i).Apply(0.0) <= DountScale(width, height, rings, i).Apply(v)
    ensures DountScale(width, height, rings, i).Apply(v) <= DountScale(width, height, rings, i).Apply(1.0)
    ensures DountScale(width, height, rings, i).Apply(1.0) <= OuterRadius(width, height)
  {
    var r := RScale(width, height, rings);
    ApplyEnds(r);
    ApplyMonotone(r, 0.0, i as real);
    ApplyMonotone(r, i as real, i as real + 1.0);
    ApplyMonotone(r, i as real + 1.0, rings as real);
    ApplyMonotone(DountScale(width, height, rings, i), 0.0, v);
    ApplyMonotone(DountScale(width, height, rings, i), v, 1.0);
  }
}
