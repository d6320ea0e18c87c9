/** The arithmetic of the chart's drawing code (the embedded viz.ts of
    src/files.ts): the radial scale that places point markers, the angular
    axis ticks and their labels, and the stagger delays of the fade-in. */
module Viz {
  import opened Data
  import opened LinearScale

  /** `y`: ring index (plus a point's value) to radius, domain [0, rings],
      range [innerRadius, outerRadius]. `viz` and `transitionPoints` build
      the same scale from the same inputs. */
  function YScale(innerRadius: real, outerRadius: real, rings: nat): (y: Linear)
    ensures rings > 0 ==> y.Apply(0.0) == innerRadius && y.Apply(rings as real) == outerRadius
    ensures rings == 0 ==> forall x :: y.Apply(x) == (innerRadius + outerRadius) / 2.0
  {
    Linear(0.0, rings as real, innerRadius, outerRadius)
  }

  /** Radius of a point's marker: `y(dount + value)`, that is the inner
      radius plus `dount + value` ring widths. */
  function MarkerRadius(innerRadius: real, outerRadius: real, rings: nat, p: DataShape): (r: real)
    ensures rings > 0 ==>
      r == innerRadius + (p.dount as real + p.value) * ((outerRadius - innerRadius) / rings as real)
  {
    YScale(innerRadius, outerRadius, rings).Apply(p.dount as real + p.value)
  }

  /** Every ring gets a band of the same width, whatever its point count. */
  lemma RingBandsUniform(innerRadius: real, outerRadius: real, rings: nat, i: int)
    requires rings > 0
    ensures YScale(innerRadius, outerRadius, rings).Apply(i as real + 1.0)
         - YScale(innerRadius, outerRadius, rings).Apply(i as real)
         == (outerRadius - innerRadius) / rings as real
  {
  }

  /** The marker of a point whose value is in [0, 1] lies inside the band of
      its own ring, and so between the inner and the outer radius. */
  lemma MarkerInRingBand(innerRadius: real, outerRadius: real, rings: nat, p: DataShape)
    requires rings > 0 && innerRadius <= outerRadius
    requires 0 <= p.dount < rings && 0.0 <= p.value <= 1.0
    ensures var y := YScale(innerRadius, outerRadius, rings);
      y.Apply(p.dount as real) <= MarkerRadius(innerRadius, outerRadius, rings, p) <= y.Apply(p.dount as real + 1.0)
    ensures innerRadius <= MarkerRadius(innerRadius, outerRadius, rings, p) <= outerRadius
  {
    var y := YScale(innerRadius, outerRadius, rings);
    var x := p.dount as real + p.value;
    ApplyMonotone(y, p.dount as real, x);
    ApplyMonotone(y, x, p.dount as real + 1.0);
    ApplyMonotone(y, 0.0, p.dount as real);
    ApplyMonotone(y, p.dount as real + 1.0, rings as real);
    ApplyEnds(y);
  }

  /** With no ring the domain [0, 0] is degenerate and every marker radius
      is the middle of the radius range. */
  lemma MarkerNoRings(innerRadius: real, outerRadius: real, p: DataShape)
    ensures MarkerRadius(innerRadius, outerRadius, 0, p) == (innerRadius + outerRadius) / 2.0
  {
  }

  /** The largest of two integers (`Math.max`). */
  function Max(a: int, b: int): (m: int)
    ensures m >= a && m >= b && (m == a || m == b)
  {
    if a >= b then a else b
  }

  /** Angle between two axis ticks, in turns: a full turn shared by at least
      four ticks. */
  function TickStep(tickCount: int): (step: real)
    ensures 0.0 < step <= 0.25
    ensures step * Max(4, tickCount) as real == 1.0
  {
    var m := Max(4, tickCount) as real;
    assert (1.0 / m) * m == 1.0;
    1.0 / m
  }

  /** A quotient of a non-negative number by a larger one is below 1. */
  lemma QuotientBelowOne(p: real, m: real)
    requires 0.0 <= p < m
    ensures 0.0 <= p / m < 1.0
  {
    assert (p / m) * m == p;
  }

  /** The axis ticks `Array.from({ length: tickCount }, (_, i) => i * step)`. */
  function Ticks(tickCount: int): (ticks: seq<real>)
    ensures |ticks| == ArrayLength(tickCount)
    ensures forall i | 0 <= i < |ticks| :: ticks[i] == i as real / Max(4, tickCount) as real
  {
    seq(ArrayLength(tickCount), i requires 0 <= i => Tick(i, tickCount))
  }

  /** Tick `i`: `i * step`. */
  function Tick(i: nat, tickCount: int): (t: real)
    ensures t == i as real / Max(4, tickCount) as real
  {
    var m := Max(4, tickCount) as real;
    assert TickStep(tickCount) == 1.0 / m;
    assert i as real * (1.0 / m) == i as real / m;
    i as real * TickStep(tickCount)
  }

  /** There are `tickCount` ticks, starting at 0 and evenly spaced. */
  lemma TicksLayout(tickCount: int)
    ensures |Ticks(tickCount)| == ArrayLength(tickCount)
    ensures |Ticks(tickCount)| > 0 ==> Ticks(tickCount)[0] == 0.0
    ensures forall i | 1 <= i < |Ticks(tickCount)| ::
      Ticks(tickCount)[i] == Ticks(tickCount)[i - 1] + TickStep(tickCount)
  {
  }

  /** Every tick lies in [0, 1) turn: no tick repeats the one at 0. */
  lemma TicksBelowTurn(tickCount: int, i: nat)
    requires i < |Ticks(tickCount)|
    ensures 0.0 <= Ticks(tickCount)[i] < 1.0
  {
    var m := Max(4, tickCount) as real;
    assert Ticks(tickCount)[i] == i as real / m;
    QuotientBelowOne(i as real, m);
  }

  /** With four ticks or more, the arc that starts at the last tick ends at
      a full turn: the ticks go round the whole circle. With fewer, the step
      is still a quarter turn and the ticks leave part of the circle bare. */
  lemma TicksCircle(tickCount: int)
    requires tickCount > 0
    ensures tickCount >= 4 ==> Ticks(tickCount)[tickCount - 1] + TickStep(tickCount) == 1.0
    ensures tickCount < 4 ==> Ticks(tickCount)[tickCount - 1] + TickStep(tickCount) < 1.0
  {
  }

  /** The smallest integer not below `x` (`Math.ceil`). */
  function Ceil(x: real): (c: int)
    ensures c as real - 1.0 < x <= c as real
  {
    -((-x).Floor)
  }

  /** `x`: angle to degrees, [0, 1] turn onto [0, 360]. */
  function AngleScale(): (x: Linear)
    ensures forall t :: x.Apply(t) == 360.0 * t
  {
    Linear(0.0, 1.0, 0.0, 360.0)
  }

  /** The text of an axis label: empty, or a whole number of degrees. */
  datatype Label = NoLabel | Degrees(deg: int)

  /** Outer label of a tick: `${Math.ceil(x(d))}°`, the tick's angle in
      degrees rounded up. */
  function OuterLabel(tick: real): (l: Label)
    ensures l.Degrees? && l.deg as real - 1.0 < 360.0 * tick <= l.deg as real
  {
    Degrees(Ceil(AngleScale().Apply(tick)))
  }

  /** Inner label of tick `i`: only every third tick gets one, to avoid
      crowding near the centre. */
  function InnerLabel(i: nat, tick: real): (l: Label)
    ensures l.Degrees? <==> i % 3 == 0
    ensures l.Degrees? ==> l == OuterLabel(tick)
  {
    if i % 3 == 0 then OuterLabel(tick) else NoLabel
  }

  /** With the chart's 12 ticks, tick `i` is labelled 30·i degrees outside,
      and the inner labels read 0, 90, 180 and 270 degrees. */
  lemma TwelveTickLabels(i: nat)
    requires i < 12
    ensures OuterLabel(Ticks(12)[i]) == Degrees(30 * i)
    ensures InnerLabel(i, Ticks(12)[i]) ==
      if i % 3 == 0 then Degrees(90 * (i / 3)) else NoLabel
  {
    var t := Ticks(12)[i];
    assert TickStep(12) == 1.0 / 12.0;
    assert t == i as real * (1.0 / 12.0);
    assert AngleScale().Apply(t) == 360.0 * t;
    assert 360.0 * t == (30 * i) as real;
  }

  /** Start delay of the fade-in of ring `i` out of `rings`, in
      milliseconds: `i * 1000 / Math.max(1, rings)`. A point uses the delay
      of its own ring (`dount` for `i`). */
  function StaggerDelay(i: int, rings: int): (ms: real)
    ensures rings >= 1 ==> ms * rings as real == i as real * 1000.0
    ensures rings < 1 ==> ms == i as real * 1000.0
  {
    i as real * 1000.0 / Max(1, rings) as real
  }

  /** Rings start their fade-in one after another, evenly spaced, and all
      within the first second. */
  lemma StaggerSequential(i: nat, rings: nat)
    requires i < rings
    ensures StaggerDelay(0, rings) == 0.0
    ensures 0.0 <= StaggerDelay(i, rings) < 1000.0
    ensures StaggerDelay(i + 1, rings) - StaggerDelay(i, rings) == 1000.0 / rings as real
  {
    var m := rings as real;
    assert Max(1, rings) == rings;
    var a := StaggerDelay(i, rings);
    var b := StaggerDelay(i + 1, rings);
    assert a == (i as real * 1000.0) / m;
    assert b == (i as real * 1000.0 + 1000.0) / m;
    assert b - a == 1000.0 / m;
    QuotientBelowOne(i as real, m);
    assert a == (i as real / m) * 1000.0;
  }

  /** In a well-formed dataset every point fades in together with its ring. */
  lemma PointDelayIsRingDelay(d: Dataset, i: nat, j: nat)
    requires WellFormed(d) && i < |d| && j < |d[i]|
    ensures StaggerDelay(d[i][j].dount, |d|) == StaggerDelay(i, |d|)
  {
  }
}
