/** The chart's dataset: concentric rings ("dounts") of points, how the
    initial dataset is generated and how one simulation step mutates it
    (the embedded data.ts of src/files.ts). */
module Data {

  /** One point of one ring. `dount` is the index of the ring that owns it. */
  datatype DataShape = DataShape(id: int, dount: int, value: real)

  /** An angular range, in turns (fractions of a full circle): the source's
      radians divided by 2π, which keeps every comparison unchanged. */
  datatype Range = Range(lo: real, hi: real)

  type Dataset = seq<seq<DataShape>>

  /** The length of `Array.from({ length: n })`: a negative length gives an
      empty array. */
  function ArrayLength(n: int): (len: nat)
    ensures n >= 0 ==> len == n
    ensures n < 0 ==> len == 0
  {
    if n < 0 then 0 else n
  }

  /** `Array.from({ length: counts[i] })`: a missing entry (undefined) or a
      negative one gives an empty ring. */
  function CountAt(counts: seq<int>, i: nat): (n: nat)
    ensures i < |counts| && counts[i] >= 0 ==> n == counts[i]
    ensures i >= |counts| || counts[i] < 0 ==> n == 0
  {
    if i < |counts| then ArrayLength(counts[i]) else 0
  }

  /** Number of points generated before ring `i`. */
  function Offset(counts: seq<int>, i: nat): nat
  {
    if i == 0 then 0 else Offset(counts, i - 1) + CountAt(counts, i - 1)
  }

  /** Closed-form reference for `dataFn`: point `j` of ring `i` is the
      (Offset(i) + j)-th point created, so it gets that id and the value of
      that call of the sampler. */
  function Generated(dounts: int, counts: seq<int>, sample: nat -> real): Dataset
  {
    seq(ArrayLength(dounts), i requires 0 <= i =>
      seq(CountAt(counts, i), j requires 0 <= j =>
        DataShape(Offset(counts, i) + j, i, sample(Offset(counts, i) + j))))
  }

  /** `dataFn`: a counter starting at -1 is incremented before each point is
      created, in ring-major order. The sampler is the source's `valueFn`
      (or Math.random); `sample(k)` is what its k-th call returns. */
  method DataFn(dounts: int, counts: seq<int>, sample: nat -> real) returns (data: Dataset)
    ensures data == Generated(dounts, counts, sample)
  {
    ghost var g := Generated(dounts, counts, sample);
    var id := -1;
    data := [];
    var n := ArrayLength(dounts);
    for i := 0 to n
      invariant |data| == i
      invariant id == Offset(counts, i) - 1
      invariant forall k :: 0 <= k < i ==> data[k] == g[k]
    {
      var ring := [];
      var len := CountAt(counts, i);
      for j := 0 to len
        invariant |ring| == j
        invariant id == Offset(counts, i) + j - 1
        invariant forall m :: 0 <= m < j ==> ring[m] == g[i][m]
      {
        id := id + 1;
        ring := ring + [DataShape(id, i, sample(id))];
      }
      data := data + [ring];
    }
  }

  /** Number of points in the rings before ring `i` of a dataset. */
  function PointsBefore(d: Dataset, i: nat): nat
    requires i <= |d|
  {
    if i == 0 then 0 else PointsBefore(d, i - 1) + |d[i - 1]|
  }

  /** Total number of points of a dataset. */
  function TotalPoints(d: Dataset): nat
  {
    PointsBefore(d, |d|)
  }

  /** The dataset's invariant: ids count up from 0 in ring-major order and
      every point names the ring that holds it. */
  predicate WellFormed(d: Dataset)
  {
    forall i, j | 0 <= i < |d| && 0 <= j < |d[i]| ::
      d[i][j].id == PointsBefore(d, i) + j && d[i][j].dount == i
  }

  /** The dataset as one list, ring after ring. */
  function Flatten(d: Dataset): (r: seq<DataShape>)
    ensures |r| == TotalPoints(d)
  {
    if d == [] then []
    else
      PointsBeforeOfPrefix(d, |d| - 1, |d| - 1);
      Flatten(d[..|d| - 1]) + d[|d| - 1]
  }

  /** Every point's value lies in [0, 1], the range a point's value is
      drawn from. */
  predicate UnitValues(d: Dataset)
  {
    forall i, j | 0 <= i < |d| && 0 <= j < |d[i]| :: 0.0 <= d[i][j].value <= 1.0
  }

  /** Two datasets with the same ring lengths. */
  predicate SameShape(a: Dataset, b: Dataset)
  {
    |a| == |b| && forall i | 0 <= i < |a| :: |a[i]| == |b[i]|
  }

  lemma {:induction false} PointsBeforeOfShape(a: Dataset, b: Dataset, i: nat)
    requires SameShape(a, b) && i <= |a|
    ensures PointsBefore(a, i) == PointsBefore(b, i)
  {
    if i > 0 {
      PointsBeforeOfShape(a, b, i - 1);
    }
  }

  lemma {:induction false} PointsBeforeMonotone(d: Dataset, i: nat, k: nat)
    requires i < k <= |d|
    ensures PointsBefore(d, i) + |d[i]| <= PointsBefore(d, k)
  {
    if k > i + 1 {
      PointsBeforeMonotone(d, i, k - 1);
    }
  }

  lemma {:induction false} PointsBeforeOfPrefix(d: Dataset, n: nat, i: nat)
    requires i <= n <= |d|
    ensures PointsBefore(d[..n], i) == PointsBefore(d, i)
  {
    if i > 0 {
      PointsBeforeOfPrefix(d, n, i - 1);
    }
  }

  /** The generated dataset has `dounts` rings (none for a negative count) and
      ring `i` has `counts[i]` points (none when the entry is missing or
      negative). */
  lemma GeneratedShape(dounts: int, counts: seq<int>, sample: nat -> real)
    ensures |Generated(dounts, counts, sample)| == ArrayLength(dounts)
    ensures forall i | 0 <= i < ArrayLength(dounts) ::
      |Generated(dounts, counts, sample)[i]| == CountAt(counts, i)
  {
  }

  lemma {:induction false} GeneratedPointsBefore(dounts: int, counts: seq<int>, sample: nat -> real, i: nat)
    requires i <= ArrayLength(dounts)
    ensures PointsBefore(Generated(dounts, counts, sample), i) == Offset(counts, i)
  {
    if i > 0 {
      GeneratedPointsBefore(dounts, counts, sample, i - 1);
    }
  }

  /** `dataFn` establishes the dataset invariant, and every value is the
      sampler's result for that point's id. */
  lemma GeneratedWellFormed(dounts: int, counts: seq<int>, sample: nat -> real)
    ensures WellFormed(Generated(dounts, counts, sample))
    ensures forall i, j | 0 <= i < ArrayLength(dounts) && 0 <= j < CountAt(counts, i) ::
      Generated(dounts, counts, sample)[i][j].value == sample(Generated(dounts, counts, sample)[i][j].id)
  {
    var g := Generated(dounts, counts, sample);
    forall i | 0 <= i < |g|
      ensures PointsBefore(g, i) == Offset(counts, i)
    {
      GeneratedPointsBefore(dounts, counts, sample, i);
    }
  }

  /** The generated dataset holds exactly as many points as the counts add up to. */
  lemma GeneratedTotal(dounts: int, counts: seq<int>, sample: nat -> real)
    ensures TotalPoints(Generated(dounts, counts, sample)) == Offset(counts, ArrayLength(dounts))
  {
    GeneratedPointsBefore(dounts, counts, sample, ArrayLength(dounts));
  }

  /** Under the invariant, two positions hold the same id only if they are
      the same position: ids are unique. */
  lemma IdsUnique(d: Dataset, i: nat, j: nat, k: nat, l: nat)
    requires WellFormed(d)
    requires i < |d| && j < |d[i]| && k < |d| && l < |d[k]|
    ensures d[i][j].id == d[k][l].id <==> i == k && j == l
  {
    if i < k {
      PointsBeforeMonotone(d, i, k);
    } else if k < i {
      PointsBeforeMonotone(d, k, i);
    }
  }

  /** Under the invariant, the flattened dataset lists ids 0, 1, 2, ... in
      order, so the ids are exactly 0 .. TotalPoints(d) - 1. */
  lemma {:induction false} FlattenIds(d: Dataset)
    requires WellFormed(d)
    ensures forall k | 0 <= k < |Flatten(d)| :: Flatten(d)[k].id == k
  {
    if d != [] {
      var n := |d| - 1;
      var p: Dataset := d[..n];
      forall i, j | 0 <= i < |p| && 0 <= j < |p[i]|
        ensures p[i][j].id == PointsBefore(p, i) + j && p[i][j].dount == i
      {
        PointsBeforeOfPrefix(d, n, i);
      }
      FlattenIds(p);
      PointsBeforeOfPrefix(d, n, n);
      assert |Flatten(p)| == PointsBefore(d, n);
      forall k | 0 <= k < |Flatten(d)|
        ensures Flatten(d)[k].id == k
      {
        if k >= |Flatten(p)| {
          assert Flatten(d)[k] == d[n][k - PointsBefore(d, n)];
        }
      }
    }
  }

  /** The last point created has id TotalPoints - 1. */
  lemma LastId(d: Dataset)
    requires WellFormed(d) && TotalPoints(d) > 0
    ensures Flatten(d)[|Flatten(d)| - 1].id == TotalPoints(d) - 1
  {
    FlattenIds(d);
  }

  /** Angle of point `j` of a ring of `len` points, in turns: points are
      spread evenly, starting at 0. */
  function Angle(j: nat, len: nat): (a: real)
    requires j < len
    ensures 0.0 <= a < 1.0
    ensures a == 0.0 <==> j == 0
  {
    var a := j as real / len as real;
    assert a * len as real == j as real;
    a
  }

  /** Whether point `j` of a ring of `len` points is eligible for mutation:
      its angle is not below `range.lo` and not above `range.hi`, so both
      ends are inclusive. */
  predicate InRange(j: nat, len: nat, range: Range)
    requires j < len
    ensures InRange(j, len, range) <==> range.lo <= Angle(j, len) <= range.hi
    ensures InRange(j, len, range) ==> range.lo < 1.0 && range.hi >= 0.0
  {
    var angle := Angle(j, len);
    !(angle < range.lo || angle > range.hi)
  }

  /** `Mock`: a fresh dataset of the same shape in which every point whose
      angle lies in `range` is a copy with value `valueFn(old value)` and
      every other point is the original one. */
  function Mock(origin: Dataset, range: Range, valueFn: real -> real): (r: Dataset)
    ensures SameShape(r, origin)
    ensures forall i, j | 0 <= i < |r| && 0 <= j < |r[i]| ::
      r[i][j].id == origin[i][j].id && r[i][j].dount == origin[i][j].dount
    ensures forall i, j | 0 <= i < |r| && 0 <= j < |r[i]| ::
      if InRange(j, |origin[i]|, range)
      then r[i][j].value == valueFn(origin[i][j].value)
      else r[i][j] == origin[i][j]
  {
    seq(|origin|, i requires 0 <= i < |origin| =>
      var a := origin[i];
      seq(|a|, j requires 0 <= j < |a| =>
        var v := a[j];
        if !InRange(j, |a|, range) then v else v.(value := valueFn(v.value))))
  }

  /** A mutation step keeps the dataset invariant. */
  lemma MockWellFormed(origin: Dataset, range: Range, valueFn: real -> real)
    requires WellFormed(origin)
    ensures WellFormed(Mock(origin, range, valueFn))
    ensures TotalPoints(Mock(origin, range, valueFn)) == TotalPoints(origin)
  {
    var r := Mock(origin, range, valueFn);
    forall i | 0 <= i <= |r|
      ensures PointsBefore(r, i) == PointsBefore(origin, i)
    {
      PointsBeforeOfShape(r, origin, i);
    }
  }

  /** With a value function that returns the old value, `Mock` gives back
      its input. */
  lemma MockIdentity(origin: Dataset, range: Range)
    ensures Mock(origin, range, v => v) == origin
  {
    var r := Mock(origin, range, v => v);
    forall i | 0 <= i < |r|
      ensures r[i] == origin[i]
    {
      forall j | 0 <= j < |r[i]|
        ensures r[i][j] == origin[i][j]
      {
        if InRange(j, |origin[i]|, range) {
          assert r[i][j].value == origin[i][j].value;
        }
      }
    }
  }

  /** A range whose start lies after its end (reachable with the two angle
      sliders) selects no point, so `Mock` gives back its input. */
  lemma MockEmptyRange(origin: Dataset, range: Range, valueFn: real -> real)
    requires range.lo > range.hi
    ensures Mock(origin, range, valueFn) == origin
  {
    var r := Mock(origin, range, valueFn);
    forall i | 0 <= i < |r|
      ensures r[i] == origin[i]
    {
      assert forall j | 0 <= j < |r[i]| :: !InRange(j, |origin[i]|, range);
    }
  }

  /** Every point angle lies in [0, 1) turn, so a range covering [0, 1]
      mutates every point. */
  lemma MockCoversAll(origin: Dataset, range: Range, valueFn: real -> real)
    requires range.lo <= 0.0 && range.hi >= 1.0
    ensures forall i, j | 0 <= i < |origin| && 0 <= j < |origin[i]| ::
      Mock(origin, range, valueFn)[i][j] == origin[i][j].(value := valueFn(origin[i][j].value))
  {
  }

  /** A value function that maps [0, 1] into itself keeps every value of a
      mutated dataset in [0, 1]. */
  lemma MockUnitValues(origin: Dataset, range: Range, valueFn: real -> real)
    requires UnitValues(origin)
    requires forall v | 0.0 <= v <= 1.0 :: 0.0 <= valueFn(v) <= 1.0
    ensures UnitValues(Mock(origin, range, valueFn))
  {
  }

  /** Two mutation steps over the same range compose: the second value
      function is applied to the first one's result, on the same points. */
  lemma MockTwice(origin: Dataset, range: Range, f: real -> real, g: real -> real)
    ensures Mock(Mock(origin, range, f), range, g) == Mock(origin, range, v => g(f(v)))
  {
    var a := Mock(Mock(origin, range, f), range, g);
    var b := Mock(origin, range, v => g(f(v)));
    forall i | 0 <= i < |a|
      ensures a[i] == b[i]
    {
      forall j | 0 <= j < |a[i]|
        ensures a[i][j] == b[i][j]
      {
      }
    }
  }

  /** Three rings of four points at 0.5, mutated to 0.9 over the first half
      turn: the points at 0, a quarter and exactly half a turn change (the
      end of the range is inclusive), the one at three quarters does not. */
  lemma HalfTurnExample()
    ensures var d := Mock(Generated(3, [4, 4, 4], _ => 0.5), Range(0.0, 0.5), _ => 0.9);
      |d| == 3 && forall i | 0 <= i < 3 ::
        |d[i]| == 4 &&
        d[i][0].value == 0.9 && d[i][1].value == 0.9 && d[i][2].value == 0.9 && d[i][3].value == 0.5
  {
  }
}
