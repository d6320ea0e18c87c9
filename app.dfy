/** The simulation state of the chart application (the embedded App.tsx of
    src/files.ts): the preset mutation ranges, the initial dataset, and the
    pure state changes made by a simulation tick and by choosing a preset. */
module App {
  import opened Data

  /** A preset's label `[lo, hi)` or `[lo, hi]`, in whole degrees. */
  datatype Interval = Interval(loDeg: int, hiDeg: int, hiClosed: bool)

  /** One entry of `mockRanges`: the label shown and the range used. */
  datatype Preset = Preset(caption: Interval, range: Range)

  /** `mockRanges`: the full circle, then eight eighths of it (45 degrees,
      a quarter of π radians, each); only the labels of the full circle
      and of the last eighth are closed. */
  function MockRanges(): (presets: seq<Preset>)
    ensures |presets| == 9
  {
    [Preset(Interval(0, 360, true), Range(0.0, 1.0))]
    + seq(8, i requires 0 <= i < 8 =>
        Preset(Interval(i * 45, (i + 1) * 45, i == 7), Range(i as real / 8.0, (i + 1) as real / 8.0)))
  }

  /** Preset 0 is the whole turn and preset k (from 1) is [(k-1)/8, k/8]
      turn, and every label gives its range in degrees. */
  lemma PresetTable()
    ensures MockRanges()[0].range == Range(0.0, 1.0)
    ensures forall k | 1 <= k < 9 ::
      MockRanges()[k].range == Range((k - 1) as real / 8.0, k as real / 8.0)
    ensures forall k | 0 <= k < 9 ::
      MockRanges()[k].caption.loDeg as real == MockRanges()[k].range.lo * 360.0 &&
      MockRanges()[k].caption.hiDeg as real == MockRanges()[k].range.hi * 360.0
    ensures forall k | 0 <= k < 9 :: MockRanges()[k].caption.hiClosed <==> (k == 0 || k == 8)
  {
  }

  /** The eight partial presets tile the circle: the first starts at 0, the
      last ends at a full turn, each starts where the previous one ends, and
      every angle of [0, 1] turn lies in one of them. */
  lemma PresetsTileTurn(angle: real)
    requires 0.0 <= angle <= 1.0
    ensures MockRanges()[1].range.lo == 0.0 && MockRanges()[8].range.hi == 1.0
    ensures forall k | 2 <= k <= 8 :: MockRanges()[k - 1].range.hi == MockRanges()[k].range.lo
    ensures exists k | 1 <= k <= 8 :: MockRanges()[k].range.lo <= angle <= MockRanges()[k].range.hi
  {
    var k := if angle == 1.0 then 8 else (angle * 8.0).Floor + 1;
    assert 1 <= k <= 8;
    assert MockRanges()[k].range.lo <= angle <= MockRanges()[k].range.hi;
  }

  /** Ranges are compared with both ends inclusive, while the labels of
      presets 1 to 7 are half-open. Point 1 of a ring of 8 points (ring 1
      of the initial data) sits at 45 degrees: preset 1, labelled
      "[0, 45)", selects it, and so does preset 2. */
  lemma PresetBoundaryShared()
    ensures !MockRanges()[1].caption.hiClosed && MockRanges()[1].caption.hiDeg == 45
    ensures InRange(1, 8, MockRanges()[1].range) && InRange(1, 8, MockRanges()[2].range)
  {
  }

  /** Point counts of the initial dataset: ring i has 5·i + 3 points, so
      each ring has five more points than the one inside it. */
  function InitialCounts(dounts: int): (counts: seq<int>)
    ensures |counts| == ArrayLength(dounts)
    ensures forall i | 0 <= i < |counts| :: CountAt(counts, i) == 5 * i + 3
    ensures forall i | 1 <= i < |counts| :: counts[i] == counts[i - 1] + 5
  {
    seq(ArrayLength(dounts), i requires 0 <= i => 5 * i + 3)
  }

  lemma {:induction false} InitialOffset(dounts: int, i: nat)
    requires i <= ArrayLength(dounts)
    ensures 2 * Offset(InitialCounts(dounts), i) == 5 * i * (i - 1) + 6 * i
  {
    if i > 0 {
      InitialOffset(dounts, i - 1);
    }
  }

  /** The initial (and reset) dataset, `dataFn(dounts, counts, () => 0.5)`:
      `dounts` well-formed rings, ring i of 5·i + 3 points, all of value
      0.5, 5·n·(n-1)/2 + 3·n points in all for n rings. */
  function InitialData(dounts: int): (d: Dataset)
    ensures WellFormed(d) && |d| == ArrayLength(dounts)
    ensures forall i | 0 <= i < |d| :: |d[i]| == 5 * i + 3
    ensures forall i, j | 0 <= i < |d| && 0 <= j < |d[i]| :: d[i][j].value == 0.5
    ensures 2 * TotalPoints(d) == 5 * |d| * (|d| - 1) + 6 * |d|
  {
    GeneratedWellFormed(dounts, InitialCounts(dounts), _ => 0.5);
    GeneratedTotal(dounts, InitialCounts(dounts), _ => 0.5);
    InitialOffset(dounts, ArrayLength(dounts));
    Generated(dounts, InitialCounts(dounts), _ => 0.5)
  }

  /** The app's 30 rings hold 2265 points with ids 0 .. 2264 in ring-major
      order, ring i holding 5·i + 3 of them, all of value 0.5. */
  lemma InitialDataFacts()
    ensures WellFormed(InitialData(30))
    ensures |InitialData(30)| == 30
    ensures forall i | 0 <= i < 30 :: |InitialData(30)[i]| == 5 * i + 3
    ensures TotalPoints(InitialData(30)) == 2265
    ensures forall i, j | 0 <= i < 30 && 0 <= j < |InitialData(30)[i]| :: InitialData(30)[i][j].value == 0.5
  {
  }

  /** `MockConfig`: the chosen preset, its range and the value function. */
  datatype MockConfig = MockConfig(id: int, range: Range, valueFn: real -> real)

  /** The parts of the app's state that the simulation changes (the curve
      and the tick duration are left out). */
  datatype Status = Status(init: bool, start: bool, data: Dataset, mockConfig: MockConfig)

  /** State after `reset`: stopped, the full-circle preset with the app's
      module constant `defaultValueFn` (whatever value function was
      configured before is dropped), and the initial dataset again. */
  function Reset(dounts: int, defaultValueFn: real -> real): (s: Status)
    ensures !s.init && !s.start && s.mockConfig.id == 0
    ensures s.mockConfig.range == MockRanges()[0].range
    ensures s.mockConfig.valueFn == defaultValueFn
    ensures s.data == InitialData(dounts)
    ensures WellFormed(s.data) && |s.data| == ArrayLength(dounts)
    ensures forall i | 0 <= i < |s.data| :: |s.data[i]| == 5 * i + 3
    ensures forall i, j | 0 <= i < |s.data| && 0 <= j < |s.data[i]| :: s.data[i][j].value == 0.5
  {
    Status(false, false, InitialData(dounts), MockConfig(0, Range(0.0, 1.0), defaultValueFn))
  }

  /** A reset installs values of 0.5 only, all inside [0, 1]. */
  lemma ResetUnit(dounts: int, defaultValueFn: real -> real)
    ensures UnitValues(Reset(dounts, defaultValueFn).data)
  {
  }

  /** One simulation tick (`update`): the data is replaced by its mutation
      over the configured range; nothing else changes but `init`. */
  function Update(s: Status): (t: Status)
    ensures !t.init && t.start == s.start && t.mockConfig == s.mockConfig
    ensures t.data == Mock(s.data, s.mockConfig.range, s.mockConfig.valueFn)
  {
    s.(init := false, data := Mock(s.data, s.mockConfig.range, s.mockConfig.valueFn))
  }

  /** Choosing preset `id` (`onSelectMock`) sets its id and range and keeps
      the value function and the data. */
  function SelectMock(s: Status, id: nat): (t: Status)
    requires id < 9
    ensures t.mockConfig.id == id && t.mockConfig.range == MockRanges()[id].range
    ensures t.mockConfig.valueFn == s.mockConfig.valueFn && t.data == s.data
    ensures t.init == s.init && t.start == s.start
  {
    s.(mockConfig := s.mockConfig.(id := id, range := MockRanges()[id].range))
  }

  /** The state after `k` ticks: the configuration and the running flag
      never change, and after the first tick `init` is cleared. */
  function AfterTicks(s: Status, k: nat): (t: Status)
    ensures t.mockConfig == s.mockConfig && t.start == s.start
    ensures t.init == (s.init && k == 0)
  {
    if k == 0 then s else Update(AfterTicks(s, k - 1))
  }

  /** However many ticks run, the dataset keeps its invariant, its shape,
      and every point's id and ring: only values ever change. */
  lemma {:induction false} TicksPreserve(s: Status, k: nat)
    requires WellFormed(s.data)
    ensures WellFormed(AfterTicks(s, k).data)
    ensures SameShape(AfterTicks(s, k).data, s.data)
    ensures forall i, j | 0 <= i < |s.data| && 0 <= j < |s.data[i]| ::
      AfterTicks(s, k).data[i][j].id == s.data[i][j].id && AfterTicks(s, k).data[i][j].dount == s.data[i][j].dount
  {
    if k > 0 {
      var prev := AfterTicks(s, k - 1);
      TicksPreserve(s, k - 1);
      MockWellFormed(prev.data, prev.mockConfig.range, prev.mockConfig.valueFn);
      assert AfterTicks(s, k).data == Mock(prev.data, prev.mockConfig.range, prev.mockConfig.valueFn);
    }
  }

  /** With a value function that maps [0, 1] into itself (as the default
      `randomIrwinHall(1)` does), values stay in [0, 1] however many ticks
      run. */
  lemma {:induction false} TicksUnitValues(s: Status, k: nat)
    requires UnitValues(s.data)
    requires forall v | 0.0 <= v <= 1.0 :: 0.0 <= s.mockConfig.valueFn(v) <= 1.0
    ensures UnitValues(AfterTicks(s, k).data)
  {
    if k > 0 {
      var prev := AfterTicks(s, k - 1);
      TicksUnitValues(s, k - 1);
      MockUnitValues(prev.data, prev.mockConfig.range, prev.mockConfig.valueFn);
      assert AfterTicks(s, k).data == Mock(prev.data, prev.mockConfig.range, prev.mockConfig.valueFn);
    }
  }

  /** With the full-circle preset, a tick gives every point a new value
      from the value function. */
  lemma FullPresetUpdatesAll(s: Status)
    requires s.mockConfig.range == MockRanges()[0].range
    ensures forall i, j | 0 <= i < |s.data| && 0 <= j < |s.data[i]| ::
      Update(s).data[i][j].value == s.mockConfig.valueFn(s.data[i][j].value)
  {
  }
}
