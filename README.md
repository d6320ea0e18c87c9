# Radial chart dataset and scales, in Dafny

This project models the computational core of a radial (polar) chart
playground. The chart draws concentric rings ("dounts") of data points.
A timer-driven simulation repeatedly mutates the values of the points whose
angle falls inside a chosen range. The model covers:

- the dataset: the `DataShape` point record, the generator `dataFn` and the
  pure mutation `Mock` (module `Data`, file `data.dfy`);
- the d3 linear scale as the chart uses it (module `LinearScale`);
- the drawing arithmetic: the radial `y` scale that places markers, the
  angular axis ticks, the every-third inner label rule and the fade-in
  stagger delays (module `Viz`);
- the radii and the ring scales `rScale` and `getDountScale` derived from
  the chart's size (module `VizWrapper`);
- the app state the simulation touches: the nine preset ranges, the initial
  and reset dataset, one simulation tick (`update`) and choosing a preset
  (module `App`).

Angles are expressed in turns (fractions of a full circle) instead of
radians. Point `j` of a ring of `L` points sits at `j / L` turn. The presets
are `[k/8, (k+1)/8]` turn instead of `[kπ/4, (k+1)π/4]`. Dividing both sides
of every comparison by 2π leaves each comparison unchanged, so π drops out.
Radii and scale outputs are Dafny `real`s.

`dataFn` is a method with two nested loops that thread the id counter, as
the source does. It is proved equal to `Generated`, a closed-form
definition: point `j` of ring `i` gets id `Offset(i) + j`. The properties
the chart relies on are then proved about `Generated` and about the
invariant `WellFormed`:

- ids count up from 0 in ring-major order;
- each point's `dount` is its ring's index.

`Mock` keeps this invariant across any number of ticks.

The sampler `valueFn: () => number` of `dataFn` is a parameter
`sample: nat -> real`. `sample(k)` is what its k-th call returns, so a
stateful sampler such as `Math.random` is covered too. The point with id
`k` is created by the k-th call, so its value is `sample(k)`.

In these edge cases the model follows the code:

- A negative point count, or a missing `counts[i]` (fewer counts than
  rings), does not fail. JavaScript's `Array.from` treats both as length 0,
  so the ring is empty (`ArrayLength`, `CountAt`).
- `Mock` compares with both ends of the range inclusive. The labels of
  presets 1 to 7 read half-open, `[0, 45)`, but a point exactly at 45
  degrees (point 1 of ring 1, which has 8 points) is mutated under both
  preset 1 and preset 2. `PresetBoundaryShared` states this.
- With no ring, d3's linear scale has the degenerate domain `[0, 0]`. It
  then maps every input to the middle of its range (`MarkerNoRings`). No
  marker is drawn then. The only visible effect is the single `yAxes`
  circle at `y(0)`, the middle radius (`yAxes` is left out).

## Model

| member | source | states |
|---|---|---|
| `Data.ArrayLength` | src/files.ts:755 | `Array.from` with a negative length gives an empty array; otherwise the length is kept |
| `Data.CountAt` | src/files.ts:756 | ring `i` gets `counts[i]` points; a missing or negative entry gives an empty ring |
| `Data.DataFn` | src/files.ts:749-761 | the loop with the `id` counter (from -1, incremented before each point) builds exactly the closed-form dataset `Generated` |
| `Data.GeneratedShape` | src/files.ts:755-756 | the generated dataset has `dounts` rings (none if negative) and ring `i` has `counts[i]` points |
| `Data.GeneratedWellFormed` | src/files.ts:754-758 | generated ids run consecutively from 0 in ring-major order; every point's `dount` is its ring index; its value is the sampler's result for its id |
| `Data.GeneratedTotal` | src/files.ts:754-757 | the generated dataset holds exactly the sum of the (clamped) counts of its rings |
| `Data.IdsUnique` | src/files.ts:754-757 | under the invariant, two positions carry the same id exactly when they are the same position |
| `Data.FlattenIds` | src/files.ts:754-757 | under the invariant, the points listed ring after ring carry ids 0, 1, 2, … in order |
| `Data.LastId` | src/files.ts:754-757 | the last point created has id `total - 1` |
| `Data.Flatten` | src/files.ts:754-757 | listing the rings one after another gives exactly the total number of points |
| `Data.InRange` | src/files.ts:772-773 | a point is selected exactly when its angle lies in the closed range `[lo, hi]`; a selecting range starts below a full turn and ends at or above 0 |
| `Data.Angle` | src/files.ts:772 | a point's angle `j / L` lies in [0, 1) turn and is 0 exactly for the first point |
| `Data.Mock` | src/files.ts:763-785 | same number of rings and same ring lengths; ids and dounts kept; a point whose angle is in the closed range gets `valueFn(old value)`, any other point is returned unchanged |
| `Data.MockWellFormed` | src/files.ts:768-784 | a mutation keeps the dataset invariant (consecutive ring-major ids, dount = ring index) and the total point count |
| `Data.MockIdentity` | src/files.ts:769-778 | with a value function that returns its input, `Mock` returns a dataset equal to its input |
| `Data.MockEmptyRange` | src/files.ts:773-775 | a range whose start exceeds its end selects nothing, so the output equals the input |
| `Data.MockCoversAll` | src/files.ts:772-778 | a range covering [0, 1] turn replaces every point by a copy with the new value |
| `Data.MockUnitValues` | src/files.ts:768-784 | a mutation whose value function maps [0, 1] into itself keeps every value in [0, 1] |
| `Data.MockTwice` | src/files.ts:768-784 | two mutations over one range equal one mutation with the composed value function |
| `Data.HalfTurnExample` | src/files.ts:772-778 | 3 rings of 4 points at 0.5, mutated to 0.9 over [0, ½] turn: points at 0, ¼ and ½ turn change, the one at ¾ does not |
| `LinearScale.Linear.Normalize` | src/files.ts:688-692 | the domain position is 0 exactly at the domain start and 1 exactly at its end; a degenerate domain gives 0.5 |
| `LinearScale.ApplyEnds` | src/files.ts:688-692 | a non-degenerate scale maps the domain ends onto the range ends |
| `LinearScale.Linear.Apply` | src/files.ts:688-692 | a non-degenerate scale is affine, `r0 + (x - d0)·(r1 - r0)/(d1 - d0)`; a degenerate domain maps every input to the middle of the range |
| `LinearScale.ApplyMonotone` | src/files.ts:417-419 | with an increasing domain and a non-decreasing range the scale is non-decreasing |
| `Viz.YScale` | src/files.ts:417-419 | with rings, `y(0)` is the inner radius and `y(rings)` the outer radius; with no ring every input goes to the middle of the two |
| `Viz.MarkerRadius` | src/files.ts:476 | a marker's radius is the inner radius plus `dount + value` ring widths |
| `Viz.RingBandsUniform` | src/files.ts:417-419 | every ring's band has the same width (outer - inner) / rings, whatever its point count |
| `Viz.MarkerInRingBand` | src/files.ts:471-486 | a marker `y(dount + value)` with value in [0, 1] lies inside its own ring's band, and between the inner and the outer radius |
| `Viz.MarkerNoRings` | src/files.ts:628-630 | with no ring the degenerate scale puts every marker at the middle of the radius range |
| `Viz.TickStep` | src/files.ts:506 | the angle between ticks is a full turn over `max(4, tickCount)` ticks (step · max(4, tickCount) = 1), so at most a quarter turn |
| `Viz.Ticks` | src/files.ts:507 | there are `tickCount` ticks (none if negative) and tick `i` is `i / max(4, tickCount)` turn |
| `Viz.TicksLayout` | src/files.ts:506-507 | there are `tickCount` ticks (none if negative), starting at 0 and evenly spaced by the step |
| `Viz.TicksBelowTurn` | src/files.ts:506-507 | every tick lies in [0, 1) turn, so no tick repeats the one at 0 |
| `Viz.TicksCircle` | src/files.ts:506-507 | with 4 ticks or more the last tick's arc ends at a full turn; with fewer, part of the circle gets no tick |
| `Viz.Ceil` | src/files.ts:550 | `Math.ceil`: the least integer not below its argument |
| `Viz.AngleScale` | src/files.ts:413-415 | the angle scale maps `t` turn to `360·t` degrees |
| `Viz.OuterLabel` | src/files.ts:575 | the outer label of a tick is its angle in degrees rounded up to a whole number |
| `Viz.InnerLabel` | src/files.ts:550 | tick `i` has an inner label exactly when `i` is divisible by 3, and it is the same text as the outer label |
| `Viz.TwelveTickLabels` | src/files.ts:550-575 | with 12 ticks, tick `i` is labelled 30·i degrees; inner labels read 0, 90, 180, 270 |
| `Viz.StaggerDelay` | src/files.ts:453 | ring `i` of `rings` starts `i·1000 / rings` ms late; with no ring the divisor is 1 |
| `Viz.StaggerSequential` | src/files.ts:453 | ring fade-in delays start at 0, grow by 1000 / rings ms per ring and all fall within the first second |
| `Viz.PointDelayIsRingDelay` | src/files.ts:491 | in a well-formed dataset a point's fade-in delay (keyed on its `dount`) equals its ring's |
| `Viz.Max` | src/files.ts:506 | `Math.max`: the larger of its arguments |
| `VizWrapper.Radius` | src/files.ts:684 | the radius is half the smaller of width and height |
| `VizWrapper.InnerRadius` | src/files.ts:685 | the inner radius is a sixteenth of the outer radius, strictly between 0 and it for a chart of positive size |
| `VizWrapper.OuterRadius` | src/files.ts:686 | the outer radius is the radius, and exceeds the inner radius exactly when the chart has positive size |
| `VizWrapper.RScale` | src/files.ts:688-692 | with rings, `rScale(0)` is the inner radius and `rScale(rings)` the outer radius |
| `VizWrapper.DountScale` | src/files.ts:694-704 | `getDountScale(i)` maps value 0 to `rScale(i)` and value 1 to `rScale(i + 1)` |
| `VizWrapper.RScaleEnds` | src/files.ts:684-692 | `rScale(0)` is a sixteenth of the outer radius and `rScale(rings)` is the outer radius |
| `VizWrapper.DountScaleEnds` | src/files.ts:694-704 | neighbouring ring bands touch: `getDountScale(i + 1)(0) = getDountScale(i)(1)` |
| `VizWrapper.MarkerOnRingPath` | src/files.ts:628-641 | a marker's radius `y(dount + value)` equals `getDountScale(dount)(value)`, so markers sit on their ring's path |
| `VizWrapper.MarkerOnIndexedRingPath` | src/files.ts:444-448 | in a well-formed dataset the marker of point `j` of ring `i` lies on ring `i`'s path, drawn with `getDountScale(i)` keyed on the ring's index |
| `VizWrapper.BandsNested` | src/files.ts:684-704 | for a chart of positive size, each ring's band lies within [inner, outer] in ring order, and values in [0, 1] stay inside it |
| `App.MockRanges` | src/files.ts:121-129 | there are nine presets |
| `App.PresetTable` | src/files.ts:121-129 | preset 0 is the whole turn, preset k ≥ 1 is [(k-1)/8, k/8] turn, every label gives its range in degrees, and only the labels of presets 0 and 8 are closed on the right |
| `App.PresetsTileTurn` | src/files.ts:121-129 | presets 1–8 start at 0, end at a full turn, each starts where the previous ends, and together cover every angle |
| `App.PresetBoundaryShared` | src/files.ts:125-126 | preset 1's label excludes 45°, yet the point at 45° (point 1 of an 8-point ring) is selected by presets 1 and 2 |
| `App.InitialCounts` | src/files.ts:152-156 | there is one count per ring and ring `i` gets 5·i + 3 points, five more than the ring inside it |
| `App.InitialData` | src/files.ts:152-156 | the initial dataset is well formed, has one ring per `dounts` (none if negative), ring `i` of 5·i + 3 points, every value 0.5, and 5·n·(n-1)/2 + 3·n points for n rings |
| `App.InitialDataFacts` | src/files.ts:152-156 | the app's 30 initial rings hold 5·i + 3 points each, 2265 in all, with ring-major ids and value 0.5 |
| `App.Reset` | src/files.ts:167-180 | reset stops the simulation, clears `init`, selects preset 0 (the full circle) with the module constant `defaultValueFn` (parameter `defaultValueFn`; a custom value function configured before does not survive), and installs the initial dataset: well formed, ring `i` of 5·i + 3 points, every value 0.5 |
| `App.ResetUnit` | src/files.ts:152-156 | the dataset a reset installs has every value in [0, 1] |
| `App.Update` | src/files.ts:159-165 | a tick replaces the data with its `Mock` over the configured range and value function and clears `init`; the rest is kept |
| `App.SelectMock` | src/files.ts:210-219 | choosing preset `id` sets the id and that preset's range and keeps the value function and the data |
| `App.AfterTicks` | src/files.ts:159-165 | ticks never change the mutation configuration or the running flag, and `init` is cleared once a tick has run |
| `App.TicksPreserve` | src/files.ts:159-165 | after any number of ticks the dataset is still well formed, of the same shape, with every point's id and dount unchanged |
| `App.TicksUnitValues` | src/files.ts:159-165 | with a value function mapping [0, 1] into itself, as the default `randomIrwinHall(1)` does, every value stays in [0, 1] after any number of ticks, so `Viz.MarkerInRingBand` applies to the app's data |
| `App.FullPresetUpdatesAll` | src/files.ts:147-163 | under the full-circle preset a tick gives every point the value function's result |

## Left out

- Rendering with d3 (selections, SVG attributes, zoom, transitions and easing, the rainbow colour map and its keys `(i + 1) / rings`, `pointRadial` trigonometry, arc path strings): foreign library calls and floating-point geometry.
- `yAxes`: its circles come from d3-scale's `ticks()` algorithm, which is not part of this model.
- `useParentSize` and `Responsive`: ResizeObserver and React state plumbing.
- The React effects of `VizWrapper` (single-shot mount guard, update effect) and the app's timer loop (`setTimeout`, `setInterval`, `clearInterval`, the 500 ms arm delay): event-loop timing, not sequential logic. `App.AfterTicks` models only the sequence of ticks.
- The tick duration and curve fields of the app state, the degree sliders and the other UI controls, and `style.css`.
- `Data.Mock`: `valueFn` is modelled as a pure function of the old value. The app's default `randomIrwinHall(1)` draws a fresh random value on each call, and the `Math.random()` fallback for a missing `valueFn` is not modelled.
- `Data.Mock`: a kept point is the same object as the input's and a replaced one is a fresh copy. Values in the model have no identity, so object sharing and the non-mutation of the input arrays are not expressed beyond the input being an unchanged value.
- `App.TicksUnitValues`: that `randomIrwinHall(1)` draws from [0, 1) is its precondition on the value function, not proved, since d3-random is not part of this model.
- `Data.ArrayLength`: lengths of 2^32 or more, for which `Array.from` throws a RangeError, are not modelled.
- `Data.DataFn`: counts are integers. Fractional lengths, which `Array.from` truncates, are not modelled.
- Floating-point rounding: the model computes angles and radii in exact reals, so a point the source places exactly on a range boundary by rounding may compare differently.
- Label text formatting: labels are whole numbers of degrees (`Viz.Label`, `App.Interval`), not strings.
