# Line-width calculator: extrusion geometry and safety classification

This project models the computational core of a 3D-printing line-width
calculator, source file `src/Components/LineWidth/LineWidth.js`. For a nozzle of
bore diameter `D`, flat size `flat` and a layer-height step, the calculator does
three things:

- It sweeps the candidate layer heights `step, 2*step, ...` up to `1.6 * D`.
- For each height `h` it computes the *ideal line width*. This is the width of a
  cylindrical bead of height `h` that extrudes the same volume as a reference
  cylinder of diameter and height `D`.
- It compares that width with the plausible window `[h + D, h + flat]` and
  fills one table row. The row holds the widths, the window's two bead volumes
  and their percentage deviation from the reference volume, a layer-height
  safety colour, a line-width safety colour, the worst of the two, and a note.

Outside the *soft band* `[minW/2, minW)` the line-width colour is `#0f0` (safe)
or `#f00` (danger); the line-width classifier never gives the warning verdict.
Inside the band it is `#f00` when the width is above `maxW`, and otherwise a
computed red/green gradient `#<r><g>0`.

The model has four modules:

- `Geometry`: volumes, the ideal width, the window and the volume deltas.
- `Safety`: the verdicts, their colours, both classifiers and the worst-case
  combinator.
- `Sweep`: the layer-height loop, kept as a method with a loop, plus the notes
  and the table rows.
- `Defaults`: worked rows at fixed inputs.

All quantities are exact `real`s. `Math.sqrt` is a library routine, so its value
is passed in as a parameter `root` constrained by `IsSqrt(root, radicand)`. This
means every statement about the ideal width holds for the true square root.

How the line-width classifier behaves in the soft band:

- For a width `w` in `[minW/2, minW)`, `shift` lies in `(-1, 1]`
  (`SoftBandShift`). It is 1 at exactly `minW/2`. It never reaches -1,
  because the band excludes `minW`.
- `LineWidthSafety` never returns the warning verdict. A width at exactly three
  quarters of `minW` yields the literal colour `#ff0`, modelled as
  `Gradient(15, 15)`.

Consequences of the code as written, stated as lemmas:

- The rounded gradient equals a fixed colour on three whole sub-bands of the soft
  band (`SoftBandSolidColours`). It is `#f00` exactly on `[minW/2, 61/120 minW)`,
  `#ff0` exactly on `[89/120 minW, 91/120 minW]`, and `#0f0` exactly on
  `(119/120 minW, minW)`.
- The worst-case combinator then treats such a colour as the fixed verdict. So a
  row whose note says "under minimum line width" can be coloured safe. An
  example is nozzle 1, flat 1.5, height 0.47: the ideal width, about 1.4586, lies
  just below the minimum 1.47 (`SafeColouredUnderSpecRow`).

## Model

| member | source | states |
|---|---|---|
| `Geometry.Square` | src/Components/LineWidth/LineWidth.js:78 | `Math.pow(x, 2)` is never negative |
| `Geometry.ScaleOrder` | src/Components/LineWidth/LineWidth.js:25-31 | proof helper: multiplying two reals by the same positive factor keeps both `<=` and `<` between them, in both directions (used to turn the ratio tests into comparisons) |
| `Geometry.RatioOrder` | src/Components/LineWidth/LineWidth.js:25-31 | proof helper: for a positive divisor, the ratio test `x / y <= k` is the same as `x <= k * y`, and likewise for `<` |
| `Geometry.BeadVolume` | src/Components/LineWidth/LineWidth.js:125-134 | the volume of a bead of width x at height h, `cylinderVolume(x / 2, h)`: non-negative for a positive height and positive for a non-zero width; its relation to the output volume is stated by `BeadVolumeVersusOutput` and `IdealLineWidthKeepsOutputVolume` |
| `Geometry.CylinderVolume` | src/Components/LineWidth/LineWidth.js:77-78 | pi r^2 h is non-negative for a positive height, and positive when the radius is non-zero too |
| `Geometry.OutputVolume` | src/Components/LineWidth/LineWidth.js:95-98 | the reference volume (a cylinder of radius D/2 and height D) is positive for every positive nozzle diameter |
| `Geometry.Radicand` | src/Components/LineWidth/LineWidth.js:80-82 | the argument of the square root is positive, and four times it times h is D^3 |
| `Geometry.IdealLineWidth` | src/Components/LineWidth/LineWidth.js:80-82 | `2 * sqrt((D/h) * (D/2)^2)` is a positive width w with w^2 * h == D^3 |
| `Geometry.IdealLineWidthUnique` | src/Components/LineWidth/LineWidth.js:80-82 | for a given D and h, at most one positive width satisfies w^2 * h == D^3 |
| `Geometry.IdealLineWidthDecreasing` | src/Components/LineWidth/LineWidth.js:80-82 | for a fixed nozzle, a strictly taller layer has a strictly narrower ideal width |
| `Geometry.IdealLineWidthKeepsOutputVolume` | src/Components/LineWidth/LineWidth.js:77-98 | a bead of the ideal width extrudes exactly the output volume; a bead of any other positive width x extrudes more exactly when x is wider, and less exactly when x is narrower |
| `Geometry.BeadVolumeVersusOutput` | src/Components/LineWidth/LineWidth.js:125-135 | a bead's volume minus the output volume is (pi/4) * (x^2 * h - D^3) |
| `Geometry.SquareOrder` | src/Components/LineWidth/LineWidth.js:125-135 | proof helper: for positive x, w and h, comparing x with w gives the same answer as comparing x^2 * h with w^2 * h, for both > and < |
| `Geometry.MinLineWidth` | src/Components/LineWidth/LineWidth.js:122 | the minimum width h + D exceeds both the nozzle diameter and the layer height |
| `Geometry.MaxLineWidth` | src/Components/LineWidth/LineWidth.js:123 | for a positive flat, the maximum width h + flat exceeds both the flat size and the layer height |
| `Geometry.LineWidthWindow` | src/Components/LineWidth/LineWidth.js:44-45 | max − min == flat − D for every layer height; the window is non-empty exactly when D < flat |
| `Geometry.VolumeDelta` | src/Components/LineWidth/LineWidth.js:129 | the delta gives back the volume (`volume == out * (1 + delta/100)`); for a positive reference, the delta is positive, zero or negative exactly when the volume is above, equal to or below it |
| `Safety.Key` | src/Components/LineWidth/LineWidth.js:10-14 | every verdict key is non-empty and does not start with `#`, so no key is also a colour string |
| `Safety.PaletteColour` | src/Components/LineWidth/LineWidth.js:16-20 | each named verdict's colour is in the palette and is the `SAFETY_COLORS` entry for its key |
| `Safety.SafetyColor` | src/Components/LineWidth/LineWidth.js:22 | a verdict key resolves to that verdict's colour; any other string is returned unchanged |
| `Safety.SafetyColorIdempotent` | src/Components/LineWidth/LineWidth.js:22 | resolving an already resolved colour changes nothing |
| `Safety.Colour` | src/Components/LineWidth/LineWidth.js:58-70 | every verdict colour has the form `#`, hex digit, hex digit, `0` |
| `Safety.Raw` | src/Components/LineWidth/LineWidth.js:142-149 | the classifier returns the key of a named verdict and the colour of a gradient; resolving either with `getSafetyColor` gives the verdict's colour |
| `Safety.GradientInPalette` | src/Components/LineWidth/LineWidth.js:163 | a gradient colour equals the safe, warning or danger colour exactly for the channel pairs (0,15), (15,15) and (15,0) respectively |
| `Safety.HexChar` | src/Components/LineWidth/LineWidth.js:58 | `toString(16)` of a digit 0..15 is a single lower-case hex character |
| `Safety.HexCharInjective` | src/Components/LineWidth/LineWidth.js:58 | digit 0 and only it prints as `0`; digit 15 and only it prints as `f` |
| `Safety.LayerHeightSafety` | src/Components/LineWidth/LineWidth.js:24-36 | safe exactly when h <= 0.8 D, warning exactly when 0.8 D < h <= 1.5 D, danger exactly when h > 1.5 D |
| `Safety.LayerHeightSafetyMonotone` | src/Components/LineWidth/LineWidth.js:24-36 | a taller layer never gets a milder layer-height verdict |
| `Safety.RoundHalfUp` | src/Components/LineWidth/LineWidth.js:58 | `Math.round` gives the integer within half a unit of x, with halves rounded up |
| `Safety.RoundHalfUpMonotone` | src/Components/LineWidth/LineWidth.js:58 | rounding preserves order |
| `Safety.SoftBandShift` | src/Components/LineWidth/LineWidth.js:52-57 | in the soft band, shift lies in (-1, 1] and satisfies shift * minW == 3 minW - 4 w; it is positive exactly below 0.75 minW, zero exactly at 0.75 minW, and 1 at minW/2 |
| `Safety.SoftBandShiftAntitone` | src/Components/LineWidth/LineWidth.js:52-57 | across the soft band a wider line never has a larger shift |
| `Safety.Abs` | src/Components/LineWidth/LineWidth.js:58 | `Math.abs` is non-negative and equals x or -x |
| `Safety.GradientDigit` | src/Components/LineWidth/LineWidth.js:58 | `round((1 - abs(shift)) * 15)` is the hex digit within half a unit of that product |
| `Safety.LineWidthSafety` | src/Components/LineWidth/LineWidth.js:38-75 | danger exactly when w < minW/2 or w > maxW (even for an inverted window); safe exactly when w lies in [minW, maxW] and is at least minW/2; a gradient exactly in the soft band with w <= maxW; never the warning verdict |
| `Safety.SoftBandColour` | src/Components/LineWidth/LineWidth.js:62-70 | below three quarters of minW the colour is `#f<g>0`, above it `#<r>f0`, at it the warning colour, and at minW/2 the danger colour |
| `Safety.GradientDigitExtremes` | src/Components/LineWidth/LineWidth.js:58 | the rounded intensity is 0 exactly when abs(shift) > 29/30, and 15 exactly when abs(shift) <= 1/30 |
| `Safety.ShiftThresholds` | src/Components/LineWidth/LineWidth.js:52-57 | proof helper: where the closed form of the shift crosses ±29/30 and ±1/30, as bounds on the width |
| `Safety.SoftBandSolidColours` | src/Components/LineWidth/LineWidth.js:52-70 | in the soft band (w <= maxW) the colour is `#f00` exactly on [minW/2, 61/120 minW), `#ff0` exactly on [89/120 minW, 91/120 minW], `#0f0` exactly on (119/120 minW, minW) |
| `Safety.GradientMonotone` | src/Components/LineWidth/LineWidth.js:52-70 | across the soft band, a wider line never has less green, nor more red |
| `Safety.WorstColor` | src/Components/LineWidth/LineWidth.js:151-175 | the result is a palette colour or the line-width colour; it is the danger colour exactly when either input is |
| `Safety.WorstColorIsMaximum` | src/Components/LineWidth/LineWidth.js:151-175 | for a palette layer-height colour, the result is one of the two inputs and has the larger severity (danger > gradient > warning > safe) |
| `Sweep.MaxLayerHeight` | src/Components/LineWidth/LineWidth.js:105 | the sweep's bound `D * 1.6` is above the nozzle diameter and is itself a layer-height danger |
| `Sweep.HeightCount` | src/Components/LineWidth/LineWidth.js:103-107 | the number of loop rounds n: zero exactly when step > bound, otherwise the largest n with n * step <= bound |
| `Sweep.HeightCountUnique` | src/Components/LineWidth/LineWidth.js:103-107 | any m with m * step <= bound < (m + 1) * step is that count |
| `Sweep.CountAtMost` | src/Components/LineWidth/LineWidth.js:103-107 | a multiple of step within the bound has an index no larger than the count |
| `Sweep.LayerHeightSeq` | src/Components/LineWidth/LineWidth.js:100-112 | the reference definition of the sweep, the multiples (k+1) * step for k below the count; a non-empty sweep starts at step |
| `Sweep.LayerHeights` | src/Components/LineWidth/LineWidth.js:100-112 | the loop `for (i = step; i <= 1.6 D; i += step) push(i)` yields exactly `LayerHeightSeq` for a positive step, and nothing for a non-positive step above the bound |
| `Sweep.NonPositiveStepNeverExits` | src/Components/LineWidth/LineWidth.js:103-107 | for a step that is not positive and not above 1.6 D, the value of `i` after any number of rounds still passes the loop test, so the loop never ends |
| `Sweep.LayerHeightSeqCharacterised` | src/Components/LineWidth/LineWidth.js:100-112 | consecutive multiples of step from step up to the last one within 1.6 D form the candidate sequence |
| `Sweep.LayerHeightSeqEmpty` | src/Components/LineWidth/LineWidth.js:103-107 | there are no candidate heights exactly when step > 1.6 D |
| `Sweep.LayerHeightAt` | src/Components/LineWidth/LineWidth.js:103-108 | the k-th candidate height is (k + 1) * step and lies in [step, 1.6 D] |
| `Sweep.LayerHeightSeqBounds` | src/Components/LineWidth/LineWidth.js:103-107 | every candidate height lies in [step, 1.6 D] |
| `Sweep.LayerHeightSeqStep` | src/Components/LineWidth/LineWidth.js:104-106 | consecutive candidate heights differ by exactly step |
| `Sweep.LayerHeightSeqIncreasing` | src/Components/LineWidth/LineWidth.js:100-112 | candidate heights strictly increase |
| `Sweep.LayerHeightSeqLast` | src/Components/LineWidth/LineWidth.js:103-107 | the last candidate height is within 1.6 D, and one more step would be beyond it |
| `Sweep.SelectNote` | src/Components/LineWidth/LineWidth.js:177-203 | over spec exactly when w > maxW; severe under spec exactly when w <= maxW and w < minW/2; mild under spec exactly in the soft band; within spec exactly when minW <= w <= maxW; the quoted percentage p gives back the width, `maxW * (1 + p/100) == w` over spec and `minW * (1 - p/100) == w` under spec; over-spec percentages are positive for a positive maxW; under-spec ones lie in (0, 100) for a positive width, above 50 for the severe note and at most 50 for the mild one |
| `Sweep.UnderSpecPercent` | src/Components/LineWidth/LineWidth.js:186-199 | for w < m, p = `(1 - w/m) * 100` gives back w as `m * (1 - p/100)`, is positive, is below 100 when w > 0, and is above 50 exactly when w < m/2 |
| `Sweep.NoteMatchesVerdict` | src/Components/LineWidth/LineWidth.js:177-203 | the note agrees with the line-width verdict: within spec iff safe, mild under spec iff gradient, over or severe under spec iff danger |
| `Sweep.BuildRecord` | src/Components/LineWidth/LineWidth.js:116-203 | each field of the row is its column's operation on the row's inputs: the height, an ideal width (w^2 * h == D^3), min and max as h + D and h + flat, each edge's bead volume and its delta against the output volume, the two classifier colours, their worst case, and the note chosen from the ideal width and the window |
| `Sweep.RecordVolumes` | src/Components/LineWidth/LineWidth.js:125-135 | the ideal width's bead extrudes the output volume, and each edge's delta gives back that edge's volume (`volume == out * (1 + delta/100)`) |
| `Sweep.RecordDeltaSigns` | src/Components/LineWidth/LineWidth.js:125-135 | the minimum edge's delta is positive (negative) exactly when that edge is wider (narrower) than the ideal width; the same holds for the maximum edge whenever it is a positive width |
| `Sweep.EdgeDeltaSign` | src/Components/LineWidth/LineWidth.js:125-135 | for any positive width x, the delta of a bead of width x is positive (negative) exactly when x is wider (narrower) than the ideal width |
| `Sweep.RecordColours` | src/Components/LineWidth/LineWidth.js:137-175 | the worst colour is one of the two colours and has the larger severity; it is the danger colour exactly when the layer height is a danger or the line-width colour is the danger colour; a line-width danger verdict makes the row a danger |
| `Sweep.RecordNote` | src/Components/LineWidth/LineWidth.js:125-203 | the note is within spec exactly when the ideal width lies in the window, and, for a positive maximum width, exactly when the minimum delta is <= 0 <= the maximum delta |
| `Sweep.Records` | src/Components/LineWidth/LineWidth.js:114-116 | one row per height, in order, each built from its own height |
| `Sweep.SweepIdealLineWidthDecreasing` | src/Components/LineWidth/LineWidth.js:100-120 | down the table the ideal line width strictly decreases |
| `Defaults.DefaultLayerHeights` | src/Components/LineWidth/LineWidth.js:6-8 | with the default 0.4 nozzle and 0.04 step there are sixteen heights, 0.04 to 0.64 |
| `Defaults.DefaultFirstRow` | src/Components/LineWidth/LineWidth.js:6-8 | for the row `BuildRecord(0.4, 0.6, 0.04, root)`, the window is [0.44, 0.64] and the ideal width lies in (1.26464, 1.26528); its line-width colour and its worst colour are the danger colour; its layer-height colour is safe |
| `Defaults.DefaultFirstNote` | src/Components/LineWidth/LineWidth.js:177-184 | that row's note is over spec, by 97.6 % to 97.7 % |
| `Defaults.SafeColouredUnderSpecRow` | src/Components/LineWidth/LineWidth.js:151-199 | for the row `BuildRecord(1.0, 1.5, 0.47, root)` the line-width verdict is a gradient, its colour resolves to `#0f0`, the worst colour is safe, and the note says mild under spec |

## Left out

- The React component: `useState`, `useMemo`, the form inputs and the table
  rendering. Input parsing is not modelled.
- `roundTo` (`src/util/math`) and the display rounding of the row's numbers are
  not part of this model. The row keeps the unrounded values, and the `+` sign
  prefix of the delta strings is left out.
- `hexToHSL` (`src/util/color`) and the row tint it computes are not part of this
  model.
- The note texts: a note is modelled by its kind and the percentage it quotes,
  not by the sentence around it.
- `console.log` calls: output only.
- Floating point. All arithmetic is exact over `real`, so rounding is not
  modelled.
  - In the source, the loop `i += step` accumulates rounding error, which can add
    or drop the last candidate height.
  - `Math.PI` is the decimal constant 3.141592653589793.
  - `Math.sqrt` is a parameter constrained to be the exact square root.
- Sweep.LayerHeights: the form accepts any number as the step and rejects only
  `NaN`. For a step of zero, or a negative step not above 1.6 D, the loop never
  ends. `NonPositiveStepNeverExits` shows this, and the method requires a step
  for which the loop ends.
- Safety.SafetyColor: a JavaScript object lookup also finds inherited properties
  such as `toString`, which the `map` lookup does not model. Only the three
  verdict keys and the colour strings the classifier returns ever reach it.
- Safety.LayerHeightSafety: requires a positive nozzle diameter. The source
  divides by it without a guard. The form accepts any number except `NaN`; a
  diameter of zero or below is not modelled anywhere.
- Sweep.SelectNote: requires a positive minimum width and a non-zero maximum
  width, which the source divides by. The flat size is rejected only when it is
  `NaN`, so the maximum width h + flat can be zero or negative.
  - At flat == -h the source divides by zero and quotes an infinite or `NaN`
    percentage. This is not modelled.
  - For a negative maximum width the over-spec percentage is negative. The model
    covers this case, and the round-trip `maxW * (1 + p/100) == w` still holds.
- Sweep.BuildRecord: requires a positive diameter and layer height, and a flat
  size other than minus the layer height, for the reason above.
  `RecordDeltaSigns` states the maximum edge's delta signs only for a positive
  maximum width.
- `App.js` and the other pages of the application are not part of this model.
