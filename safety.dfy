/**
 * Safety classification of the line-width calculator: the named verdicts and
 * their fixed colours, the lookup that resolves a verdict key to its colour, the
 * three-bucket layer-height classifier, the line-width classifier with its
 * red-to-yellow-to-green gradient below the minimum width, and the worst-case
 * combinator over the two colours of one row.
 */
module Safety {
  import opened Geometry

  /** The named verdicts (`SAFETY_DETERMINATIONS`). */
  datatype Determination = Safe | Warning | Danger

  /** A value printed as one hexadecimal digit. */
  type HexDigit = d: int | 0 <= d < 16

  /** What `determineLineWidthSafety` returns: a named verdict, or a computed colour
      `#<red><green>0` whose red and green channels are single hex digits. */
  datatype Verdict = Category(determination: Determination) | Gradient(red: HexDigit, green: HexDigit)

  /** `SAFETY_DETERMINATIONS`: the string key of each named verdict. Keys are
      non-empty and never start with `#`, so no key is a colour string. */
  function Key(d: Determination): (k: string)
    ensures |k| > 0 && k[0] != '#'
  {
    match d
    case Safe => "safe"
    case Warning => "warning"
    case Danger => "danger"
  }

  const SafeColour: string := "#0f0"
  const WarningColour: string := "#ff0"
  const DangerColour: string := "#f00"

  /** `SAFETY_COLORS`: verdict key to fixed colour. */
  const SafetyColors: map<string, string> :=
    map[Key(Safe) := SafeColour, Key(Warning) := WarningColour, Key(Danger) := DangerColour]

  /** `Object.values(SAFETY_COLORS)`. */
  const Palette: set<string> := {SafeColour, WarningColour, DangerColour}

  /** The fixed colour of a named verdict. */
  function PaletteColour(d: Determination): (c: string)
    ensures c in Palette
    ensures c == SafetyColors[Key(d)]
  {
    match d
    case Safe => SafeColour
    case Warning => WarningColour
    case Danger => DangerColour
  }

  /** `getSafetyColor(key)`: the colour of a verdict key; any other string is
      returned as it is. */
  function SafetyColor(key: string): (c: string)
    ensures forall d: Determination :: key == Key(d) ==> c == PaletteColour(d)
    ensures (forall d: Determination :: key != Key(d)) ==> c == key
  {
    if key in SafetyColors then SafetyColors[key] else key
  }

  /** No colour is a verdict key, so resolving a colour again changes nothing. */
  lemma SafetyColorIdempotent(key: string)
    ensures SafetyColor(SafetyColor(key)) == SafetyColor(key)
  {
  }

  /** The digit characters of `Number.prototype.toString(16)`. */
  const HexChars: string := "0123456789abcdef"

  function HexChar(d: HexDigit): (c: char)
    ensures c in HexChars
  {
    HexChars[d]
  }

  /** The colour string of a verdict. */
  function Colour(v: Verdict): (c: string)
    ensures |c| == 4 && c[0] == '#' && c[1] in HexChars && c[2] in HexChars && c[3] == '0'
  {
    match v
    case Category(d) => PaletteColour(d)
    case Gradient(r, g) => ['#', HexChar(r), HexChar(g), '0']
  }

  /** What `determineLineWidthSafety` returns, as a JavaScript string: the key of a
      named verdict, or the colour of a gradient. Resolving it with `getSafetyColor`
      gives the verdict's colour. */
  function Raw(v: Verdict): (r: string)
    ensures v.Category? ==> r == Key(v.determination)
    ensures v.Gradient? ==> r == Colour(v)
    ensures SafetyColor(r) == Colour(v)
  {
    match v
    case Category(d) => Key(d)
    case Gradient(_, _) =>
      assert forall d: Determination :: Colour(v) != Key(d) by {
        forall d: Determination ensures Colour(v) != Key(d) {
          assert Key(d)[0] != '#';
        }
      }
      Colour(v)
  }

  /** A gradient colour equals a fixed colour exactly for the three channel pairs
      (0, 15), (15, 15) and (15, 0). */
  lemma GradientInPalette(r: HexDigit, g: HexDigit)
    ensures Colour(Gradient(r, g)) == SafeColour <==> r == 0 && g == 15
    ensures Colour(Gradient(r, g)) == WarningColour <==> r == 15 && g == 15
    ensures Colour(Gradient(r, g)) == DangerColour <==> r == 15 && g == 0
  {
    HexCharInjective(r);
    HexCharInjective(g);
  }

  lemma HexCharInjective(d: HexDigit)
    ensures HexChar(d) == '0' <==> d == 0
    ensures HexChar(d) == 'f' <==> d == 15
  {
  }

  /** `determineLayerHeightSafety(h, D)`: the ratio h / D in (-inf, 0.8] is safe, in
      (0.8, 1.5] a warning, above 1.5 a danger. */
  function LayerHeightSafety(layerHeight: real, nozzleDiameter: real): (d: Determination)
    requires nozzleDiameter > 0.0
    ensures d == Safe <==> layerHeight <= 0.8 * nozzleDiameter
    ensures d == Warning <==> 0.8 * nozzleDiameter < layerHeight <= 1.5 * nozzleDiameter
    ensures d == Danger <==> layerHeight > 1.5 * nozzleDiameter
  {
    var ratio := layerHeight / nozzleDiameter;
    assert ratio * nozzleDiameter == layerHeight;
    RatioOrder(layerHeight, nozzleDiameter, 0.8);
    RatioOrder(layerHeight, nozzleDiameter, 1.5);
    if ratio <= 0.8 then Safe
    else if ratio <= 1.5 then Warning
    else Danger
  }

  /** The layer-height verdicts are ordered like the layer heights. */
  function Rank(d: Determination): nat
  {
    match d
    case Safe => 0
    case Warning => 1
    case Danger => 2
  }

  lemma LayerHeightSafetyMonotone(h1: real, h2: real, nozzleDiameter: real)
    requires nozzleDiameter > 0.0 && h1 <= h2
    ensures Rank(LayerHeightSafety(h1, nozzleDiameter)) <= Rank(LayerHeightSafety(h2, nozzleDiameter))
  {
  }

  /** `Math.round`: the nearest integer, halves rounded up. */
  function RoundHalfUp(x: real): (n: int)
    ensures n as real - 0.5 <= x < n as real + 0.5
  {
    (x + 0.5).Floor
  }

  lemma RoundHalfUpMonotone(x: real, y: real)
    requires x <= y
    ensures RoundHalfUp(x) <= RoundHalfUp(y)
  {
  }

  /** The position of `lineWidth` in the soft band [minW / 2, minW): `shift` runs
      from 1 at the danger edge, through 0 at three quarters of minW, towards -1 at
      the safe edge. */
  function SoftBandShift(lineWidth: real, minLineWidth: real): (shift: real)
    requires 0.5 * minLineWidth <= lineWidth < minLineWidth
    ensures -1.0 < shift <= 1.0
    ensures shift * minLineWidth == 3.0 * minLineWidth - 4.0 * lineWidth
    ensures shift > 0.0 <==> lineWidth < 0.75 * minLineWidth
    ensures shift == 0.0 <==> lineWidth == 0.75 * minLineWidth
    ensures lineWidth == 0.5 * minLineWidth ==> shift == 1.0
  {
    var maxAllowableDelta := 0.5 * minLineWidth;
    var delta := minLineWidth - lineWidth;
    var deltaRatio := delta / maxAllowableDelta;
    var shift := (deltaRatio - 0.5) / 0.5;
    assert deltaRatio * maxAllowableDelta == delta;
    assert shift == 2.0 * deltaRatio - 1.0;
    assert shift * minLineWidth == 2.0 * (deltaRatio * minLineWidth) - minLineWidth;
    ScaleOrder(0.0, shift, minLineWidth);
    ScaleOrder(shift, 0.0, minLineWidth);
    ScaleOrder(-1.0, shift, minLineWidth);
    ScaleOrder(shift, 1.0, minLineWidth);
    shift
  }

  /** `Math.round((1 - Math.abs(shift)) * 15)`: the channel that varies across the
      soft band, 0 at either edge and 15 in the middle. */
  function GradientDigit(shift: real): (d: HexDigit)
    requires -1.0 < shift <= 1.0
    ensures d as real - 0.5 <= (1.0 - Abs(shift)) * 15.0 < d as real + 0.5
  {
    RoundHalfUp((1.0 - Abs(shift)) * 15.0)
  }

  function Abs(x: real): (a: real)
    ensures a >= 0.0 && (a == x || a == -x)
  {
    if x < 0.0 then -x else x
  }

  /** `determineLineWidthSafety(w, h, D, flat)`. With minW = h + D and maxW = h + flat:
      below minW / 2 or above maxW is a danger; from minW / 2 up to (not including)
      minW is a gradient colour; otherwise safe. */
  function LineWidthSafety(lineWidth: real, layerHeight: real, nozzleDiameter: real, nozzleFlatSize: real): (v: Verdict)
    ensures var minW, maxW := MinLineWidth(layerHeight, nozzleDiameter), MaxLineWidth(layerHeight, nozzleFlatSize);
      && (v == Category(Danger) <==> lineWidth < 0.5 * minW || lineWidth > maxW)
      && (v == Category(Safe) <==> 0.5 * minW <= lineWidth && minW <= lineWidth <= maxW)
      && (v.Gradient? <==> 0.5 * minW <= lineWidth < minW && lineWidth <= maxW)
      && v != Category(Warning)
  {
    var minLineWidth := MinLineWidth(layerHeight, nozzleDiameter);
    var maxLineWidth := MaxLineWidth(layerHeight, nozzleFlatSize);
    if lineWidth < 0.5 * minLineWidth || lineWidth > maxLineWidth then
      Category(Danger)
    else if lineWidth < minLineWidth then
      var shift := SoftBandShift(lineWidth, minLineWidth);
      var shiftHex := GradientDigit(shift);
      if shift > 0.0 then Gradient(15, shiftHex)
      else if shift < 0.0 then Gradient(shiftHex, 15)
      else Gradient(15, 15)
    else
      Category(Safe)
  }

  /** In the soft band the colour is `#f<d>0` on the danger side of three quarters of
      minW, `#<d>f0` on the safe side and `#ff0` exactly there, where `d` is the rounded
      intensity `(1 - |shift|) * 15`; at minW / 2 the colour is the danger colour. */
  lemma SoftBandColour(lineWidth: real, layerHeight: real, nozzleDiameter: real, nozzleFlatSize: real)
    requires var minW := MinLineWidth(layerHeight, nozzleDiameter);
      0.5 * minW <= lineWidth < minW && lineWidth <= MaxLineWidth(layerHeight, nozzleFlatSize)
    ensures var minW := MinLineWidth(layerHeight, nozzleDiameter);
      var v := LineWidthSafety(lineWidth, layerHeight, nozzleDiameter, nozzleFlatSize);
      var d := GradientDigit(SoftBandShift(lineWidth, minW));
      && (lineWidth < 0.75 * minW ==> v == Gradient(15, d))
      && (lineWidth > 0.75 * minW ==> v == Gradient(d, 15))
      && (lineWidth == 0.75 * minW ==> Colour(v) == WarningColour)
      && (lineWidth == 0.5 * minW ==> Colour(v) == DangerColour)
  {
    var minW := MinLineWidth(layerHeight, nozzleDiameter);
    var shift := SoftBandShift(lineWidth, minW);
    if lineWidth == 0.5 * minW {
      assert shift == 1.0;
      assert GradientDigit(shift) == 0;
    }
  }

  /** The rounded intensity is 0 exactly when the shift is within 1/30 of an edge of
      (-1, 1], and 15 exactly when the shift is within 1/30 of 0. */
  lemma GradientDigitExtremes(shift: real)
    requires -1.0 < shift <= 1.0
    ensures GradientDigit(shift) == 0 <==> 30.0 * Abs(shift) > 29.0
    ensures GradientDigit(shift) == 15 <==> 30.0 * Abs(shift) <= 1.0
  {
  }

  /** The rounding makes the gradient a fixed colour on whole sub-bands of the soft
      band, with minW the minimum width: `#f00` exactly on [minW / 2, 61/120 minW),
      `#ff0` exactly on [89/120 minW, 91/120 minW] and `#0f0` exactly on
      (119/120 minW, minW). */
  lemma SoftBandSolidColours(lineWidth: real, layerHeight: real, nozzleDiameter: real, nozzleFlatSize: real)
    requires var minW := MinLineWidth(layerHeight, nozzleDiameter);
      0.5 * minW <= lineWidth < minW && lineWidth <= MaxLineWidth(layerHeight, nozzleFlatSize)
    ensures var minW := MinLineWidth(layerHeight, nozzleDiameter);
      var c := Colour(LineWidthSafety(lineWidth, layerHeight, nozzleDiameter, nozzleFlatSize));
      && (c == DangerColour <==> 120.0 * lineWidth < 61.0 * minW)
      && (c == WarningColour <==> 89.0 * minW <= 120.0 * lineWidth <= 91.0 * minW)
      && (c == SafeColour <==> 120.0 * lineWidth > 119.0 * minW)
  {
    var minW := MinLineWidth(layerHeight, nozzleDiameter);
    var shift := SoftBandShift(lineWidth, minW);
    var d := GradientDigit(shift);
    SoftBandColour(lineWidth, layerHeight, nozzleDiameter, nozzleFlatSize);
    GradientDigitExtremes(shift);
    ShiftThresholds(shift, lineWidth, minW);
    if lineWidth < 0.75 * minW {
      GradientInPalette(15, d);
    } else if lineWidth > 0.75 * minW {
      GradientInPalette(d, 15);
    }
  }

  /** Where a shift with the closed form of `SoftBandShift` crosses the thresholds of
      `GradientDigitExtremes`. */
  lemma ShiftThresholds(shift: real, lineWidth: real, minLineWidth: real)
    requires minLineWidth > 0.0
    requires shift * minLineWidth == 3.0 * minLineWidth - 4.0 * lineWidth
    ensures 30.0 * shift > 29.0 <==> 120.0 * lineWidth < 61.0 * minLineWidth
    ensures 30.0 * shift < -29.0 <==> 120.0 * lineWidth > 119.0 * minLineWidth
    ensures 30.0 * shift <= 1.0 <==> 89.0 * minLineWidth <= 120.0 * lineWidth
    ensures -1.0 <= 30.0 * shift <==> 120.0 * lineWidth <= 91.0 * minLineWidth
  {
    var t := 30.0 * shift;
    assert t * minLineWidth == 90.0 * minLineWidth - 120.0 * lineWidth;
    ScaleOrder(29.0, t, minLineWidth);
    ScaleOrder(t, -29.0, minLineWidth);
    ScaleOrder(1.0, t, minLineWidth);
    assert 1.0 < t <==> minLineWidth < t * minLineWidth;
    ScaleOrder(t, -1.0, minLineWidth);
    assert t < -1.0 <==> t * minLineWidth < -minLineWidth;
  }

  /** Across the soft band the green channel never falls and the red channel never
      rises as the line width grows: red to yellow to green. */
  lemma GradientMonotone(w1: real, w2: real, layerHeight: real, nozzleDiameter: real, nozzleFlatSize: real)
    requires var minW := MinLineWidth(layerHeight, nozzleDiameter);
      0.5 * minW <= w1 <= w2 < minW && w2 <= MaxLineWidth(layerHeight, nozzleFlatSize)
    ensures var v1 := LineWidthSafety(w1, layerHeight, nozzleDiameter, nozzleFlatSize);
      var v2 := LineWidthSafety(w2, layerHeight, nozzleDiameter, nozzleFlatSize);
      v1.Gradient? && v2.Gradient? && v1.green <= v2.green && v1.red >= v2.red
  {
    var minW := MinLineWidth(layerHeight, nozzleDiameter);
    var s1 := SoftBandShift(w1, minW);
    var s2 := SoftBandShift(w2, minW);
    SoftBandShiftAntitone(w1, w2, minW);
    if s2 > 0.0 {
      RoundHalfUpMonotone((1.0 - Abs(s1)) * 15.0, (1.0 - Abs(s2)) * 15.0);
    } else if s1 < 0.0 {
      RoundHalfUpMonotone((1.0 - Abs(s2)) * 15.0, (1.0 - Abs(s1)) * 15.0);
    }
  }

  /** The shift falls as the line width grows across the soft band. */
  lemma SoftBandShiftAntitone(w1: real, w2: real, minLineWidth: real)
    requires 0.5 * minLineWidth <= w1 <= w2 < minLineWidth
    ensures SoftBandShift(w2, minLineWidth) <= SoftBandShift(w1, minLineWidth)
  {
    var s1 := SoftBandShift(w1, minLineWidth);
    var s2 := SoftBandShift(w2, minLineWidth);
    assert s1 * minLineWidth == 3.0 * minLineWidth - 4.0 * w1;
    assert s2 * minLineWidth == 3.0 * minLineWidth - 4.0 * w2;
    assert s2 * minLineWidth <= s1 * minLineWidth;
    ScaleOrder(s2, s1, minLineWidth);
  }

  /** Severity of a row colour in the combinator's precedence: safe, warning, a
      gradient colour, danger. */
  function Severity(c: string): nat
  {
    if c == DangerColour then 3
    else if c !in Palette then 2
    else if c == WarningColour then 1
    else 0
  }

  /** The `worstSafetyDetermination` of a row, from the layer-height colour and the
      line-width colour. */
  function WorstColor(layerHeightColor: string, lineWidthColor: string): (c: string)
    ensures c in Palette || c == lineWidthColor
    ensures c == DangerColour <==> layerHeightColor == DangerColour || lineWidthColor == DangerColour
  {
    if layerHeightColor == DangerColour || lineWidthColor == DangerColour then
      DangerColour
    else if lineWidthColor !in Palette then
      lineWidthColor
    else if layerHeightColor == WarningColour || lineWidthColor == WarningColour then
      WarningColour
    else
      SafeColour
  }

  /** For a fixed layer-height colour the combinator picks whichever input is more
      severe: the result is one of the two inputs and its severity is the larger. */
  lemma WorstColorIsMaximum(layerHeightColor: string, lineWidthColor: string)
    requires layerHeightColor in Palette
    ensures var c := WorstColor(layerHeightColor, lineWidthColor);
      && (c == layerHeightColor || c == lineWidthColor)
      && Severity(c) == Max(Severity(layerHeightColor), Severity(lineWidthColor))
  {
  }

  function Max(a: nat, b: nat): nat
  {
    if a < b then b else a
  }
}
