/**
 * The layer-height sweep of the line-width calculator: the candidate layer
 * heights step, 2 * step, ... up to 1.6 times the nozzle diameter, and for each
 * of them one table row with its widths, volumes, deltas, the two safety colours,
 * their worst case and an explanatory note.
 */
module Sweep {
  import opened Geometry
  import opened Safety

  /** The largest candidate layer height, `nozzleDiameter * 1.6`: beyond the nozzle
      diameter, and inside the layer-height danger zone. */
  function MaxLayerHeight(nozzleDiameter: real): (m: real)
    ensures nozzleDiameter > 0.0 ==> m > nozzleDiameter && LayerHeightSafety(m, nozzleDiameter) == Danger
  {
    nozzleDiameter * 1.6
  }

  /** How many multiples of `step` lie in [step, bound]: floor(bound / step), or none
      when even one step is beyond the bound. */
  function HeightCount(step: real, bound: real): (n: nat)
    requires step > 0.0
    ensures n == 0 <==> bound < step
    ensures n > 0 ==> n as real * step <= bound
    ensures bound < (n + 1) as real * step
  {
    if bound < step then 0
    else
      var q := bound / step;
      RatioOrder(bound, step, 1.0);
      var n := q.Floor;
      RatioOrder(bound, step, n as real);
      RatioOrder(bound, step, (n + 1) as real);
      n
  }

  /** The candidate layer heights: step, 2 * step, ..., every multiple of step up to
      1.6 * D, and none when even the first one is above that bound. */
  function LayerHeightSeq(step: real, nozzleDiameter: real): (hs: seq<real>)
    requires step > 0.0
    ensures |hs| > 0 ==> hs[0] == step
  {
    seq(HeightCount(step, MaxLayerHeight(nozzleDiameter)), k => (k + 1) as real * step)
  }

  /** The `layerHeights` loop: start at `step`, push, add `step`, while the value is at
      most `nozzleDiameter * 1.6`. It ends exactly on the inputs the precondition names
      (see `NonPositiveStepNeverExits` for the others). */
  method LayerHeights(step: real, nozzleDiameter: real) returns (heights: seq<real>)
    requires step > 0.0 || step > MaxLayerHeight(nozzleDiameter)
    ensures step > 0.0 ==> heights == LayerHeightSeq(step, nozzleDiameter)
    ensures step <= 0.0 ==> heights == []
  {
    var bound := MaxLayerHeight(nozzleDiameter);
    var count := if step > 0.0 then HeightCount(step, bound) else 0;
    heights := [];
    var i := step;
    while i <= bound
      invariant i == (|heights| + 1) as real * step
      invariant forall k :: 0 <= k < |heights| ==> heights[k] == (k + 1) as real * step
      invariant |heights| > 0 ==> step <= bound && |heights| as real * step <= bound
      invariant |heights| <= count
      decreases count - |heights|
    {
      assert step > 0.0;
      CountAtMost(count, |heights| + 1, step, bound);
      heights := heights + [i];
      i := i + step;
    }
    if step > 0.0 {
      LayerHeightSeqCharacterised(step, nozzleDiameter, heights);
    }
  }

  /** A step that is not positive and not above 1.6 * D never lets the loop end: the
      value `i` holds after any number of rounds passes the loop test again. */
  lemma NonPositiveStepNeverExits(step: real, nozzleDiameter: real, rounds: nat)
    requires step <= 0.0 && step <= MaxLayerHeight(nozzleDiameter)
    ensures (rounds + 1) as real * step <= MaxLayerHeight(nozzleDiameter)
  {
    if step < 0.0 {
      ScaleOrder(1.0, (rounds + 1) as real, -step);
      assert (rounds + 1) as real * -step == -((rounds + 1) as real * step);
    }
  }

  /** A sequence of consecutive multiples of `step`, starting at `step`, that stops at
      the last multiple within 1.6 * D is the candidate sequence. */
  lemma LayerHeightSeqCharacterised(step: real, nozzleDiameter: real, hs: seq<real>)
    requires step > 0.0
    requires forall k :: 0 <= k < |hs| ==> hs[k] == (k + 1) as real * step
    requires |hs| == 0 <==> MaxLayerHeight(nozzleDiameter) < step
    requires |hs| > 0 ==> |hs| as real * step <= MaxLayerHeight(nozzleDiameter)
    requires MaxLayerHeight(nozzleDiameter) < (|hs| + 1) as real * step
    ensures hs == LayerHeightSeq(step, nozzleDiameter)
  {
    HeightCountUnique(step, MaxLayerHeight(nozzleDiameter), |hs|);
    var spec := LayerHeightSeq(step, nozzleDiameter);
    assert |hs| == |spec|;
    forall k | 0 <= k < |hs|
      ensures hs[k] == spec[k]
    {
    }
  }

  /** The two bounds of `HeightCount` determine it. */
  lemma HeightCountUnique(step: real, bound: real, m: nat)
    requires step > 0.0
    requires m == 0 <==> bound < step
    requires m > 0 ==> m as real * step <= bound
    requires bound < (m + 1) as real * step
    ensures m == HeightCount(step, bound)
  {
    var n := HeightCount(step, bound);
    CountAtMost(m, n, step, bound);
    CountAtMost(n, m, step, bound);
  }

  /** A count `b` of steps within the bound is at most any count `a` whose next step
      is beyond it. */
  lemma CountAtMost(a: nat, b: nat, step: real, bound: real)
    requires step > 0.0
    requires bound < (a + 1) as real * step
    requires b > 0 ==> b as real * step <= bound
    ensures b <= a
  {
    if b > a {
      ScaleOrder((a + 1) as real, b as real, step);
    }
  }

  /** There are no candidate heights exactly when one step already exceeds 1.6 * D. */
  lemma LayerHeightSeqEmpty(step: real, nozzleDiameter: real)
    requires step > 0.0
    ensures LayerHeightSeq(step, nozzleDiameter) == [] <==> step > MaxLayerHeight(nozzleDiameter)
  {
    assert |LayerHeightSeq(step, nozzleDiameter)| == HeightCount(step, MaxLayerHeight(nozzleDiameter));
  }

  /** Every candidate height lies in [step, 1.6 * D]. */
  lemma LayerHeightSeqBounds(step: real, nozzleDiameter: real)
    requires step > 0.0
    ensures var hs := LayerHeightSeq(step, nozzleDiameter);
      forall k :: 0 <= k < |hs| ==> step <= hs[k] <= MaxLayerHeight(nozzleDiameter)
  {
    var hs := LayerHeightSeq(step, nozzleDiameter);
    forall k | 0 <= k < |hs|
      ensures step <= hs[k] <= MaxLayerHeight(nozzleDiameter)
    {
      LayerHeightAt(step, nozzleDiameter, k);
    }
  }

  /** The k-th candidate height is (k + 1) * step, and lies in [step, 1.6 * D]. */
  lemma LayerHeightAt(step: real, nozzleDiameter: real, k: nat)
    requires step > 0.0 && k < |LayerHeightSeq(step, nozzleDiameter)|
    ensures var h := LayerHeightSeq(step, nozzleDiameter)[k];
      h == (k + 1) as real * step && step <= h <= MaxLayerHeight(nozzleDiameter)
  {
    var bound := MaxLayerHeight(nozzleDiameter);
    var n := HeightCount(step, bound);
    var hs := LayerHeightSeq(step, nozzleDiameter);
    assert |hs| == n && k < n;
    assert hs[k] == (k + 1) as real * step;
    MultipleWithin(step, bound, n, k);
  }

  /** Each of the first n multiples of step lies in [step, bound] when the n-th does. */
  lemma MultipleWithin(step: real, bound: real, n: nat, k: nat)
    requires step > 0.0 && k < n && n as real * step <= bound
    ensures step <= (k + 1) as real * step <= bound
  {
    if k > 0 {
      MultipleIncreasing(step, 0, k);
    }
    if k + 1 < n {
      MultipleIncreasing(step, k, n - 1);
    }
  }

  /** Consecutive candidate heights are one step apart. */
  lemma LayerHeightSeqStep(step: real, nozzleDiameter: real)
    requires step > 0.0
    ensures var hs := LayerHeightSeq(step, nozzleDiameter);
      forall k :: 0 <= k < |hs| - 1 ==> hs[k + 1] == hs[k] + step
  {
    var hs := LayerHeightSeq(step, nozzleDiameter);
    forall k | 0 <= k < |hs| - 1
      ensures hs[k + 1] == hs[k] + step
    {
      LayerHeightAt(step, nozzleDiameter, k);
      LayerHeightAt(step, nozzleDiameter, k + 1);
      NextMultiple(step, k);
    }
  }

  /** The (k + 2)-th multiple is one step past the (k + 1)-th. */
  lemma NextMultiple(step: real, k: nat)
    ensures (k + 2) as real * step == (k + 1) as real * step + step
  {
  }

  /** The candidate heights strictly increase. */
  lemma LayerHeightSeqIncreasing(step: real, nozzleDiameter: real)
    requires step > 0.0
    ensures var hs := LayerHeightSeq(step, nozzleDiameter);
      forall j, k :: 0 <= j < k < |hs| ==> hs[j] < hs[k]
  {
    var hs := LayerHeightSeq(step, nozzleDiameter);
    forall j, k | 0 <= j < k < |hs|
      ensures hs[j] < hs[k]
    {
      LayerHeightAt(step, nozzleDiameter, j);
      LayerHeightAt(step, nozzleDiameter, k);
      MultipleIncreasing(step, j, k);
    }
  }

  /** For a positive step, a later multiple is strictly larger. */
  lemma MultipleIncreasing(step: real, j: nat, k: nat)
    requires step > 0.0 && j < k
    ensures (j + 1) as real * step < (k + 1) as real * step
  {
    ProductPositive((k - j) as real, step);
    assert (k + 1) as real * step - (j + 1) as real * step == Product((k - j) as real, step);
  }

  /** The last candidate height is within 1.6 * D and one more step would pass it. */
  lemma LayerHeightSeqLast(step: real, nozzleDiameter: real)
    requires step > 0.0
    ensures var hs := LayerHeightSeq(step, nozzleDiameter);
      |hs| > 0 ==> hs[|hs| - 1] <= MaxLayerHeight(nozzleDiameter) < hs[|hs| - 1] + step
  {
    var hs := LayerHeightSeq(step, nozzleDiameter);
    if |hs| > 0 {
      LayerHeightAt(step, nozzleDiameter, |hs| - 1);
      NextMultiple(step, |hs| - 1);
    }
  }

  /** The explanation of a row's line-width verdict, with the percentage it quotes. */
  datatype Note =
    | OverSpec(percentOverSpec: real)
    | SevereUnderSpec(percentUnderSpec: real)
    | MildUnderSpec(percentUnderSpec: real)
    | WithinSpec

  /** The `notes` of a row: the ideal width above the maximum, below half the minimum,
      below the minimum, or none of these, tested in that order. Each percentage is the
      relative distance from the bound it names: the bound scaled by it gives back the
      ideal width. */
  function SelectNote(idealLineWidth: real, minLineWidth: real, maxLineWidth: real): (n: Note)
    requires minLineWidth > 0.0 && maxLineWidth != 0.0
    ensures n.OverSpec? <==> idealLineWidth > maxLineWidth
    ensures n.SevereUnderSpec? <==> idealLineWidth <= maxLineWidth && idealLineWidth < 0.5 * minLineWidth
    ensures n.MildUnderSpec? <==> 0.5 * minLineWidth <= idealLineWidth < minLineWidth && idealLineWidth <= maxLineWidth
    ensures n.WithinSpec? <==> minLineWidth <= idealLineWidth <= maxLineWidth
    ensures n.OverSpec? ==> IsPercentDeviation(idealLineWidth, maxLineWidth, n.percentOverSpec)
    ensures n.OverSpec? && maxLineWidth > 0.0 ==> n.percentOverSpec > 0.0
    ensures (n.SevereUnderSpec? || n.MildUnderSpec?) ==>
      IsPercentDeviation(idealLineWidth, minLineWidth, -n.percentUnderSpec)
    ensures (n.SevereUnderSpec? || n.MildUnderSpec?) ==>
      n.percentUnderSpec > 0.0 && (idealLineWidth > 0.0 ==> n.percentUnderSpec < 100.0)
    ensures n.SevereUnderSpec? ==> n.percentUnderSpec > 50.0
    ensures n.MildUnderSpec? ==> n.percentUnderSpec <= 50.0
  {
    if idealLineWidth > maxLineWidth then
      var q := idealLineWidth / maxLineWidth;
      assert q * maxLineWidth == idealLineWidth;
      assert maxLineWidth > 0.0 ==> q > 1.0 by {
        if maxLineWidth > 0.0 {
          RatioOrder(idealLineWidth, maxLineWidth, 1.0);
        }
      }
      OverSpec((q - 1.0) * 100.0)
    else if idealLineWidth < 0.5 * minLineWidth then
      UnderSpecPercent(idealLineWidth, minLineWidth);
      SevereUnderSpec((1.0 - idealLineWidth / minLineWidth) * 100.0)
    else if idealLineWidth < minLineWidth then
      UnderSpecPercent(idealLineWidth, minLineWidth);
      MildUnderSpec((1.0 - idealLineWidth / minLineWidth) * 100.0)
    else
      WithinSpec
  }

  /** The under-spec percentage `(1 - w / m) * 100` of a width below the minimum m. */
  lemma UnderSpecPercent(w: real, m: real)
    requires m > 0.0 && w < m
    ensures var p := (1.0 - w / m) * 100.0;
      && IsPercentDeviation(w, m, -p)
      && p > 0.0
      && (w > 0.0 ==> p < 100.0)
      && (w < 0.5 * m <==> p > 50.0)
  {
    var q := w / m;
    assert q * m == w;
    RatioOrder(w, m, 1.0);
    RatioOrder(w, m, 0.0);
    RatioOrder(w, m, 0.5);
  }

  /** The note names the line-width verdict: "within spec" exactly for a safe verdict,
      a mild under-spec note exactly for a gradient colour, and an over-spec or severe
      under-spec note exactly for a danger. */
  lemma NoteMatchesVerdict(idealLineWidth: real, layerHeight: real, nozzleDiameter: real, nozzleFlatSize: real)
    requires layerHeight > 0.0 && nozzleDiameter > 0.0 && layerHeight + nozzleFlatSize != 0.0
    ensures var n := SelectNote(idealLineWidth, MinLineWidth(layerHeight, nozzleDiameter),
                                MaxLineWidth(layerHeight, nozzleFlatSize));
      var v := LineWidthSafety(idealLineWidth, layerHeight, nozzleDiameter, nozzleFlatSize);
      && (n.WithinSpec? <==> v == Category(Safe))
      && (n.MildUnderSpec? <==> v.Gradient?)
      && (n.OverSpec? || n.SevereUnderSpec? <==> v == Category(Danger))
  {
  }

  /** One row of the table (display rounding and the row tint are not part of it). */
  datatype LayerHeightRecord = LayerHeightRecord(
    layerHeight: real,
    idealLineWidth: real,
    minLineWidth: real,
    maxLineWidth: real,
    minExtrusionVolume: real,
    minVolumeDelta: real,
    maxExtrusionVolume: real,
    maxVolumeDelta: real,
    layerHeightSafetyColor: string,
    lineWidthSafetyColor: string,
    worstSafetyColor: string,
    notes: Note)

  /** The row for one layer height. `root` is `Math.sqrt` of the radicand of the ideal
      line width at that height. The flat size may be anything but minus the height,
      where the maximum width is zero and the over-spec percentage divides by it. Each
      field is the model's operation for that column applied to the row's inputs; the
      line-width colour is the gradient or fixed colour `getSafetyColor` resolves the
      classifier's string to. `RecordVolumes`, `RecordDeltaSigns`, `RecordColours` and
      `RecordNote` state what the row then says. */
  function BuildRecord(nozzleDiameter: real, nozzleFlatSize: real, layerHeight: real, root: real): (r: LayerHeightRecord)
    requires nozzleDiameter > 0.0 && layerHeight > 0.0
    requires layerHeight + nozzleFlatSize != 0.0
    requires IsSqrt(root, Radicand(nozzleDiameter, layerHeight))
    ensures r.layerHeight == layerHeight
    ensures IsIdealLineWidth(nozzleDiameter, layerHeight, r.idealLineWidth)
    ensures r.minLineWidth == MinLineWidth(layerHeight, nozzleDiameter)
    ensures r.maxLineWidth == MaxLineWidth(layerHeight, nozzleFlatSize)
    ensures r.minExtrusionVolume == BeadVolume(r.minLineWidth, layerHeight)
    ensures r.maxExtrusionVolume == BeadVolume(r.maxLineWidth, layerHeight)
    ensures r.minVolumeDelta == VolumeDelta(r.minExtrusionVolume, OutputVolume(nozzleDiameter))
    ensures r.maxVolumeDelta == VolumeDelta(r.maxExtrusionVolume, OutputVolume(nozzleDiameter))
    ensures r.layerHeightSafetyColor == PaletteColour(LayerHeightSafety(layerHeight, nozzleDiameter))
    ensures r.lineWidthSafetyColor
            == Colour(LineWidthSafety(r.idealLineWidth, layerHeight, nozzleDiameter, nozzleFlatSize))
    ensures r.worstSafetyColor == WorstColor(r.layerHeightSafetyColor, r.lineWidthSafetyColor)
    ensures r.notes == SelectNote(r.idealLineWidth, r.minLineWidth, r.maxLineWidth)
  {
    var outputVolume := OutputVolume(nozzleDiameter);
    var idealLineWidth := IdealLineWidth(nozzleDiameter, layerHeight, root);
    var minLineWidth := MinLineWidth(layerHeight, nozzleDiameter);
    var maxLineWidth := MaxLineWidth(layerHeight, nozzleFlatSize);
    var minExtrusionVolume := BeadVolume(minLineWidth, layerHeight);
    var minVolumeDelta := VolumeDelta(minExtrusionVolume, outputVolume);
    var maxExtrusionVolume := BeadVolume(maxLineWidth, layerHeight);
    var maxVolumeDelta := VolumeDelta(maxExtrusionVolume, outputVolume);
    var layerHeightSafetyColor := PaletteColour(LayerHeightSafety(layerHeight, nozzleDiameter));
    var verdict := LineWidthSafety(idealLineWidth, layerHeight, nozzleDiameter, nozzleFlatSize);
    var lineWidthSafetyColor := SafetyColor(Raw(verdict));
    LayerHeightRecord(
      layerHeight,
      idealLineWidth,
      minLineWidth,
      maxLineWidth,
      minExtrusionVolume,
      minVolumeDelta,
      maxExtrusionVolume,
      maxVolumeDelta,
      layerHeightSafetyColor,
      lineWidthSafetyColor,
      WorstColor(layerHeightSafetyColor, lineWidthSafetyColor),
      SelectNote(idealLineWidth, minLineWidth, maxLineWidth))
  }

  /** The row's volume columns: the ideal width's bead extrudes exactly the output
      volume, and each window edge's delta gives back that edge's volume from the
      output volume. */
  lemma RecordVolumes(nozzleDiameter: real, nozzleFlatSize: real, layerHeight: real, root: real)
    requires nozzleDiameter > 0.0 && layerHeight > 0.0
    requires layerHeight + nozzleFlatSize != 0.0
    requires IsSqrt(root, Radicand(nozzleDiameter, layerHeight))
    ensures var r := BuildRecord(nozzleDiameter, nozzleFlatSize, layerHeight, root);
      && BeadVolume(r.idealLineWidth, layerHeight) == OutputVolume(nozzleDiameter)
      && IsPercentDeviation(r.minExtrusionVolume, OutputVolume(nozzleDiameter), r.minVolumeDelta)
      && IsPercentDeviation(r.maxExtrusionVolume, OutputVolume(nozzleDiameter), r.maxVolumeDelta)
  {
    var r := BuildRecord(nozzleDiameter, nozzleFlatSize, layerHeight, root);
    var outputVolume := OutputVolume(nozzleDiameter);
    assert r.minVolumeDelta == VolumeDelta(r.minExtrusionVolume, outputVolume);
    assert r.maxVolumeDelta == VolumeDelta(r.maxExtrusionVolume, outputVolume);
    IdealLineWidthKeepsOutputVolume(nozzleDiameter, layerHeight, r.idealLineWidth, r.minLineWidth);
  }

  /** The row's delta columns: an edge's delta is positive (negative) exactly when that
      edge is wider (narrower) than the ideal width; for the maximum edge this holds
      whenever that edge is a positive width. */
  lemma RecordDeltaSigns(nozzleDiameter: real, nozzleFlatSize: real, layerHeight: real, root: real)
    requires nozzleDiameter > 0.0 && layerHeight > 0.0
    requires layerHeight + nozzleFlatSize != 0.0
    requires IsSqrt(root, Radicand(nozzleDiameter, layerHeight))
    ensures var r := BuildRecord(nozzleDiameter, nozzleFlatSize, layerHeight, root);
      && (r.minVolumeDelta > 0.0 <==> r.minLineWidth > r.idealLineWidth)
      && (r.minVolumeDelta < 0.0 <==> r.minLineWidth < r.idealLineWidth)
      && (r.maxLineWidth > 0.0 ==> (r.maxVolumeDelta > 0.0 <==> r.maxLineWidth > r.idealLineWidth))
      && (r.maxLineWidth > 0.0 ==> (r.maxVolumeDelta < 0.0 <==> r.maxLineWidth < r.idealLineWidth))
  {
    var r := BuildRecord(nozzleDiameter, nozzleFlatSize, layerHeight, root);
    EdgeDeltaSign(nozzleDiameter, layerHeight, r.idealLineWidth, r.minLineWidth);
    EdgeDeltaSign(nozzleDiameter, layerHeight, r.idealLineWidth, r.maxLineWidth);
  }

  /** The row's colours: the worst colour is whichever of the two colours is more
      severe, it is the danger colour exactly when one of them is, and a line-width
      danger verdict makes the whole row a danger. */
  lemma RecordColours(nozzleDiameter: real, nozzleFlatSize: real, layerHeight: real, root: real)
    requires nozzleDiameter > 0.0 && layerHeight > 0.0
    requires layerHeight + nozzleFlatSize != 0.0
    requires IsSqrt(root, Radicand(nozzleDiameter, layerHeight))
    ensures var r := BuildRecord(nozzleDiameter, nozzleFlatSize, layerHeight, root);
      && (r.worstSafetyColor == r.layerHeightSafetyColor || r.worstSafetyColor == r.lineWidthSafetyColor)
      && Severity(r.worstSafetyColor) == Max(Severity(r.layerHeightSafetyColor), Severity(r.lineWidthSafetyColor))
      && (r.worstSafetyColor == DangerColour <==>
            LayerHeightSafety(layerHeight, nozzleDiameter) == Danger || r.lineWidthSafetyColor == DangerColour)
      && (var v := LineWidthSafety(r.idealLineWidth, layerHeight, nozzleDiameter, nozzleFlatSize);
          v == Category(Danger) ==> r.worstSafetyColor == DangerColour)
  {
    var r := BuildRecord(nozzleDiameter, nozzleFlatSize, layerHeight, root);
    WorstColorIsMaximum(r.layerHeightSafetyColor, r.lineWidthSafetyColor);
  }

  /** The row's note is within spec exactly when the ideal width lies in the window, and,
      for a positive maximum width, exactly when the window's volumes bracket the output
      volume. */
  lemma RecordNote(nozzleDiameter: real, nozzleFlatSize: real, layerHeight: real, root: real)
    requires nozzleDiameter > 0.0 && layerHeight > 0.0
    requires layerHeight + nozzleFlatSize != 0.0
    requires IsSqrt(root, Radicand(nozzleDiameter, layerHeight))
    ensures var r := BuildRecord(nozzleDiameter, nozzleFlatSize, layerHeight, root);
      && (r.notes.WithinSpec? <==> r.minLineWidth <= r.idealLineWidth <= r.maxLineWidth)
      && (r.maxLineWidth > 0.0 ==> (r.notes.WithinSpec? <==> r.minVolumeDelta <= 0.0 <= r.maxVolumeDelta))
  {
    RecordDeltaSigns(nozzleDiameter, nozzleFlatSize, layerHeight, root);
  }

  /** The volume delta of a window edge x is positive exactly when the edge is wider
      than the ideal width, and negative exactly when it is narrower. */
  lemma EdgeDeltaSign(nozzleDiameter: real, layerHeight: real, w: real, x: real)
    requires nozzleDiameter > 0.0 && layerHeight > 0.0
    requires IsIdealLineWidth(nozzleDiameter, layerHeight, w)
    ensures var delta := VolumeDelta(BeadVolume(x, layerHeight), OutputVolume(nozzleDiameter));
      x > 0.0 ==> (delta > 0.0 <==> x > w) && (delta < 0.0 <==> x < w)
  {
    if x > 0.0 {
      IdealLineWidthKeepsOutputVolume(nozzleDiameter, layerHeight, w, x);
    }
  }

  /** `root` is the square root of the radicand at every one of `heights`. */
  predicate RootsFor(nozzleDiameter: real, heights: seq<real>, roots: seq<real>)
  {
    && |roots| == |heights|
    && forall k :: 0 <= k < |heights| ==>
         heights[k] > 0.0 && IsSqrt(roots[k], Radicand(nozzleDiameter, heights[k]))
  }

  /** `tableRecords`: one row per layer height, in order, each built from its own
      height alone. */
  function Records(nozzleDiameter: real, nozzleFlatSize: real, heights: seq<real>, roots: seq<real>)
    : (rs: seq<LayerHeightRecord>)
    requires nozzleDiameter > 0.0
    requires RootsFor(nozzleDiameter, heights, roots)
    requires forall k :: 0 <= k < |heights| ==> heights[k] + nozzleFlatSize != 0.0
    ensures |rs| == |heights|
    ensures forall k :: 0 <= k < |rs| ==> rs[k].layerHeight == heights[k]
    ensures forall k :: 0 <= k < |rs| ==> rs[k] == BuildRecord(nozzleDiameter, nozzleFlatSize, heights[k], roots[k])
  {
    seq(|heights|, k requires 0 <= k < |heights| =>
      BuildRecord(nozzleDiameter, nozzleFlatSize, heights[k], roots[k]))
  }

  /** Along the sweep the ideal line width strictly decreases from row to row. */
  lemma SweepIdealLineWidthDecreasing(nozzleDiameter: real, nozzleFlatSize: real, step: real, roots: seq<real>)
    requires nozzleDiameter > 0.0 && step > 0.0
    requires RootsFor(nozzleDiameter, LayerHeightSeq(step, nozzleDiameter), roots)
    requires forall k :: 0 <= k < |LayerHeightSeq(step, nozzleDiameter)| ==>
               LayerHeightSeq(step, nozzleDiameter)[k] + nozzleFlatSize != 0.0
    ensures var rs := Records(nozzleDiameter, nozzleFlatSize, LayerHeightSeq(step, nozzleDiameter), roots);
      forall j, k :: 0 <= j < k < |rs| ==> rs[j].idealLineWidth > rs[k].idealLineWidth
  {
    var hs := LayerHeightSeq(step, nozzleDiameter);
    var rs := Records(nozzleDiameter, nozzleFlatSize, hs, roots);
    LayerHeightSeqBounds(step, nozzleDiameter);
    LayerHeightSeqIncreasing(step, nozzleDiameter);
    forall j, k | 0 <= j < k < |rs|
      ensures rs[j].idealLineWidth > rs[k].idealLineWidth
    {
      IdealLineWidthDecreasing(nozzleDiameter, hs[j], hs[k], rs[j].idealLineWidth, rs[k].idealLineWidth);
    }
  }
}
