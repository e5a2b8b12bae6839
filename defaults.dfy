/**
 * Worked rows of the line-width calculator's table: the default sweep, its first
 * row, and a row whose worst-case colour is safe although its note is not.
 */
module Defaults {
  import opened Geometry
  import opened Safety
  import opened Sweep

  /** With the default settings (0.4 nozzle, 0.04 step) the sweep has sixteen layer
      heights, 0.04 to 0.64. */
  lemma DefaultLayerHeights()
    ensures var hs := LayerHeightSeq(0.04, 0.4);
      |hs| == 16 && hs[0] == 0.04 && hs[15] == 0.64
  {
    var bound := MaxLayerHeight(0.4);
    assert bound == 0.64;
    HeightCountUnique(0.04, bound, 16);
  }

  /** The first row with the default settings (0.4 nozzle, 0.6 flat, height 0.04): its
      window is [0.44, 0.64] and its ideal width, the square root of 1.6 (about 1.265),
      lies above it, so the line width is a danger; the layer height, a tenth of the
      nozzle, is safe, and the row is a danger. */
  lemma DefaultFirstRow(root: real, r: LayerHeightRecord)
    requires IsSqrt(root, Radicand(0.4, 0.04))
    requires r == BuildRecord(0.4, 0.6, 0.04, root)
    ensures r.minLineWidth == 0.44 && r.maxLineWidth == 0.64
    ensures 1.26464 < r.idealLineWidth < 1.26528
    ensures r.lineWidthSafetyColor == DangerColour
    ensures r.layerHeightSafetyColor == SafeColour
    ensures r.worstSafetyColor == DangerColour
  {
    DefaultFirstIdealWidth(r.idealLineWidth);
    assert LineWidthSafety(r.idealLineWidth, 0.04, 0.4, 0.6) == Category(Danger);
    assert LayerHeightSafety(0.04, 0.4) == Safe;
  }

  /** The first row's note: the ideal width is over the maximum 0.64 by 97.6 to 97.7
      percent. */
  lemma DefaultFirstNote(root: real, r: LayerHeightRecord)
    requires IsSqrt(root, Radicand(0.4, 0.04))
    requires r == BuildRecord(0.4, 0.6, 0.04, root)
    ensures r.notes.OverSpec? && 97.6 < r.notes.percentOverSpec < 97.7
  {
    DefaultFirstIdealWidth(r.idealLineWidth);
    DefaultFirstOverSpec(r.idealLineWidth, r.notes.percentOverSpec);
  }

  /** At nozzle 0.4 and height 0.04 the ideal width is the square root of 1.6. */
  lemma DefaultFirstIdealWidth(w: real)
    requires IsIdealLineWidth(0.4, 0.04, w)
    ensures w * w == 1.6 && 1.26464 < w < 1.26528
  {
    assert w * w * 0.04 == 0.064;
    SquareOrder(w, 1.26464, 1.0);
    SquareOrder(w, 1.26528, 1.0);
  }

  /** A width between 1.26464 and 1.26528 is 97.6 to 97.7 percent above 0.64. */
  lemma DefaultFirstOverSpec(w: real, percent: real)
    requires 1.26464 < w < 1.26528 && IsPercentDeviation(w, 0.64, percent)
    ensures 97.6 < percent < 97.7
  {
  }

  /** A real row that the worst-case colour calls safe although its note says the
      ideal width is under the minimum: nozzle 1, flat 1.5, height 0.47. The ideal
      width (about 1.4586) lies just below the minimum 1.47, where the gradient rounds
      to `#0f0`. */
  lemma SafeColouredUnderSpecRow(root: real, r: LayerHeightRecord)
    requires IsSqrt(root, Radicand(1.0, 0.47))
    requires r == BuildRecord(1.0, 1.5, 0.47, root)
    ensures LineWidthSafety(r.idealLineWidth, 0.47, 1.0, 1.5).Gradient?
    ensures r.lineWidthSafetyColor == SafeColour
    ensures r.worstSafetyColor == SafeColour
    ensures r.notes.MildUnderSpec?
  {
    var w := r.idealLineWidth;
    UnderSpecRowIdealWidth(w);
    SoftBandColour(w, 0.47, 1.0, 1.5);
    GradientInPalette(0, 15);
    assert LayerHeightSafety(0.47, 1.0) == Safe;
  }

  /** At nozzle 1 and height 0.47 the ideal width lies in the upper quarter of the soft
      band below the minimum 1.47, close enough to it that the red digit rounds to 0. */
  lemma UnderSpecRowIdealWidth(w: real)
    requires IsIdealLineWidth(1.0, 0.47, w)
    ensures 0.75 * 1.47 < w < 1.47
    ensures GradientDigit(SoftBandShift(w, 1.47)) == 0
  {
    assert w * w * 0.47 == 1.0;
    SquareOrder(w, 1.45864, 0.47);
    SquareOrder(w, 1.45866, 0.47);
    var shift := SoftBandShift(w, 1.47);
    assert shift * 1.47 < -1.4245;
    ScaleOrder(shift, -0.9667, 1.47);
    assert Abs(shift) > 0.9667;
  }
}
