/**
 * Extrusion geometry of the line-width calculator: the volume of a cylindrical
 * bead, the reference output volume of the nozzle, the ideal line width that
 * keeps that volume at a given layer height, the min/max line-width window and
 * the percentage deltas of the window's volumes against the output volume.
 *
 * All quantities are lengths in one consistent unit, modelled exactly over `real`.
 */
module Geometry {

  /** `Math.PI`, as the decimal the double denotes to 16 significant digits.
      Every property below uses only that it is positive. */
  const Pi: real := 3.141592653589793

  /** `Math.pow(x, 2)`. */
  function Square(x: real): (s: real)
    ensures s >= 0.0
  {
    x * x
  }

  /** `a * b`, kept behind a function so that the solver reasons about the product of
      two (possibly equal) factors without first rewriting the sign of a square. */
  function Product(a: real, b: real): real
  {
    a * b
  }

  lemma ProductPositive(a: real, b: real)
    requires a > 0.0 && b > 0.0
    ensures Product(a, b) > 0.0
  {
  }

  /** Scaling by a positive factor keeps the order of two reals, both ways. */
  lemma ScaleOrder(a: real, b: real, m: real)
    requires m > 0.0
    ensures a <= b <==> a * m <= b * m
    ensures a < b <==> a * m < b * m
  {
    assert b * m - a * m == Product(b - a, m);
    if a < b {
      ProductPositive(b - a, m);
    } else if b < a {
      ProductPositive(a - b, m);
      assert a * m - b * m == Product(a - b, m);
    }
  }

  /** Comparing a ratio x / y (with y > 0) with k is comparing x with k * y. */
  lemma RatioOrder(x: real, y: real, k: real)
    requires y > 0.0
    ensures x / y <= k <==> x <= k * y
    ensures x / y < k <==> x < k * y
  {
    assert x / y * y == x;
    ScaleOrder(x / y, k, y);
  }

  /** The square of a non-zero length is positive. */
  lemma SquarePositive(x: real)
    ensures x != 0.0 ==> Square(x) > 0.0
  {
    if x != 0.0 {
      var y := if x > 0.0 then x else -x;
      ProductPositive(y, y);
      assert Product(y, y) == Square(x);
    }
  }

  /** `cylinderVolume(radius, height)`: pi * radius^2 * height. */
  function CylinderVolume(radius: real, height: real): (v: real)
    ensures height > 0.0 && radius != 0.0 ==> v > 0.0
    ensures height > 0.0 ==> v >= 0.0
  {
    SquarePositive(radius);
    Pi * Square(radius) * height
  }

  /** The volume per unit length of a bead of the given width at a layer height:
      `cylinderVolume(width / 2, layerHeight)`. */
  function BeadVolume(width: real, layerHeight: real): (v: real)
    ensures layerHeight > 0.0 ==> v >= 0.0
    ensures layerHeight > 0.0 && width != 0.0 ==> v > 0.0
  {
    CylinderVolume(width / 2.0, layerHeight)
  }

  /** The reference volume per unit length: a cylinder of the nozzle's own diameter
      and height equal to that diameter. */
  function OutputVolume(nozzleDiameter: real): (v: real)
    ensures nozzleDiameter > 0.0 ==> v > 0.0
  {
    CylinderVolume(nozzleDiameter / 2.0, nozzleDiameter)
  }

  /** The argument of the square root in `calculateIdealLineWidth`:
      (D / h) * (D / 2)^2. */
  function Radicand(nozzleDiameter: real, layerHeight: real): (x: real)
    requires layerHeight > 0.0
    ensures nozzleDiameter > 0.0 ==> x > 0.0
    ensures 4.0 * x * layerHeight == nozzleDiameter * nozzleDiameter * nozzleDiameter
  {
    assert nozzleDiameter > 0.0 ==> nozzleDiameter / layerHeight > 0.0;
    SquarePositive(nozzleDiameter / 2.0);
    (nozzleDiameter / layerHeight) * Square(nozzleDiameter / 2.0)
  }

  /** `root` is the non-negative square root of `x` (what `Math.sqrt` returns). */
  predicate IsSqrt(root: real, x: real)
  {
    root >= 0.0 && root * root == x
  }

  /** The characterisation of the ideal line width: a positive width `w` whose
      square times the layer height is the cube of the nozzle diameter. */
  predicate IsIdealLineWidth(nozzleDiameter: real, layerHeight: real, w: real)
  {
    w > 0.0 && w * w * layerHeight == nozzleDiameter * nozzleDiameter * nozzleDiameter
  }

  /** `calculateIdealLineWidth(D, h)` = 2 * sqrt((D / h) * (D / 2)^2). The square root is
      a numeric library routine, so its value `root` is passed in, constrained to be the
      square root of the radicand. */
  function IdealLineWidth(nozzleDiameter: real, layerHeight: real, root: real): (w: real)
    requires nozzleDiameter > 0.0 && layerHeight > 0.0
    requires IsSqrt(root, Radicand(nozzleDiameter, layerHeight))
    ensures IsIdealLineWidth(nozzleDiameter, layerHeight, w)
  {
    var x := Radicand(nozzleDiameter, layerHeight);
    assert root * root > 0.0;
    assert 2.0 * root * (2.0 * root) * layerHeight == 4.0 * x * layerHeight;
    2.0 * root
  }

  /** At a given layer height at most one width is ideal. */
  lemma IdealLineWidthUnique(nozzleDiameter: real, layerHeight: real, w1: real, w2: real)
    requires layerHeight > 0.0
    requires IsIdealLineWidth(nozzleDiameter, layerHeight, w1)
    requires IsIdealLineWidth(nozzleDiameter, layerHeight, w2)
    ensures w1 == w2
  {
    assert (w1 * w1 - w2 * w2) * layerHeight == 0.0;
    assert w1 * w1 - w2 * w2 == 0.0;
    assert (w1 - w2) * (w1 + w2) == w1 * w1 - w2 * w2;
  }

  /** For a fixed nozzle, a taller layer has a strictly narrower ideal line width. */
  lemma IdealLineWidthDecreasing(nozzleDiameter: real, h1: real, h2: real, w1: real, w2: real)
    requires nozzleDiameter > 0.0 && 0.0 < h1 < h2
    requires IsIdealLineWidth(nozzleDiameter, h1, w1)
    requires IsIdealLineWidth(nozzleDiameter, h2, w2)
    ensures w1 > w2
  {
    assert w2 * w2 * h1 < w2 * w2 * h2;
    assert (w1 * w1 - w2 * w2) * h1 > 0.0;
    assert w1 * w1 - w2 * w2 > 0.0;
    assert (w1 - w2) * (w1 + w2) == w1 * w1 - w2 * w2;
  }

  /** Lower bound of the plausible line-width window: layer height plus nozzle diameter. */
  function MinLineWidth(layerHeight: real, nozzleDiameter: real): (m: real)
    ensures layerHeight > 0.0 && nozzleDiameter > 0.0 ==> m > nozzleDiameter && m > layerHeight
  {
    layerHeight + nozzleDiameter
  }

  /** Upper bound of the plausible line-width window: layer height plus nozzle flat size. */
  function MaxLineWidth(layerHeight: real, nozzleFlatSize: real): (m: real)
    ensures layerHeight > 0.0 && nozzleFlatSize > 0.0 ==> m > nozzleFlatSize && m > layerHeight
  {
    layerHeight + nozzleFlatSize
  }

  /** The window's width does not depend on the layer height, and the window is proper
      exactly when the flat is wider than the bore. */
  lemma LineWidthWindow(layerHeight: real, nozzleDiameter: real, nozzleFlatSize: real)
    ensures MaxLineWidth(layerHeight, nozzleFlatSize) - MinLineWidth(layerHeight, nozzleDiameter)
            == nozzleFlatSize - nozzleDiameter
    ensures MinLineWidth(layerHeight, nozzleDiameter) < MaxLineWidth(layerHeight, nozzleFlatSize)
            <==> nozzleDiameter < nozzleFlatSize
  {
  }

  /** `value` lies `percent` per cent above `base` (below it for a negative percent):
      scaling the base by the percentage gives back the value. */
  predicate IsPercentDeviation(value: real, base: real, percent: real)
  {
    value == base * (1.0 + percent / 100.0)
  }

  /** `(volume / outputVolume - 1) * 100`: the percentage by which `volume` deviates
      from `outputVolume`. */
  function VolumeDelta(volume: real, outputVolume: real): (delta: real)
    requires outputVolume != 0.0
    ensures IsPercentDeviation(volume, outputVolume, delta)
    ensures outputVolume > 0.0 ==> (delta > 0.0 <==> volume > outputVolume)
    ensures outputVolume > 0.0 ==> (delta == 0.0 <==> volume == outputVolume)
    ensures outputVolume > 0.0 ==> (delta < 0.0 <==> volume < outputVolume)
  {
    var q := volume / outputVolume;
    assert q * outputVolume == volume;
    assert outputVolume > 0.0 ==> (q > 1.0 <==> volume > outputVolume) by {
      if outputVolume > 0.0 {
        if q > 1.0 {
          assert q * outputVolume > 1.0 * outputVolume;
        } else {
          assert q * outputVolume <= 1.0 * outputVolume;
        }
      }
    }
    (q - 1.0) * 100.0
  }

  /** The volume of a bead of width `x` at layer height `h`, compared with the output
      volume, is decided by the square of the width against D^3 / h. */
  lemma BeadVolumeVersusOutput(nozzleDiameter: real, layerHeight: real, x: real)
    requires nozzleDiameter > 0.0 && layerHeight > 0.0
    ensures BeadVolume(x, layerHeight) - OutputVolume(nozzleDiameter)
            == Pi / 4.0 * (x * x * layerHeight - nozzleDiameter * nozzleDiameter * nozzleDiameter)
  {
    var d := nozzleDiameter;
    assert Square(x / 2.0) == x * x / 4.0;
    assert Square(d / 2.0) == d * d / 4.0;
    calc {
      BeadVolume(x, layerHeight) - OutputVolume(d);
      Pi * (x * x / 4.0) * layerHeight - Pi * (d * d / 4.0) * d;
      Pi / 4.0 * (x * x * layerHeight - d * d * d);
    }
  }

  /** The ideal line width is exactly the width whose bead extrudes the output volume;
      a wider bead extrudes more and a narrower one less. */
  lemma IdealLineWidthKeepsOutputVolume(nozzleDiameter: real, layerHeight: real, w: real, x: real)
    requires nozzleDiameter > 0.0 && layerHeight > 0.0 && x > 0.0
    requires IsIdealLineWidth(nozzleDiameter, layerHeight, w)
    ensures BeadVolume(w, layerHeight) == OutputVolume(nozzleDiameter)
    ensures BeadVolume(x, layerHeight) > OutputVolume(nozzleDiameter) <==> x > w
    ensures BeadVolume(x, layerHeight) < OutputVolume(nozzleDiameter) <==> x < w
  {
    var cube := nozzleDiameter * nozzleDiameter * nozzleDiameter;
    BeadVolumeVersusOutput(nozzleDiameter, layerHeight, w);
    BeadVolumeVersusOutput(nozzleDiameter, layerHeight, x);
    SquareOrder(x, w, layerHeight);
    var e := x * x * layerHeight - cube;
    assert x > w <==> e > 0.0;
    assert x < w <==> e < 0.0;
    ScaleOrder(0.0, e, Pi / 4.0);
    ScaleOrder(e, 0.0, Pi / 4.0);
    assert BeadVolume(x, layerHeight) - OutputVolume(nozzleDiameter) == e * (Pi / 4.0);
  }

  /** For positive widths, comparing the widths is comparing their squares times `h`. */
  lemma SquareOrder(x: real, w: real, h: real)
    requires x > 0.0 && w > 0.0 && h > 0.0
    ensures x > w <==> x * x * h > w * w * h
    ensures x < w <==> x * x * h < w * w * h
  {
    assert x * x * h - w * w * h == (x - w) * ((x + w) * h);
    assert (x + w) * h > 0.0;
  }
}
