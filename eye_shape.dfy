/** Single-eye acceptance: is one oriented box eye-shaped? */
module EyeShape {
  import opened Geometry
  import opened Stages

  // The tuning constants. `23 / 6` and `17 / 6` are integer divisions in
  // the source, so they are 3 and 2 before they become reals.
  const LongAspect: real := (23 / 6) as real
  const ShortAspect: real := (17 / 6) as real
  const MinWidth: real := 10.0
  const MinHeight: real := ShortAspect * MinWidth
  const MaxWidth: real := 40.0
  const MaxHeight: real := LongAspect * MaxWidth

  /** The four acceptance bounds in force in one stage. */
  datatype Band = Band(areaMin: real, areaMax: real, aspectMin: real, aspectMax: real)

  /** The bounds: the area band spans the smallest and largest tuned eye, the
      aspect band spans 0.7 to 1/0.7 times the long aspect, and in the `Rect`
      debug stage every lower bound is multiplied and every upper bound
      divided by 0.8. */
  function BandFor(stage: Stage): (b: Band)
    ensures stage != Rect ==> b == Band(200.0, 4800.0, 2.1, 30.0 / 7.0)
    ensures stage == Rect ==> b == Band(160.0, 6000.0, 1.68, 75.0 / 14.0)
  {
    var strict := Band(MinWidth * MinHeight, MaxWidth * MaxHeight, LongAspect * 0.7, LongAspect / 0.7);
    if stage == Rect then
      Band(strict.areaMin * 0.8, strict.areaMax / 0.8, strict.aspectMin * 0.8, strict.aspectMax / 0.8)
    else
      strict
  }

  /** The area test runs first, so a box that fails it never reaches the
      division of the aspect test. */
  predicate IsEye(width: real, height: real, stage: Stage) {
    var b := BandFor(stage);
    var area := width * height;
    if area < b.areaMin || area > b.areaMax then false
    else
      NonZeroFactors(width, height, b.areaMin);
      var aspect := Max(width, height) / Min(width, height);
      !(aspect < b.aspectMin || aspect > b.aspectMax)
  }

  lemma NonZeroFactors(x: real, y: real, bound: real)
    requires bound > 0.0 && x * y >= bound
    ensures x != 0.0 && y != 0.0
  {
  }

  /** An accepted box has two positive sides: a zero side fails the area
      test and two negative sides give an aspect of at most 1. */
  lemma AcceptedIsPositive(width: real, height: real, stage: Stage)
    requires IsEye(width, height, stage)
    ensures width > 0.0 && height > 0.0
  {
    var b := BandFor(stage);
    NonZeroFactors(width, height, b.areaMin);
    if width < 0.0 || height < 0.0 {
      if width > 0.0 || height > 0.0 {
        assert false;
      }
      var hi, lo := Max(width, height), Min(width, height);
      assert hi / lo <= 1.0 by { RatioOfNegatives(hi, lo); }
      assert false;
    }
  }

  lemma OppositeSigns(x: real, y: real)
    requires (x < 0.0 && y > 0.0) || (x > 0.0 && y < 0.0)
    ensures x * y < 0.0
  {
    if x < 0.0 {
      assert (-x) * y > 0.0;
    } else {
      assert x * (-y) > 0.0;
    }
  }

  lemma RatioOfNegatives(hi: real, lo: real)
    requires lo <= hi < 0.0
    ensures hi / lo <= 1.0
  {
    var q := hi / lo;
    assert q * lo == hi;
    if q > 1.0 {
      OppositeSigns(q - 1.0, lo);
      assert false;
    }
  }

  /** The accepting region, stated without the source's ordering of tests:
      two positive sides, an area in the band and a long-to-short ratio in
      the band. */
  predicate InBand(width: real, height: real, b: Band) {
    && width > 0.0 && height > 0.0
    && b.areaMin <= width * height <= b.areaMax
    && b.aspectMin <= Max(width, height) / Min(width, height) <= b.aspectMax
  }

  /** Outside the `Rect` stage a box is an eye exactly when its area lies in
      [200, 4800] and its long-to-short ratio in [2.1, 30/7]. */
  lemma StrictBand(width: real, height: real, stage: Stage)
    requires stage != Rect
    ensures IsEye(width, height, stage) <==> InBand(width, height, Band(200.0, 4800.0, 2.1, 30.0 / 7.0))
  {
    if IsEye(width, height, stage) {
      AcceptedIsPositive(width, height, stage);
    }
  }

  /** In the `Rect` stage the band is [160, 6000] for the area and
      [1.68, 75/14] for the ratio. */
  lemma RelaxedBand(width: real, height: real)
    ensures IsEye(width, height, Rect) <==> InBand(width, height, Band(160.0, 6000.0, 1.68, 75.0 / 14.0))
  {
    if IsEye(width, height, Rect) {
      AcceptedIsPositive(width, height, Rect);
    }
  }

  /** A box with a zero side is rejected, whatever the stage. */
  lemma ZeroSideRejected(width: real, height: real, stage: Stage)
    requires width == 0.0 || height == 0.0
    ensures !IsEye(width, height, stage)
  {
  }

  /** Swapping width and height does not change the verdict. */
  lemma IsEyeSymmetric(width: real, height: real, stage: Stage)
    ensures IsEye(width, height, stage) == IsEye(height, width, stage)
  {
  }

  /** Every box accepted in some stage is also accepted in the relaxed
      `Rect` stage. */
  lemma RelaxationWidens(width: real, height: real, stage: Stage)
    requires IsEye(width, height, stage)
    ensures IsEye(width, height, Rect)
  {
  }
}
