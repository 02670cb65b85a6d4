/** Placing the sprite over an eye pair: the extreme corners of the two
    boxes, the source and destination triangles of the affine map, and the
    pair-by-pair compositing of the frame. */
module Overlay {
  import opened Geometry
  import opened EyePairs

  datatype Triangle = Triangle(a: Point, b: Point, c: Point)

  /** Index of the point nearest the origin, scanning in order and letting
      a later point win a tie. */
  function NearestIndex(pts: seq<Point>): (k: nat)
    requires |pts| > 0
    ensures k < |pts|
  {
    if |pts| == 1 then 0
    else
      var k := NearestIndex(pts[..|pts| - 1]);
      if NormSq(pts[|pts| - 1]) <= NormSq(pts[k]) then |pts| - 1 else k
  }

  /** Index of the point farthest from the origin, scanning in order and
      letting a later point win a tie. */
  function FarthestIndex(pts: seq<Point>): (k: nat)
    requires |pts| > 0
    ensures k < |pts|
  {
    if |pts| == 1 then 0
    else
      var k := FarthestIndex(pts[..|pts| - 1]);
      if NormSq(pts[|pts| - 1]) >= NormSq(pts[k]) then |pts| - 1 else k
  }

  /** `NearestIndex` picks a point of least norm, and every later point is
      strictly farther: it is the last point of least norm. */
  lemma {:induction false} NearestIsLastMinimum(pts: seq<Point>)
    requires |pts| > 0
    ensures forall j :: 0 <= j < |pts| ==> NormSq(pts[NearestIndex(pts)]) <= NormSq(pts[j])
    ensures forall j :: NearestIndex(pts) < j < |pts| ==> NormSq(pts[NearestIndex(pts)]) < NormSq(pts[j])
  {
    if |pts| > 1 {
      var init := pts[..|pts| - 1];
      NearestIsLastMinimum(init);
      assert forall j :: 0 <= j < |init| ==> init[j] == pts[j];
    }
  }

  /** `FarthestIndex` picks a point of greatest norm, and every later point
      is strictly nearer: it is the last point of greatest norm. */
  lemma {:induction false} FarthestIsLastMaximum(pts: seq<Point>)
    requires |pts| > 0
    ensures forall j :: 0 <= j < |pts| ==> NormSq(pts[j]) <= NormSq(pts[FarthestIndex(pts)])
    ensures forall j :: FarthestIndex(pts) < j < |pts| ==> NormSq(pts[j]) < NormSq(pts[FarthestIndex(pts)])
  {
    if |pts| > 1 {
      var init := pts[..|pts| - 1];
      FarthestIsLastMaximum(init);
      assert forall j :: 0 <= j < |init| ==> init[j] == pts[j];
    }
  }

  /** Extending the scanned prefix by one point keeps the extremes unless
      the new point is at least as near (for the nearest) or at least as
      far (for the farthest). */
  lemma ExtremesStep(pts: seq<Point>, n: nat)
    requires 0 < n < |pts|
    ensures NearestIndex(pts[..n + 1]) ==
      if NormSq(pts[n]) <= NormSq(pts[NearestIndex(pts[..n])]) then n else NearestIndex(pts[..n])
    ensures FarthestIndex(pts[..n + 1]) ==
      if NormSq(pts[n]) >= NormSq(pts[FarthestIndex(pts[..n])]) then n else FarthestIndex(pts[..n])
  {
    assert pts[..n + 1][..n] == pts[..n];
  }

  /** The sprite's top-left, top-right and bottom-right corners. */
  function SourceTriangle(width: nat, height: nat): Triangle {
    Triangle(Point(0.0, 0.0), Point(width as real, 0.0), Point(width as real, height as real))
  }

  /** The destination triangle spanned around the extreme corners `tl` and
      `br`: it reaches 1.5 spans left of `tl`, 1.8 spans right of `br`, 2.3
      spans above `tl` and 3.4 spans below `br`. */
  function DestTriangle(tl: Point, br: Point): Triangle {
    var w := br.x - tl.x;
    var h := br.y - tl.y;
    Triangle(Point(tl.x - 1.5 * w, tl.y - 2.3 * h),
             Point(br.x + 1.8 * w, tl.y - 2.3 * h),
             Point(br.x + 1.8 * w, br.y + 3.4 * h))
  }

  /** The eight corners scanned, the first box's before the second's. */
  function PairCorners(pair: EyePair): seq<Point> {
    pair.first.corners + pair.second.corners
  }

  /** Both boxes of a pair carry their four corners. */
  predicate HasCorners(pair: EyePair) {
    |pair.first.corners| == 4 && |pair.second.corners| == 4
  }

  /** The destination triangle of a pair, from its nearest and farthest
      corners. */
  function PairTriangle(pair: EyePair): Triangle
    requires HasCorners(pair)
  {
    var pts := PairCorners(pair);
    DestTriangle(pts[NearestIndex(pts)], pts[FarthestIndex(pts)])
  }

  /** The triangles of the affine map for one pair: the scan keeps the
      last corner of least norm as `tl` and the last corner of greatest norm
      as `br`, first over the first box, then over the second. */
  method ComputeAffineTransform(spriteWidth: nat, spriteHeight: nat, pair: EyePair)
    returns (src: Triangle, dst: Triangle)
    requires HasCorners(pair)
    ensures src == SourceTriangle(spriteWidth, spriteHeight)
    ensures dst == PairTriangle(pair)
  {
    src := SourceTriangle(spriteWidth, spriteHeight);
    ghost var pts := PairCorners(pair);
    var points1, points2 := pair.first.corners, pair.second.corners;
    var tl, br := points1[0], points1[0];
    var tld, brd := NormSq(tl), NormSq(br);
    var i := 0;
    while i < 4
      invariant 0 <= i <= 4
      invariant tl == pts[NearestIndex(pts[..if i == 0 then 1 else i])] && tld == NormSq(tl)
      invariant br == pts[FarthestIndex(pts[..if i == 0 then 1 else i])] && brd == NormSq(br)
    {
      var point := points1[i];
      var d := NormSq(point);
      if i > 0 {
        ExtremesStep(pts, i);
      }
      if d <= tld {
        tl, tld := point, d;
      }
      if d >= brd {
        br, brd := point, d;
      }
      i := i + 1;
    }
    i := 0;
    while i < 4
      invariant 0 <= i <= 4
      invariant tl == pts[NearestIndex(pts[..4 + i])] && tld == NormSq(tl)
      invariant br == pts[FarthestIndex(pts[..4 + i])] && brd == NormSq(br)
    {
      var point := points2[i];
      var d := NormSq(point);
      ExtremesStep(pts, 4 + i);
      if d <= tld {
        tl, tld := point, d;
      }
      if d >= brd {
        br, brd := point, d;
      }
      i := i + 1;
    }
    assert pts[..8] == pts;
    dst := DestTriangle(tl, br);
  }

  /** The nearest corner is never farther from the origin than the farthest
      one. */
  lemma NearestNotBeyondFarthest(pts: seq<Point>)
    requires |pts| > 0
    ensures NormSq(pts[NearestIndex(pts)]) <= NormSq(pts[FarthestIndex(pts)])
  {
    NearestIsLastMinimum(pts);
  }

  /** Scaling by the destination's width over `width` along x and its height
      over `height` along y, then shifting to its first vertex. */
  function ScaleMap(width: nat, height: nat, dst: Triangle, p: Point): Point
    requires width > 0 && height > 0
  {
    Point(dst.a.x + p.x * (dst.b.x - dst.a.x) / width as real,
          dst.a.y + p.y * (dst.c.y - dst.b.y) / height as real)
  }

  /** The destination triangle has the source triangle's shape (a
      horizontal top edge and a vertical right edge) and is 4.3 spans wide
      and 6.7 spans tall, so the affine map between the two is a scaling
      along each axis followed by a shift: no rotation and no shear. */
  lemma TriangleMapsByScaling(width: nat, height: nat, tl: Point, br: Point)
    requires width > 0 && height > 0
    ensures var src, dst := SourceTriangle(width, height), DestTriangle(tl, br);
      && dst.a.y == dst.b.y && dst.b.x == dst.c.x
      && dst.b.x - dst.a.x == 4.3 * (br.x - tl.x)
      && dst.c.y - dst.b.y == 6.7 * (br.y - tl.y)
      && ScaleMap(width, height, dst, src.a) == dst.a
      && ScaleMap(width, height, dst, src.b) == dst.b
      && ScaleMap(width, height, dst, src.c) == dst.c
  {
  }

  /** The image operations the compositing step relies on, which the model
      does not look inside: dropping the alpha channel of the frame, warping
      the sprite by the affine map that sends one triangle to another, and
      blending a warped sprite over a background. */
  datatype Compositor<!Img> = Compositor(
    spriteWidth: nat,
    spriteHeight: nat,
    removeAlpha: Img -> Img,
    warp: (Triangle, Triangle) -> Img,
    overlay: (Img, Img) -> Img)

  predicate AllHaveCorners(pairs: seq<EyePair>) {
    forall k :: 0 <= k < |pairs| ==> HasCorners(pairs[k])
  }

  /** The sprite warped onto one pair. */
  function Warped<Img>(comp: Compositor<Img>, pair: EyePair): Img
    requires HasCorners(pair)
  {
    comp.warp(SourceTriangle(comp.spriteWidth, comp.spriteHeight), PairTriangle(pair))
  }

  /** Pairs composited one after another, each blend's output the next
      one's background. */
  function Composite<Img>(comp: Compositor<Img>, background: Img, pairs: seq<EyePair>): Img
    requires AllHaveCorners(pairs)
  {
    if pairs == [] then background
    else Composite(comp, comp.overlay(background, Warped(comp, pairs[0])), pairs[1..])
  }

  /** Compositing a concatenation is compositing the second part over the
      result of the first. */
  lemma {:induction false} CompositeAppend<Img>(comp: Compositor<Img>, background: Img, ps: seq<EyePair>, qs: seq<EyePair>)
    requires AllHaveCorners(ps) && AllHaveCorners(qs)
    ensures AllHaveCorners(ps + qs)
    ensures Composite(comp, background, ps + qs) == Composite(comp, Composite(comp, background, ps), qs)
  {
    if ps != [] {
      var next := comp.overlay(background, Warped(comp, ps[0]));
      CompositeAppend(comp, next, ps[1..], qs);
      assert (ps + qs)[1..] == ps[1..] + qs;
    } else {
      assert ps + qs == qs;
    }
  }
}
