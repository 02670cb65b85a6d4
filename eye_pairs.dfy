/** Eye-pair acceptance: do two eye-shaped boxes look like a left and a
    right eye? */
module EyePairs {
  import opened Geometry
  import opened Stages

  /** Two boxes accepted together, in the order they were compared. */
  datatype EyePair = EyePair(first: Box, second: Box)

  /** The mean of four corner points. */
  function Centroid(pts: seq<Point>): Point
    requires |pts| == 4
  {
    Point((pts[0].x + pts[1].x + pts[2].x + pts[3].x) / 4.0,
          (pts[0].y + pts[1].y + pts[2].y + pts[3].y) / 4.0)
  }

  /** The least squared distance from `c` to the points, accumulated in
      scan order starting from the first point. */
  function NearSq(c: Point, pts: seq<Point>): real
    requires |pts| > 0
  {
    if |pts| == 1 then DistSq(c, pts[0])
    else Min(NearSq(c, pts[..|pts| - 1]), DistSq(c, pts[|pts| - 1]))
  }

  /** The greatest squared distance from `c` to the points, accumulated the
      same way. */
  function FarSq(c: Point, pts: seq<Point>): real
    requires |pts| > 0
  {
    if |pts| == 1 then DistSq(c, pts[0])
    else Max(FarSq(c, pts[..|pts| - 1]), DistSq(c, pts[|pts| - 1]))
  }

  /** `NearSq` is the squared distance of one of the points, and no point is
      nearer. */
  lemma {:induction false} NearSqIsLeast(c: Point, pts: seq<Point>)
    requires |pts| > 0
    ensures forall i :: 0 <= i < |pts| ==> NearSq(c, pts) <= DistSq(c, pts[i])
    ensures exists i :: 0 <= i < |pts| && NearSq(c, pts) == DistSq(c, pts[i])
  {
    var last := |pts| - 1;
    if last == 0 {
      assert NearSq(c, pts) == DistSq(c, pts[0]);
    } else {
      var init := pts[..last];
      NearSqIsLeast(c, init);
      assert forall i :: 0 <= i < |init| ==> init[i] == pts[i];
      if NearSq(c, pts) != DistSq(c, pts[last]) {
        var j :| 0 <= j < |init| && NearSq(c, init) == DistSq(c, init[j]);
        assert NearSq(c, pts) == DistSq(c, pts[j]);
      }
    }
  }

  /** `FarSq` is the squared distance of one of the points, and no point is
      farther. */
  lemma {:induction false} FarSqIsGreatest(c: Point, pts: seq<Point>)
    requires |pts| > 0
    ensures forall i :: 0 <= i < |pts| ==> DistSq(c, pts[i]) <= FarSq(c, pts)
    ensures exists i :: 0 <= i < |pts| && FarSq(c, pts) == DistSq(c, pts[i])
  {
    var last := |pts| - 1;
    if last == 0 {
      assert FarSq(c, pts) == DistSq(c, pts[0]);
    } else {
      var init := pts[..last];
      FarSqIsGreatest(c, init);
      assert forall i :: 0 <= i < |init| ==> init[i] == pts[i];
      if FarSq(c, pts) != DistSq(c, pts[last]) {
        var j :| 0 <= j < |init| && FarSq(c, init) == DistSq(c, init[j]);
        assert FarSq(c, pts) == DistSq(c, pts[j]);
      }
    }
  }

  /** Check 1: widths and heights within a factor 1.4 of each other. */
  predicate SizesAlike(b1: Box, b2: Box)
    requires ValidBox(b1) && ValidBox(b2)
  {
    !(Max(b1.width, b2.width) / Min(b1.width, b2.width) > 1.4
      || Max(b1.height, b2.height) / Min(b1.height, b2.height) > 1.4)
  }

  /** Check 2: angles within 3 degrees of each other. */
  predicate AnglesAlike(b1: Box, b2: Box) {
    !(Abs(b1.angle - b2.angle) > 3.0)
  }

  /** The ideal distance between the two centroids: five times the short
      side of the first box. */
  function Expected(b1: Box): real {
    Min(b1.width, b1.height) * 5.0
  }

  /** Check 3 on squares: the centroid distance lies in
      [0.7 * Expected, Expected / 0.7]. */
  predicate DistanceFits(b1: Box, b2: Box)
    requires ValidBox(b1) && ValidBox(b2)
  {
    var d := DistSq(Centroid(b1.corners), Centroid(b2.corners));
    var e := Expected(b1);
    !(d < Sq(e * 0.7) || d > Sq(e / 0.7))
  }

  /** Check 4 on squares: seen from the first centroid, the farthest corner
      of the second box is at most 1.3 times as far as the nearest one. */
  predicate CornersBalanced(b1: Box, b2: Box)
    requires ValidBox(b1) && ValidBox(b2)
  {
    var c1 := Centroid(b1.corners);
    !(FarSq(c1, b2.corners) > Sq(1.3) * NearSq(c1, b2.corners))
  }

  /** The pair test: always true in the `Eye` and `Rect` debug stages,
      otherwise the four checks in order, each able to reject. */
  predicate IsEyes(b1: Box, b2: Box, stage: Stage)
    requires ValidBox(b1) && ValidBox(b2)
  {
    if stage == Eye || stage == Rect then true
    else if !SizesAlike(b1, b2) then false
    else if !AnglesAlike(b1, b2) then false
    else if !DistanceFits(b1, b2) then false
    else if !CornersBalanced(b1, b2) then false
    else true
  }

  /** In the `Eye` and `Rect` debug stages every pair is accepted. */
  lemma DebugStagesAcceptAll(b1: Box, b2: Box, stage: Stage)
    requires ValidBox(b1) && ValidBox(b2)
    requires stage == Eye || stage == Rect
    ensures IsEyes(b1, b2, stage)
  {
  }

  /** Outside those stages, a size ratio above 1.4 or an angle difference
      above 3 degrees rejects the pair before any distance is measured. */
  lemma EarlyRejections(b1: Box, b2: Box, stage: Stage)
    requires ValidBox(b1) && ValidBox(b2)
    requires stage != Eye && stage != Rect
    requires Max(b1.width, b2.width) / Min(b1.width, b2.width) > 1.4
          || Max(b1.height, b2.height) / Min(b1.height, b2.height) > 1.4
          || Abs(b1.angle - b2.angle) > 3.0
    ensures !IsEyes(b1, b2, stage)
  {
  }

  /** The pair test on true distances. Let `dist` be the distance between
      the centroids and `near`, `far` the least and greatest distances from
      the first centroid to the corners of the second box (each the
      non-negative root of the squared quantity). Then the pair is accepted
      exactly in the debug stages or when all four checks pass as the
      source writes them on distances. */
  lemma IsEyesOnDistances(b1: Box, b2: Box, stage: Stage, dist: real, near: real, far: real)
    requires ValidBox(b1) && ValidBox(b2)
    requires dist >= 0.0 && Sq(dist) == DistSq(Centroid(b1.corners), Centroid(b2.corners))
    requires near >= 0.0 && Sq(near) == NearSq(Centroid(b1.corners), b2.corners)
    requires far >= 0.0 && Sq(far) == FarSq(Centroid(b1.corners), b2.corners)
    ensures IsEyes(b1, b2, stage) <==>
      || stage == Eye || stage == Rect
      || (&& Max(b1.width, b2.width) / Min(b1.width, b2.width) <= 1.4
          && Max(b1.height, b2.height) / Min(b1.height, b2.height) <= 1.4
          && Abs(b1.angle - b2.angle) <= 3.0
          && Expected(b1) * 0.7 <= dist <= Expected(b1) / 0.7
          && far <= 1.3 * near)
  {
    DistanceOnDistance(b1, b2, dist);
    CornersOnDistances(b1, b2, near, far);
  }

  lemma DistanceOnDistance(b1: Box, b2: Box, dist: real)
    requires ValidBox(b1) && ValidBox(b2)
    requires dist >= 0.0 && Sq(dist) == DistSq(Centroid(b1.corners), Centroid(b2.corners))
    ensures DistanceFits(b1, b2) <==> Expected(b1) * 0.7 <= dist <= Expected(b1) / 0.7
  {
    var e := Expected(b1);
    assert e > 0.0;
    SquareMonotone(e * 0.7, dist);
    SquareMonotone(dist, e / 0.7);
  }

  lemma CornersOnDistances(b1: Box, b2: Box, near: real, far: real)
    requires ValidBox(b1) && ValidBox(b2)
    requires near >= 0.0 && Sq(near) == NearSq(Centroid(b1.corners), b2.corners)
    requires far >= 0.0 && Sq(far) == FarSq(Centroid(b1.corners), b2.corners)
    ensures CornersBalanced(b1, b2) <==> far <= 1.3 * near
  {
    SquareMonotone(far, 1.3 * near);
    assert Sq(1.3 * near) == Sq(1.3) * Sq(near);
  }

  /** The size and angle checks do not depend on the order of the boxes. */
  lemma SizeAndAngleSymmetric(b1: Box, b2: Box)
    requires ValidBox(b1) && ValidBox(b2)
    ensures SizesAlike(b1, b2) == SizesAlike(b2, b1)
    ensures AnglesAlike(b1, b2) == AnglesAlike(b2, b1)
  {
  }

  /** The four corners of a rectangle with centre `c` and half-side vectors
      `u` and `v`, in the order bottom-left, top-left, top-right,
      bottom-right. */
  function RectangleCorners(c: Point, u: Point, v: Point): (pts: seq<Point>)
    ensures |pts| == 4
  {
    [Point(c.x - u.x + v.x, c.y - u.y + v.y), Point(c.x - u.x - v.x, c.y - u.y - v.y),
     Point(c.x + u.x - v.x, c.y + u.y - v.y), Point(c.x + u.x + v.x, c.y + u.y + v.y)]
  }

  /** The centroid of a rectangle's corners is its centre, so the distance
      check measures the distance between the two box centres. */
  lemma CentroidIsCentre(c: Point, u: Point, v: Point)
    ensures Centroid(RectangleCorners(c, u, v)) == c
  {
  }

  // Upright example boxes, corners listed bottom-left, top-left, top-right,
  // bottom-right.

  /** A 20 by 20 box centred at the origin. */
  const SquareAtOrigin := Box(20.0, 20.0, 0.0,
    [Point(-10.0, 10.0), Point(-10.0, -10.0), Point(10.0, -10.0), Point(10.0, 10.0)])
  /** A 20 by 20 box centred 100 to the right. */
  const SquareAt100 := Box(20.0, 20.0, 0.0,
    [Point(90.0, 10.0), Point(90.0, -10.0), Point(110.0, -10.0), Point(110.0, 10.0)])
  /** A 20 by 20 box centred 50 to the right. */
  const SquareAt50 := Box(20.0, 20.0, 0.0,
    [Point(40.0, 10.0), Point(40.0, -10.0), Point(60.0, -10.0), Point(60.0, 10.0)])
  /** A 10 by 30 box centred at the origin. */
  const SlimAtOrigin := Box(10.0, 30.0, 0.0,
    [Point(-5.0, 15.0), Point(-5.0, -15.0), Point(5.0, -15.0), Point(5.0, 15.0)])
  /** An 8 by 30 box centred 60 to the right. */
  const SlimmerAt60 := Box(8.0, 30.0, 0.0,
    [Point(56.0, 15.0), Point(56.0, -15.0), Point(64.0, -15.0), Point(64.0, 15.0)])

  /** Two 20 by 20 boxes whose centres are 100 apart form a pair: the
      expected distance is 100, inside [70, 100/0.7], and the corners of the
      second box are between sqrt(8200) and sqrt(12200) from the first
      centre, a ratio below 1.3. */
  lemma SquaresHundredApart()
    ensures IsEyes(SquareAtOrigin, SquareAt100, Eyes)
  {
    assert SizesAlike(SquareAtOrigin, SquareAt100) && AnglesAlike(SquareAtOrigin, SquareAt100);
    HundredApartDistance();
    HundredApartCorners();
  }

  lemma HundredApartDistance()
    ensures DistanceFits(SquareAtOrigin, SquareAt100)
  {
    AlongAxis(SquareAtOrigin, SquareAt100, 100.0);
    assert Sq(100.0) == 10000.0;
    assert Expected(SquareAtOrigin) == 100.0;
  }

  lemma HundredApartCorners()
    ensures CornersBalanced(SquareAtOrigin, SquareAt100)
  {
    assert Centroid(SquareAtOrigin.corners) == Point(0.0, 0.0);
    CornersAlongAxis(100.0, 10.0, 10.0);
    assert Sq(90.0) + Sq(10.0) == 8200.0 && Sq(110.0) + Sq(10.0) == 12200.0;
  }

  /** The same boxes only 50 apart do not: 50 is below 0.7 * 100. */
  lemma SquaresFiftyApart()
    ensures !IsEyes(SquareAtOrigin, SquareAt50, Eyes)
  {
    AlongAxis(SquareAtOrigin, SquareAt50, 50.0);
    assert Sq(50.0) == 2500.0;
    assert Expected(SquareAtOrigin) == 100.0;
    assert !DistanceFits(SquareAtOrigin, SquareAt50);
  }

  /** The pair test is not symmetric: only the first box's short side sets
      the expected distance. A 10 by 30 box and an 8 by 30 box 60 apart are
      a pair in one order (60 is inside [35, 50/0.7]) and not in the other
      (60 is above 40/0.7). */
  lemma NotSymmetric()
    ensures IsEyes(SlimAtOrigin, SlimmerAt60, Eyes) && !IsEyes(SlimmerAt60, SlimAtOrigin, Eyes)
  {
    SlimFirstAccepted();
    SlimmerFirstRejected();
  }

  lemma SlimFirstAccepted()
    ensures IsEyes(SlimAtOrigin, SlimmerAt60, Eyes)
  {
    assert SizesAlike(SlimAtOrigin, SlimmerAt60) && AnglesAlike(SlimAtOrigin, SlimmerAt60);
    SlimFirstDistance();
    SlimFirstCorners();
  }

  lemma SlimFirstDistance()
    ensures DistanceFits(SlimAtOrigin, SlimmerAt60)
  {
    AlongAxis(SlimAtOrigin, SlimmerAt60, 60.0);
    assert Sq(60.0) == 3600.0;
    assert Expected(SlimAtOrigin) == 50.0;
  }

  lemma SlimFirstCorners()
    ensures CornersBalanced(SlimAtOrigin, SlimmerAt60)
  {
    assert Centroid(SlimAtOrigin.corners) == Point(0.0, 0.0);
    CornersAlongAxis(60.0, 4.0, 15.0);
    assert Sq(56.0) + Sq(15.0) == 3361.0 && Sq(64.0) + Sq(15.0) == 4321.0;
  }

  lemma SlimmerFirstRejected()
    ensures !IsEyes(SlimmerAt60, SlimAtOrigin, Eyes)
  {
    AlongAxis(SlimmerAt60, SlimAtOrigin, 60.0);
    assert Sq(60.0) == 3600.0;
    assert Expected(SlimmerAt60) == 40.0;
    assert !DistanceFits(SlimmerAt60, SlimAtOrigin);
  }

  /** Two example boxes whose centroids are `d` apart on the x-axis, the
      first one at the origin. */
  lemma AlongAxis(b1: Box, b2: Box, d: real)
    requires |b1.corners| == 4 && |b2.corners| == 4
    requires || (Centroid(b1.corners) == Point(0.0, 0.0) && Centroid(b2.corners) == Point(d, 0.0))
             || (Centroid(b1.corners) == Point(d, 0.0) && Centroid(b2.corners) == Point(0.0, 0.0))
    ensures DistSq(Centroid(b1.corners), Centroid(b2.corners)) == Sq(d)
  {
    assert Sq(-d) == Sq(d);
  }

  /** Seen from the origin, the corners of an upright box centred at
      (`cx`, 0) with half-sides `a` and `b` are nearest on its left side and
      farthest on its right side. */
  lemma CornersAlongAxis(cx: real, a: real, b: real)
    requires 0.0 < a < cx
    ensures var pts := [Point(cx - a, b), Point(cx - a, -b), Point(cx + a, -b), Point(cx + a, b)];
      && NearSq(Point(0.0, 0.0), pts) == Sq(cx - a) + Sq(b)
      && FarSq(Point(0.0, 0.0), pts) == Sq(cx + a) + Sq(b)
  {
    var o := Point(0.0, 0.0);
    var pts := [Point(cx - a, b), Point(cx - a, -b), Point(cx + a, -b), Point(cx + a, b)];
    var lo, hi := Sq(cx - a) + Sq(b), Sq(cx + a) + Sq(b);
    SquareStrict(cx - a, cx + a);
    assert DistSq(o, pts[0]) == lo && DistSq(o, pts[1]) == lo;
    assert DistSq(o, pts[2]) == hi && DistSq(o, pts[3]) == hi;
    assert pts[..1] == [pts[0]] && pts[..2][..1] == pts[..1] && pts[..3][..2] == pts[..2] && pts[..4] == pts;
    assert NearSq(o, pts[..1]) == lo && FarSq(o, pts[..1]) == lo;
    assert NearSq(o, pts[..2]) == lo && FarSq(o, pts[..2]) == lo;
    assert NearSq(o, pts[..3]) == lo && FarSq(o, pts[..3]) == hi;
  }
}
