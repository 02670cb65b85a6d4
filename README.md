# Eye detection and sprite overlay of the ar-yukari camera activity

This project models the decision layer of `FdActivity`, the Android camera
activity of ar-yukari. For every camera frame, the activity finds pairs of
eye-shaped contours and pastes a character sprite over each pair. The model
covers:

- **The debug-stage timer** (`updateState`). Seven stages (`Original`, `Blur`,
  `Filter`, `Canny`, `Rect`, `Eye`, `Eyes`) follow one another on a wall-clock
  ladder. The cycle restarts after 240 seconds.
- **The single-eye test** (`isEye`). It checks a box's area and its
  long-to-short ratio against a band of constants. The band is relaxed in
  the `Rect` stage.
- **The pair test** (`isEyes`). It has four checks in order:
  - similar sizes;
  - similar angles;
  - a centroid distance near five times the first box's short side;
  - balanced corner distances.

  The `Eye` and `Rect` stages skip these checks and accept every pair.
- **The per-frame scan** (`drawEyes`). It walks the sibling links of the
  contour hierarchy and keeps the boxes that pass the single-eye test. It then
  clears the previous pairs and collects every ordered pair of distinct
  candidates that passes the pair test, outlining both eyes of each pair.
- **The overlay** (`computeAffineTransform`, `drawYukari`). For each pair, the
  nearest and farthest of its eight corners span a destination triangle for
  the sprite. The sprites are blended over the frame pair after pair.

Modules, in dependency order:

- `Geometry` (`geometry.dfy`): points, oriented boxes and squared distances.
- `Stages` (`stages.dfy`): the stage ladder as a function of elapsed
  milliseconds.
- `EyeShape` (`eye_shape.dfy`): the constants and the single-eye test.
- `EyePairs` (`eye_pairs.dfy`): the pair test.
- `Overlay` (`overlay.dfy`): the corner scan, the triangles and the blending
  fold.
- `Detection` (`detection.dfy`): the candidates and the pairs a frame
  produces, as functions.
- `Activity` (`activity.dfy`): the class `FdActivity` with its fields
  `startTime`, `state` and `eyes`, and the imperative methods, each proved
  against the `Detection` and `Overlay` functions.

Modelling choices:

- **Numbers.** Doubles are `real`. Every `Math.sqrt` comparison is stated on
  squares. This is equivalent because both sides are non-negative
  (`Geometry.SquareMonotone`).
- **The `farDistance / nearDistance > 1.3` test** is stated as
  `far > 1.3 * near`. This agrees with IEEE division when `near` is 0: a
  positive `far` gives infinity and rejects the pair, and `far == 0` gives
  NaN and accepts it.
- **The `debug` flag** is the constant `true`, so `debug && state == X` is
  simply `state == X`.
- **Integer division.** The source divides integers in `23/6` and `17/6`.
  These are 3 and 2, and the model keeps those literal values.
- **Time** is a parameter `now`, in milliseconds.
- **Image operations** are parameters of the model:
  - The contour library's outputs are inputs: a box per contour, with its
    size, its angle and its four corners, and the array of next-sibling
    links.
  - The image operations are function parameters whose insides are not
    modelled: `removeAlpha`, the affine warp, `overlayImage` and the outline
    drawing.

Two behaviours of the code worth knowing:

- **On a reset,** the code sets only `startTime := now` and keeps `state`.
  `Original` is shown from the next call on.
- **The pair test is not symmetric.** Only the first box's short side sets
  the expected distance, and only the second box's corners are measured.
  `EyePairs.NotSymmetric` exhibits two boxes accepted in one order and
  rejected in the other.

## Model

| member | source | states |
|---|---|---|
| Geometry.SquareMonotone | openCVSamplefacedetection/src/main/java/org/opencv/samples/facedetect/FdActivity.java:547-549 | for non-negative numbers, `<` and `<=` hold exactly when they hold of the squares, so the distance tests may be stated on squared distances |
| Stages.StageAtMs | openCVSamplefacedetection/src/main/java/org/opencv/samples/facedetect/FdActivity.java:186-205 | the ladder on elapsed milliseconds resets exactly from 240000 ms on; a chosen stage ends before its window's end and starts no earlier than its window's start; a negative elapsed time shows the original frame |
| Stages.StageWindow | openCVSamplefacedetection/src/main/java/org/opencv/samples/facedetect/FdActivity.java:188-202 | for elapsed time `ms >= 0`, stage `s` is shown if and only if `ms` lies in its half-open window: [0,1500) Original, [1500,3000) Blur, [3000,6000) Filter, [6000,9000) Canny, [9000,12000) Rect, [12000,15000) Eye, [15000,240000) Eyes |
| Stages.StageMonotone | openCVSamplefacedetection/src/main/java/org/opencv/samples/facedetect/FdActivity.java:188-202 | within one cycle a stage is always chosen, and its index never decreases as elapsed time grows |
| Stages.StageFor | openCVSamplefacedetection/src/main/java/org/opencv/samples/facedetect/FdActivity.java:188-205 | the if-chain on elapsed seconds against `step * 0.5` and `step * k` for k = 1..5 and 80, with `None` for the reset branch; its meaning is stated by `StageAtMs`, `StageWindow` and `StageMonotone` |
| EyeShape.IsEye | openCVSamplefacedetection/src/main/java/org/opencv/samples/facedetect/FdActivity.java:453-475 | the area test first and then the long-to-short ratio test, with the bounds of `BandFor`; characterised by `StrictBand` and `RelaxedBand` |
| EyePairs.Centroid | openCVSamplefacedetection/src/main/java/org/opencv/samples/facedetect/FdActivity.java:504-517 | the mean of a box's four corners; `CentroidIsCentre` proves it is the centre of a rectangle |
| EyePairs.NearSq | openCVSamplefacedetection/src/main/java/org/opencv/samples/facedetect/FdActivity.java:520-541 | the least squared corner distance, accumulated in scan order from the first corner; characterised by `NearSqIsLeast` |
| EyePairs.FarSq | openCVSamplefacedetection/src/main/java/org/opencv/samples/facedetect/FdActivity.java:520-541 | the greatest squared corner distance, accumulated in scan order; characterised by `FarSqIsGreatest` |
| EyePairs.SizesAlike | openCVSamplefacedetection/src/main/java/org/opencv/samples/facedetect/FdActivity.java:488-495 | the width and height ratios are at most 1.4 |
| EyePairs.AnglesAlike | openCVSamplefacedetection/src/main/java/org/opencv/samples/facedetect/FdActivity.java:496-501 | the angles differ by at most 3 degrees |
| EyePairs.DistanceFits | openCVSamplefacedetection/src/main/java/org/opencv/samples/facedetect/FdActivity.java:546-551 | the squared centroid distance lies between the squares of 0.7·e and e/0.7, e = 5·min(w1, h1); equivalent to the source's test by `DistanceOnDistance` |
| EyePairs.CornersBalanced | openCVSamplefacedetection/src/main/java/org/opencv/samples/facedetect/FdActivity.java:554-557 | far² is at most 1.3²·near²; equivalent to the source's ratio test by `CornersOnDistances` |
| EyePairs.IsEyes | openCVSamplefacedetection/src/main/java/org/opencv/samples/facedetect/FdActivity.java:483-560 | the debug short-circuit, then the four checks in the source's order; characterised by `IsEyesOnDistances`, `DebugStagesAcceptAll` and `EarlyRejections` |
| Overlay.NearestIndex | openCVSamplefacedetection/src/main/java/org/opencv/samples/facedetect/FdActivity.java:353-378 | the index the `tl` scan ends on (a later corner wins ties); its result is in range, and `NearestIsLastMinimum` characterises it |
| Overlay.FarthestIndex | openCVSamplefacedetection/src/main/java/org/opencv/samples/facedetect/FdActivity.java:353-378 | the index the `br` scan ends on (a later corner wins ties); its result is in range, and `FarthestIsLastMaximum` characterises it |
| Overlay.DestTriangle | openCVSamplefacedetection/src/main/java/org/opencv/samples/facedetect/FdActivity.java:379-386 | the destination triangle from `tl`, `br` and their span; its shape is stated by `TriangleMapsByScaling` |
| Overlay.PairTriangle | openCVSamplefacedetection/src/main/java/org/opencv/samples/facedetect/FdActivity.java:353-386 | the destination triangle of a pair from its last nearest and last farthest corner; `ComputeAffineTransform` is proved to compute it |
| Overlay.Composite | openCVSamplefacedetection/src/main/java/org/opencv/samples/facedetect/FdActivity.java:402-413 | the left fold of the blend over the pairs, each output the next background; `CompositeAppend` splits it over concatenation and `DrawYukari` is proved to compute it |
| Detection.Candidates | openCVSamplefacedetection/src/main/java/org/opencv/samples/facedetect/FdActivity.java:580-588 | the walked boxes that pass the single-eye test, in walk order; characterised by `CandidatesExact` |
| Detection.RowPairs | openCVSamplefacedetection/src/main/java/org/opencv/samples/facedetect/FdActivity.java:595-607 | the accepted index pairs (`i`, `j`) of row `i`, `j` increasing, skipping `j == i`; characterised by `RowPairsSound`, `RowPairsComplete` and `RowPairsOrdered` |
| Detection.GridPairs | openCVSamplefacedetection/src/main/java/org/opencv/samples/facedetect/FdActivity.java:593-609 | the accepted index pairs of all rows, row after row; characterised by `GridPairsSound`, `GridPairsComplete` and `GridPairsOrdered` |
| Detection.PairIndices | openCVSamplefacedetection/src/main/java/org/opencv/samples/facedetect/FdActivity.java:591-609 | the index pairs the scan accepts with the stage's pair test; characterised by `PairIndicesExact` |
| Detection.RowEyes | openCVSamplefacedetection/src/main/java/org/opencv/samples/facedetect/FdActivity.java:595-607 | the box pairs row `i` appends; named by `RowPairs` through `RowEyesNamed` |
| Detection.GridEyes | openCVSamplefacedetection/src/main/java/org/opencv/samples/facedetect/FdActivity.java:593-609 | the box pairs of all rows, the new contents of `eyes`; named by `GridPairs` through `GridEyesNamed` |
| Activity.Outlined | openCVSamplefacedetection/src/main/java/org/opencv/samples/facedetect/FdActivity.java:600-602 | the frame with both eyes of every pair outlined, pair after pair, first eye first; `OutlinedAppend` and `OutlinedConcat` state its steps |
| Activity.FdActivity.constructor | openCVSamplefacedetection/src/main/java/org/opencv/samples/facedetect/FdActivity.java:181-183 | a new activity starts its cycle at `now` in the original stage, with no eye pairs (the `eyes` list is initialised empty at line 572) |
| Activity.FdActivity.UpdateState | openCVSamplefacedetection/src/main/java/org/opencv/samples/facedetect/FdActivity.java:186-206 | within the cycle the state becomes the ladder's stage for the elapsed time and the start time is kept; from 240 s on the start time becomes `now` and the state is left unchanged |
| EyeShape.BandFor | openCVSamplefacedetection/src/main/java/org/opencv/samples/facedetect/FdActivity.java:248-253 | with the integer-divided constants the band is area [200, 4800] and ratio [2.1, 30/7], and in the `Rect` stage area [160, 6000] and ratio [1.68, 75/14] |
| EyeShape.StrictBand | openCVSamplefacedetection/src/main/java/org/opencv/samples/facedetect/FdActivity.java:453-475 | outside `Rect` a box is an eye if and only if both sides are positive, 200 <= w·h <= 4800 and 2.1 <= max/min <= 30/7 |
| EyeShape.RelaxedBand | openCVSamplefacedetection/src/main/java/org/opencv/samples/facedetect/FdActivity.java:459-474 | in `Rect` a box is an eye if and only if both sides are positive, 160 <= w·h <= 6000 and 1.68 <= max/min <= 75/14 |
| EyeShape.AcceptedIsPositive | openCVSamplefacedetection/src/main/java/org/opencv/samples/facedetect/FdActivity.java:467-474 | an accepted box has two positive sides: a zero side fails the area test and two negative sides give a ratio of at most 1 |
| EyeShape.ZeroSideRejected | openCVSamplefacedetection/src/main/java/org/opencv/samples/facedetect/FdActivity.java:467-470 | a box with a zero side is rejected in every stage, by the area test before any division |
| EyeShape.IsEyeSymmetric | openCVSamplefacedetection/src/main/java/org/opencv/samples/facedetect/FdActivity.java:467-474 | swapping width and height does not change the verdict |
| EyeShape.RelaxationWidens | openCVSamplefacedetection/src/main/java/org/opencv/samples/facedetect/FdActivity.java:459-464 | every box accepted in some stage is accepted in the relaxed `Rect` stage |
| EyePairs.NearSqIsLeast | openCVSamplefacedetection/src/main/java/org/opencv/samples/facedetect/FdActivity.java:520-540 | the near distance accumulated over the second box's corners is one of their distances to the first centroid, and no corner is nearer |
| EyePairs.FarSqIsGreatest | openCVSamplefacedetection/src/main/java/org/opencv/samples/facedetect/FdActivity.java:520-540 | the far distance accumulated over the second box's corners is one of their distances to the first centroid, and no corner is farther |
| EyePairs.DebugStagesAcceptAll | openCVSamplefacedetection/src/main/java/org/opencv/samples/facedetect/FdActivity.java:484-486 | in the `Eye` and `Rect` stages every pair of valid boxes is accepted |
| EyePairs.EarlyRejections | openCVSamplefacedetection/src/main/java/org/opencv/samples/facedetect/FdActivity.java:487-501 | outside those stages a width or height ratio above 1.4, or an angle difference above 3, rejects the pair |
| EyePairs.IsEyesOnDistances | openCVSamplefacedetection/src/main/java/org/opencv/samples/facedetect/FdActivity.java:483-560 | on true (square-rooted) distances, a pair is accepted if and only if the stage is `Eye` or `Rect`, or the size ratios are at most 1.4, the angles differ by at most 3, the centroid distance lies in [0.7·e, e/0.7] with e = 5·min(w1, h1), and far <= 1.3·near |
| EyePairs.DistanceOnDistance | openCVSamplefacedetection/src/main/java/org/opencv/samples/facedetect/FdActivity.java:547-551 | the squared distance test agrees with the test on the centroid distance itself |
| EyePairs.CornersOnDistances | openCVSamplefacedetection/src/main/java/org/opencv/samples/facedetect/FdActivity.java:555-557 | the squared corner test agrees with far <= 1.3·near on the distances themselves |
| EyePairs.SizeAndAngleSymmetric | openCVSamplefacedetection/src/main/java/org/opencv/samples/facedetect/FdActivity.java:488-501 | the size and angle checks give the same verdict for either order of the boxes |
| EyePairs.CentroidIsCentre | openCVSamplefacedetection/src/main/java/org/opencv/samples/facedetect/FdActivity.java:504-517 | the mean of a rectangle's four corners is its centre |
| EyePairs.SquaresHundredApart | openCVSamplefacedetection/src/main/java/org/opencv/samples/facedetect/FdActivity.java:483-560 | two upright 20 by 20 boxes with centres 100 apart are accepted as a pair in the last stage |
| EyePairs.HundredApartDistance | openCVSamplefacedetection/src/main/java/org/opencv/samples/facedetect/FdActivity.java:547-551 | those boxes pass the distance check (100 lies in [70, 100/0.7]) |
| EyePairs.HundredApartCorners | openCVSamplefacedetection/src/main/java/org/opencv/samples/facedetect/FdActivity.java:555-557 | those boxes pass the corner check (squared distances 8200 and 12200) |
| EyePairs.SquaresFiftyApart | openCVSamplefacedetection/src/main/java/org/opencv/samples/facedetect/FdActivity.java:547-551 | the same boxes with centres 50 apart are rejected by the distance check |
| EyePairs.NotSymmetric | openCVSamplefacedetection/src/main/java/org/opencv/samples/facedetect/FdActivity.java:548 | a 10 by 30 box and an 8 by 30 box 60 apart are accepted in one order and rejected in the other, because only the first box sets the expected distance |
| EyePairs.SlimFirstAccepted | openCVSamplefacedetection/src/main/java/org/opencv/samples/facedetect/FdActivity.java:483-560 | with the 10 by 30 box first the pair is accepted |
| EyePairs.SlimFirstDistance | openCVSamplefacedetection/src/main/java/org/opencv/samples/facedetect/FdActivity.java:547-551 | with the 10 by 30 box first, 60 lies in [35, 50/0.7] |
| EyePairs.SlimFirstCorners | openCVSamplefacedetection/src/main/java/org/opencv/samples/facedetect/FdActivity.java:555-557 | with the 10 by 30 box first, the corner check passes (squared distances 3361 and 4321) |
| EyePairs.SlimmerFirstRejected | openCVSamplefacedetection/src/main/java/org/opencv/samples/facedetect/FdActivity.java:547-551 | with the 8 by 30 box first the pair is rejected, since 60 exceeds 40/0.7 |
| Overlay.NearestIsLastMinimum | openCVSamplefacedetection/src/main/java/org/opencv/samples/facedetect/FdActivity.java:353-378 | the chosen `tl` has the least norm of all scanned corners, and every corner after it is strictly farther, so it is the last of least norm |
| Overlay.FarthestIsLastMaximum | openCVSamplefacedetection/src/main/java/org/opencv/samples/facedetect/FdActivity.java:353-378 | the chosen `br` has the greatest norm, and every corner after it is strictly nearer, so it is the last of greatest norm |
| Overlay.ExtremesStep | openCVSamplefacedetection/src/main/java/org/opencv/samples/facedetect/FdActivity.java:358-366 | scanning one more corner replaces `tl` exactly when it is at least as near, and `br` exactly when it is at least as far |
| Overlay.ComputeAffineTransform | openCVSamplefacedetection/src/main/java/org/opencv/samples/facedetect/FdActivity.java:340-386 | the source triangle is (0,0), (w,0), (w,h) of the sprite, and the destination triangle is built from the last nearest and last farthest of the eight corners, first box first |
| Overlay.NearestNotBeyondFarthest | openCVSamplefacedetection/src/main/java/org/opencv/samples/facedetect/FdActivity.java:353-378 | `tl` is never farther from the origin than `br` |
| Overlay.TriangleMapsByScaling | openCVSamplefacedetection/src/main/java/org/opencv/samples/facedetect/FdActivity.java:379-386 | the destination triangle has a horizontal top edge and a vertical right edge, is 4.3 spans wide and 6.7 spans tall, and is the image of the source triangle under an axis scaling plus a shift |
| Overlay.CompositeAppend | openCVSamplefacedetection/src/main/java/org/opencv/samples/facedetect/FdActivity.java:402-413 | blending the pairs of a concatenation is blending the second part over the result of the first |
| Activity.FdActivity.DrawYukari | openCVSamplefacedetection/src/main/java/org/opencv/samples/facedetect/FdActivity.java:399-415 | the result is the sprite, warped onto each pair in order, blended over the frame with its alpha removed; with no pairs it is the alpha-removed frame |
| Detection.SiblingWalk | openCVSamplefacedetection/src/main/java/org/opencv/samples/facedetect/FdActivity.java:580 | the walk from a non-negative start begins there, visits only valid indices and takes at most `fuel` steps |
| Detection.WalkFollowsLinks | openCVSamplefacedetection/src/main/java/org/opencv/samples/facedetect/FdActivity.java:580 | each visited index's link is the next visited index, and the last one's link is negative |
| Detection.CandidatesExact | openCVSamplefacedetection/src/main/java/org/opencv/samples/facedetect/FdActivity.java:580-588 | every candidate is a walked box that passes the single-eye test, and every walked box that passes it is a candidate |
| Detection.CandidatesStep | openCVSamplefacedetection/src/main/java/org/opencv/samples/facedetect/FdActivity.java:580-588 | one step of the walk puts the current box, if it passes, before the candidates of the rest of the walk |
| Detection.CandidatesValid | openCVSamplefacedetection/src/main/java/org/opencv/samples/facedetect/FdActivity.java:585-587 | every candidate has four corners and positive sides, so the pair test is defined on it |
| Detection.RowPairsSound | openCVSamplefacedetection/src/main/java/org/opencv/samples/facedetect/FdActivity.java:595-607 | row `i` holds only accepted pairs (`i`, `j`) with `j` distinct from `i` |
| Detection.RowPairsComplete | openCVSamplefacedetection/src/main/java/org/opencv/samples/facedetect/FdActivity.java:595-607 | row `i` holds every accepted pair (`i`, `j`) with `j` distinct from `i`, at the returned position |
| Detection.RowPairsOrdered | openCVSamplefacedetection/src/main/java/org/opencv/samples/facedetect/FdActivity.java:595-607 | row `i` lists `j` strictly increasing |
| Detection.GridPairsSound | openCVSamplefacedetection/src/main/java/org/opencv/samples/facedetect/FdActivity.java:593-609 | the rows hold only accepted pairs of distinct indices in range |
| Detection.GridPairsKeepsPrefix | openCVSamplefacedetection/src/main/java/org/opencv/samples/facedetect/FdActivity.java:593-609 | the pairs of the earlier rows keep their positions when a row is added |
| Detection.GridPairsEndsWithRow | openCVSamplefacedetection/src/main/java/org/opencv/samples/facedetect/FdActivity.java:593-609 | the pairs of a new row follow those of the earlier rows |
| Detection.GridPairsComplete | openCVSamplefacedetection/src/main/java/org/opencv/samples/facedetect/FdActivity.java:593-609 | the rows hold every accepted pair of distinct indices, at the returned position |
| Detection.GridPairsOrdered | openCVSamplefacedetection/src/main/java/org/opencv/samples/facedetect/FdActivity.java:593-609 | the pairs come in strictly increasing lexicographic order, so none appears twice |
| Detection.PairIndicesExact | openCVSamplefacedetection/src/main/java/org/opencv/samples/facedetect/FdActivity.java:591-609 | the scan yields exactly the ordered pairs (`i`, `j`) of distinct candidates that the pair test accepts, each once, in lexicographic order |
| Detection.NamesConcat | openCVSamplefacedetection/src/main/java/org/opencv/samples/facedetect/FdActivity.java:603-606 | naming index pairs by box pairs is preserved by concatenation |
| Detection.RowEyesNamed | openCVSamplefacedetection/src/main/java/org/opencv/samples/facedetect/FdActivity.java:595-607 | the box pairs of row `i` are, position by position, the candidates at the index pairs of row `i` |
| Detection.GridEyesNamed | openCVSamplefacedetection/src/main/java/org/opencv/samples/facedetect/FdActivity.java:593-609 | the box pairs of all rows are the candidates at the index pairs of all rows |
| Detection.PairsOfValid | openCVSamplefacedetection/src/main/java/org/opencv/samples/facedetect/FdActivity.java:593-609 | pairs found among valid candidates consist of valid boxes |
| Activity.OutlinedAppend | openCVSamplefacedetection/src/main/java/org/opencv/samples/facedetect/FdActivity.java:600-602 | outlining one more pair draws its first eye and then its second over the previous result |
| Activity.OutlinedConcat | openCVSamplefacedetection/src/main/java/org/opencv/samples/facedetect/FdActivity.java:593-609 | outlining a concatenation outlines the second part over the result of the first |
| Activity.FdActivity.CollectCandidates | openCVSamplefacedetection/src/main/java/org/opencv/samples/facedetect/FdActivity.java:578-589 | the collected boxes are exactly the candidates of the sibling walk from contour 0 in the current stage, in walk order, and none when there are no contours |
| Activity.FdActivity.ScanRow | openCVSamplefacedetection/src/main/java/org/opencv/samples/facedetect/FdActivity.java:594-608 | row `i` appends its accepted pairs in order of `j` and outlines both eyes of each |
| Activity.FdActivity.PairCandidates | openCVSamplefacedetection/src/main/java/org/opencv/samples/facedetect/FdActivity.java:591-609 | the previous pairs are discarded, and the new pairs are the accepted pairs of all rows, row after row, each outlined on the frame |
| Activity.FdActivity.DrawEyes | openCVSamplefacedetection/src/main/java/org/opencv/samples/facedetect/FdActivity.java:574-614 | the candidates are the walk's boxes that pass the single-eye test; the pairs are exactly the candidate pairs named by `PairIndices`; the frame is outlined, and in the `Eyes` stage the sprite is composited over it |

## Left out

- **The Android lifecycle, the loader callback, the menu and the cascade-file
  copy** are not modelled. These are platform glue and file I/O.
- **The OpenCV image operations** are not modelled: the blur, the Otsu
  threshold, Canny, `findContours`, `minAreaRect`, `RotatedRect.points`,
  `getAffineTransform` and `warpAffine`. Their numerics cannot be seen.
  - The contour boxes, their corners and the hierarchy links are inputs.
  - The warp is an abstract function of the two triangles. The triangles
    themselves are modelled.
- **The warp canvas** has the frame's size in the source. The model does not
  carry image sizes: the abstract warp decides its own output. In the source
  that canvas is allocated without being initialised, and the transparent
  border mode leaves every pixel outside the warped sprite untouched. So what
  is blended outside the sprite is whatever that memory held, not a function
  of the two triangles as the model's deterministic `warp` makes it.
- **`overlayImage` and `removeAlpha`** are abstract functions of `Compositor`.
  Their per-pixel 8-bit arithmetic is not modelled.
- **`drawEye` / `drawContours`** are an abstract `outline` function.
  `drawRect`, `putText` and `Log.d` are not modelled: they are rendering and
  logging side effects.
- **`onCameraFrame` and the per-stage image pipeline** are not modelled. They
  only choose which intermediate image to show.
- **In-place mutation of `Mat` frames** is not modelled. `drawEye` and
  `drawYukari` are modelled on values: each outlined frame is returned as a
  new value, and aliasing of the caller's `Mat` is not captured.
- **IEEE double rounding** is not modelled: arithmetic is exact over `real`.
  The ladder's boundaries (1.5, 3, 6, … seconds) are exactly representable,
  so dividing whole milliseconds by 1000.0 compares the same way.
- **Division by zero in the pair test** is not reached, because only accepted
  boxes are paired, and those have positive sides
  (`EyeShape.AcceptedIsPositive`).
- **`System.currentTimeMillis`** is not modelled: the current time is the
  parameter `now`.
- **The clock difference** is 64-bit in the source. The model uses unbounded
  integers, since a 64-bit overflow of a millisecond difference does not
  occur in practice.
- **Activity.FdActivity.DrawEyes** requires that the sibling walk from
  contour 0 ends within as many steps as there are contours. The contour
  library guarantees this well-formedness of the hierarchy, and the source
  relies on it for termination.
- **Activity.FdActivity.DrawEyes** takes `this.state` as it is when the scan
  starts, as the source does. Calling `updateState` before the scan is left
  to the caller.
