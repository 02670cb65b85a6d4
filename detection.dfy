/** What one frame's detection produces, as functions of its inputs: the
    candidates found on the sibling walk of the contour hierarchy, and the
    ordered pairs of candidates that pass the pair test. */
module Detection {
  import opened Geometry
  import opened Stages
  import opened EyeShape
  import opened EyePairs

  /** The walk that starts at `i` and follows next-sibling links reaches a
      negative link within `fuel` steps, visiting only valid indices. With
      `fuel` the number of contours this says exactly that the walk ends:
      a walk that ends visits each index at most once. */
  predicate WalkEnds(links: seq<int>, i: int, fuel: nat)
    decreases fuel
  {
    i < 0 || (i < |links| && fuel > 0 && WalkEnds(links, links[i], fuel - 1))
  }

  /** The indices visited by the sibling walk from `i`, in order. */
  function SiblingWalk(links: seq<int>, i: int, fuel: nat): (walk: seq<nat>)
    requires WalkEnds(links, i, fuel)
    ensures |walk| <= fuel
    ensures forall k :: 0 <= k < |walk| ==> walk[k] < |links|
    ensures i >= 0 ==> |walk| > 0 && walk[0] == i
    decreases fuel
  {
    if i < 0 then [] else [i] + SiblingWalk(links, links[i], fuel - 1)
  }

  /** The walk follows the links: each visited index's link is the next
      one visited, and the last one's link is negative. */
  lemma {:induction false} WalkFollowsLinks(links: seq<int>, i: int, fuel: nat)
    requires WalkEnds(links, i, fuel)
    ensures var walk := SiblingWalk(links, i, fuel);
      |walk| > 0 ==> links[walk[|walk| - 1]] < 0
    ensures forall k :: 0 <= k < |SiblingWalk(links, i, fuel)| - 1 ==>
      links[SiblingWalk(links, i, fuel)[k]] == SiblingWalk(links, i, fuel)[k + 1]
    decreases fuel
  {
    if i >= 0 {
      WalkFollowsLinks(links, links[i], fuel - 1);
      var rest := SiblingWalk(links, links[i], fuel - 1);
      var walk := SiblingWalk(links, i, fuel);
      assert walk == [i] + rest;
      forall k | 0 <= k < |walk| - 1
        ensures links[walk[k]] == walk[k + 1]
      {
        if k > 0 {
          assert walk[k] == rest[k - 1] && walk[k + 1] == rest[k];
        }
      }
    }
  }

  /** The boxes at the walked indices that pass the single-eye test, in
      walk order. */
  function Candidates(boxes: seq<Box>, walk: seq<nat>, stage: Stage): seq<Box>
    requires forall k :: 0 <= k < |walk| ==> walk[k] < |boxes|
  {
    if walk == [] then []
    else
      var b := boxes[walk[0]];
      (if IsEye(b.width, b.height, stage) then [b] else []) + Candidates(boxes, walk[1..], stage)
  }

  /** Every candidate is a walked box that passes the single-eye test, and
      every walked box that passes it is a candidate. */
  lemma {:induction false} CandidatesExact(boxes: seq<Box>, walk: seq<nat>, stage: Stage)
    requires forall k :: 0 <= k < |walk| ==> walk[k] < |boxes|
    ensures forall b :: b in Candidates(boxes, walk, stage) ==>
      IsEye(b.width, b.height, stage) && exists k :: 0 <= k < |walk| && b == boxes[walk[k]]
    ensures forall k :: 0 <= k < |walk| && IsEye(boxes[walk[k]].width, boxes[walk[k]].height, stage) ==>
      boxes[walk[k]] in Candidates(boxes, walk, stage)
  {
    if walk != [] {
      var rest := walk[1..];
      CandidatesExact(boxes, rest, stage);
      forall b | b in Candidates(boxes, rest, stage)
        ensures exists k :: 0 <= k < |walk| && b == boxes[walk[k]]
      {
        var k :| 0 <= k < |rest| && b == boxes[rest[k]];
        assert b == boxes[walk[k + 1]];
      }
      forall k | 1 <= k < |walk| && IsEye(boxes[walk[k]].width, boxes[walk[k]].height, stage)
        ensures boxes[walk[k]] in Candidates(boxes, walk, stage)
      {
        assert walk[k] == rest[k - 1];
      }
    }
  }

  /** One step of the walk: the box at `i`, if it passes, comes before the
      candidates of the rest of the walk. */
  lemma CandidatesStep(boxes: seq<Box>, links: seq<int>, i: int, fuel: nat, stage: Stage)
    requires 0 <= i && WalkEnds(links, i, fuel) && |links| == |boxes|
    ensures Candidates(boxes, SiblingWalk(links, i, fuel), stage) ==
      (if IsEye(boxes[i].width, boxes[i].height, stage) then [boxes[i]] else [])
      + Candidates(boxes, SiblingWalk(links, links[i], fuel - 1), stage)
  {
    assert SiblingWalk(links, i, fuel)[1..] == SiblingWalk(links, links[i], fuel - 1);
  }

  /** Candidates can be paired: they have four corners (when every box has)
      and, having passed the single-eye test, a positive size. */
  lemma CandidatesValid(boxes: seq<Box>, walk: seq<nat>, stage: Stage)
    requires forall k :: 0 <= k < |walk| ==> walk[k] < |boxes|
    requires forall k :: 0 <= k < |boxes| ==> |boxes[k].corners| == 4
    ensures AllValid(Candidates(boxes, walk, stage))
  {
    var cands := Candidates(boxes, walk, stage);
    CandidatesExact(boxes, walk, stage);
    forall k | 0 <= k < |cands| ensures ValidBox(cands[k]) {
      AcceptedIsPositive(cands[k].width, cands[k].height, stage);
    }
  }

  predicate AllValid(cands: seq<Box>) {
    forall k :: 0 <= k < |cands| ==> ValidBox(cands[k])
  }

  /** The accepted pairs (`i`, `j`) of row `i`, for `j` below `m`, `j`
      increasing. */
  function RowPairs(cands: seq<Box>, accept: (Box, Box) -> bool, i: nat, m: nat): seq<(nat, nat)>
    requires i < |cands| && m <= |cands|
  {
    if m == 0 then []
    else
      RowPairs(cands, accept, i, m - 1)
      + (if m - 1 != i && accept(cands[i], cands[m - 1]) then [(i, m - 1)] else [])
  }

  /** The accepted pairs of the rows below `m`, row after row. */
  function GridPairs(cands: seq<Box>, accept: (Box, Box) -> bool, m: nat): seq<(nat, nat)>
    requires m <= |cands|
  {
    if m == 0 then [] else GridPairs(cands, accept, m - 1) + RowPairs(cands, accept, m - 1, |cands|)
  }

  /** The pair test as a total function on boxes: it holds exactly of two
      valid boxes that the pair test accepts in `stage`. */
  function PairTest(stage: Stage): (Box, Box) -> bool {
    (b1: Box, b2: Box) => ValidBox(b1) && ValidBox(b2) && IsEyes(b1, b2, stage)
  }

  /** The ordered index pairs the pairing scan accepts. */
  function PairIndices(cands: seq<Box>, stage: Stage): seq<(nat, nat)> {
    GridPairs(cands, PairTest(stage), |cands|)
  }

  /** The accepted pairs of boxes of row `i`, for `j` below `m`: what the
      inner scan appends. */
  function RowEyes(cands: seq<Box>, accept: (Box, Box) -> bool, i: nat, m: nat): seq<EyePair>
    requires i < |cands| && m <= |cands|
  {
    if m == 0 then []
    else
      RowEyes(cands, accept, i, m - 1)
      + (if m - 1 != i && accept(cands[i], cands[m - 1]) then [EyePair(cands[i], cands[m - 1])] else [])
  }

  /** The accepted pairs of boxes of the rows below `m`, row after row. */
  function GridEyes(cands: seq<Box>, accept: (Box, Box) -> bool, m: nat): seq<EyePair>
    requires m <= |cands|
  {
    if m == 0 then [] else GridEyes(cands, accept, m - 1) + RowEyes(cands, accept, m - 1, |cands|)
  }

  /** `pairs` are, position by position, the pairs of candidates that the
      index pairs `idx` name. */
  predicate Names(cands: seq<Box>, idx: seq<(nat, nat)>, pairs: seq<EyePair>) {
    && |pairs| == |idx|
    && forall k :: 0 <= k < |idx| ==>
         idx[k].0 < |cands| && idx[k].1 < |cands| && pairs[k] == EyePair(cands[idx[k].0], cands[idx[k].1])
  }

  lemma NamesConcat(cands: seq<Box>, xs: seq<(nat, nat)>, ps: seq<EyePair>, ys: seq<(nat, nat)>, qs: seq<EyePair>)
    requires Names(cands, xs, ps) && Names(cands, ys, qs)
    ensures Names(cands, xs + ys, ps + qs)
  {
    forall k | |xs| <= k < |xs + ys|
      ensures (xs + ys)[k] == ys[k - |xs|] && (ps + qs)[k] == qs[k - |xs|]
    {
    }
  }

  /** Row `i` of box pairs is named by row `i` of index pairs. */
  lemma {:induction false} RowEyesNamed(cands: seq<Box>, accept: (Box, Box) -> bool, i: nat, m: nat)
    requires i < |cands| && m <= |cands|
    ensures Names(cands, RowPairs(cands, accept, i, m), RowEyes(cands, accept, i, m))
  {
    if m > 0 {
      RowEyesNamed(cands, accept, i, m - 1);
      var prev, prevEyes := RowPairs(cands, accept, i, m - 1), RowEyes(cands, accept, i, m - 1);
      if m - 1 != i && accept(cands[i], cands[m - 1]) {
        NamesConcat(cands, prev, prevEyes, [(i, m - 1)], [EyePair(cands[i], cands[m - 1])]);
      } else {
        assert RowPairs(cands, accept, i, m) == prev && RowEyes(cands, accept, i, m) == prevEyes;
      }
    }
  }

  /** The rows of box pairs are named by the rows of index pairs. */
  lemma {:induction false} GridEyesNamed(cands: seq<Box>, accept: (Box, Box) -> bool, m: nat)
    requires m <= |cands|
    ensures Names(cands, GridPairs(cands, accept, m), GridEyes(cands, accept, m))
  {
    if m > 0 {
      GridEyesNamed(cands, accept, m - 1);
      RowEyesNamed(cands, accept, m - 1, |cands|);
      NamesConcat(cands, GridPairs(cands, accept, m - 1), GridEyes(cands, accept, m - 1),
                  RowPairs(cands, accept, m - 1, |cands|), RowEyes(cands, accept, m - 1, |cands|));
    }
  }

  predicate PairsValid(pairs: seq<EyePair>) {
    forall k :: 0 <= k < |pairs| ==> ValidBox(pairs[k].first) && ValidBox(pairs[k].second)
  }

  /** The pairs found among valid candidates are made of valid boxes. */
  lemma PairsOfValid(cands: seq<Box>, stage: Stage)
    requires AllValid(cands)
    ensures PairsValid(GridEyes(cands, PairTest(stage), |cands|))
  {
    GridEyesNamed(cands, PairTest(stage), |cands|);
  }

  /** Lexicographic order on index pairs. */
  predicate LexLess(p: (nat, nat), q: (nat, nat)) {
    p.0 < q.0 || (p.0 == q.0 && p.1 < q.1)
  }

  /** Row `i` holds only accepted (`i`, `j`) with `j` below `m` and
      distinct from `i`. */
  lemma {:induction false} RowPairsSound(cands: seq<Box>, accept: (Box, Box) -> bool, i: nat, m: nat)
    requires i < |cands| && m <= |cands|
    ensures forall k :: 0 <= k < |RowPairs(cands, accept, i, m)| ==>
      var p := RowPairs(cands, accept, i, m)[k];
      p.0 == i && p.1 < m && p.1 != i && accept(cands[i], cands[p.1])
  {
    if m > 0 {
      RowPairsSound(cands, accept, i, m - 1);
      var prev := RowPairs(cands, accept, i, m - 1);
      var row := RowPairs(cands, accept, i, m);
      forall k | 0 <= k < |row|
        ensures row[k].0 == i && row[k].1 < m && row[k].1 != i
        ensures accept(cands[i], cands[row[k].1])
      {
        if k < |prev| {
          assert row[k] == prev[k];
        } else {
          assert row[k] == (i, m - 1);
        }
      }
    }
  }

  /** Row `i` holds every accepted (`i`, `j`) with `j` below `m` and
      distinct from `i`; `k` is its position. */
  lemma {:induction false} RowPairsComplete(cands: seq<Box>, accept: (Box, Box) -> bool, i: nat, j: nat, m: nat)
    returns (k: nat)
    requires i < |cands| && j < m <= |cands| && j != i && accept(cands[i], cands[j])
    ensures k < |RowPairs(cands, accept, i, m)| && RowPairs(cands, accept, i, m)[k] == (i, j)
  {
    var prev := RowPairs(cands, accept, i, m - 1);
    if j < m - 1 {
      k := RowPairsComplete(cands, accept, i, j, m - 1);
      assert RowPairs(cands, accept, i, m)[k] == prev[k];
    } else {
      assert RowPairs(cands, accept, i, m) == prev + [(i, j)];
      k := |prev|;
    }
  }

  /** Row `i` comes with `j` strictly increasing. */
  lemma {:induction false} RowPairsOrdered(cands: seq<Box>, accept: (Box, Box) -> bool, i: nat, m: nat)
    requires i < |cands| && m <= |cands|
    ensures forall k1, k2 :: 0 <= k1 < k2 < |RowPairs(cands, accept, i, m)| ==>
      RowPairs(cands, accept, i, m)[k1].1 < RowPairs(cands, accept, i, m)[k2].1
  {
    if m > 0 {
      RowPairsOrdered(cands, accept, i, m - 1);
      RowPairsSound(cands, accept, i, m - 1);
      var prev := RowPairs(cands, accept, i, m - 1);
      var row := RowPairs(cands, accept, i, m);
      forall k1, k2 | 0 <= k1 < k2 < |row|
        ensures row[k1].1 < row[k2].1
      {
        assert row[k1] == prev[k1];
        if k2 < |prev| {
          assert row[k2] == prev[k2];
        } else {
          assert row[k2] == (i, m - 1);
        }
      }
    }
  }

  /** The rows below `m` hold only accepted (`i`, `j`) with `i` below `m`
      and `i` distinct from `j`. */
  lemma {:induction false} GridPairsSound(cands: seq<Box>, accept: (Box, Box) -> bool, m: nat)
    requires m <= |cands|
    ensures forall k :: 0 <= k < |GridPairs(cands, accept, m)| ==>
      var p := GridPairs(cands, accept, m)[k];
      p.0 < m && p.1 < |cands| && p.0 != p.1 && accept(cands[p.0], cands[p.1])
  {
    if m > 0 {
      GridPairsSound(cands, accept, m - 1);
      RowPairsSound(cands, accept, m - 1, |cands|);
      var prev := GridPairs(cands, accept, m - 1);
      var row := RowPairs(cands, accept, m - 1, |cands|);
      var grid := GridPairs(cands, accept, m);
      forall k | 0 <= k < |grid|
        ensures grid[k].0 < m && grid[k].1 < |cands| && grid[k].0 != grid[k].1
        ensures accept(cands[grid[k].0], cands[grid[k].1])
      {
        if k < |prev| {
          assert grid[k] == prev[k];
        } else {
          assert grid[k] == row[k - |prev|];
        }
      }
    }
  }

  /** The rows below `m - 1` are a prefix of the rows below `m`. */
  lemma GridPairsKeepsPrefix(cands: seq<Box>, accept: (Box, Box) -> bool, m: nat, k: nat)
    requires 0 < m <= |cands| && k < |GridPairs(cands, accept, m - 1)|
    ensures k < |GridPairs(cands, accept, m)|
    ensures GridPairs(cands, accept, m)[k] == GridPairs(cands, accept, m - 1)[k]
  {
  }

  /** Row `m - 1` follows the rows below it. */
  lemma GridPairsEndsWithRow(cands: seq<Box>, accept: (Box, Box) -> bool, m: nat, r: nat)
    requires 0 < m <= |cands| && r < |RowPairs(cands, accept, m - 1, |cands|)|
    ensures |GridPairs(cands, accept, m - 1)| + r < |GridPairs(cands, accept, m)|
    ensures GridPairs(cands, accept, m)[|GridPairs(cands, accept, m - 1)| + r]
            == RowPairs(cands, accept, m - 1, |cands|)[r]
  {
  }

  /** The rows below `m` hold every accepted (`i`, `j`) with `i` below `m`
      and `i` distinct from `j`; `k` is its position. */
  lemma {:induction false} GridPairsComplete(cands: seq<Box>, accept: (Box, Box) -> bool, i: nat, j: nat, m: nat)
    returns (k: nat)
    requires i < m <= |cands| && j < |cands| && i != j && accept(cands[i], cands[j])
    ensures k < |GridPairs(cands, accept, m)| && GridPairs(cands, accept, m)[k] == (i, j)
  {
    if i < m - 1 {
      k := GridPairsComplete(cands, accept, i, j, m - 1);
      GridPairsKeepsPrefix(cands, accept, m, k);
    } else {
      var r := RowPairsComplete(cands, accept, i, j, |cands|);
      GridPairsEndsWithRow(cands, accept, m, r);
      k := |GridPairs(cands, accept, m - 1)| + r;
    }
  }

  /** The rows below `m` come in strictly increasing lexicographic order,
      so no pair appears twice. */
  lemma {:induction false} GridPairsOrdered(cands: seq<Box>, accept: (Box, Box) -> bool, m: nat)
    requires m <= |cands|
    ensures forall k1, k2 :: 0 <= k1 < k2 < |GridPairs(cands, accept, m)| ==>
      LexLess(GridPairs(cands, accept, m)[k1], GridPairs(cands, accept, m)[k2])
  {
    if m > 0 {
      GridPairsOrdered(cands, accept, m - 1);
      GridPairsSound(cands, accept, m - 1);
      RowPairsSound(cands, accept, m - 1, |cands|);
      RowPairsOrdered(cands, accept, m - 1, |cands|);
      var prev := GridPairs(cands, accept, m - 1);
      var row := RowPairs(cands, accept, m - 1, |cands|);
      var grid := GridPairs(cands, accept, m);
      forall k1, k2 | 0 <= k1 < k2 < |grid|
        ensures LexLess(grid[k1], grid[k2])
      {
        if k2 < |prev| {
          assert grid[k1] == prev[k1] && grid[k2] == prev[k2];
        } else if k1 < |prev| {
          assert grid[k1] == prev[k1] && grid[k2] == row[k2 - |prev|];
          assert grid[k1].0 < m - 1 && grid[k2].0 == m - 1;
        } else {
          assert grid[k1] == row[k1 - |prev|] && grid[k2] == row[k2 - |prev|];
        }
      }
    }
  }

  /** The pairing scan's result: every accepted ordered pair of distinct
      candidates, once each, in lexicographic order of their positions. */
  lemma PairIndicesExact(cands: seq<Box>, stage: Stage)
    requires AllValid(cands)
    ensures forall k :: 0 <= k < |PairIndices(cands, stage)| ==>
      var p := PairIndices(cands, stage)[k];
      p.0 < |cands| && p.1 < |cands| && p.0 != p.1 && IsEyes(cands[p.0], cands[p.1], stage)
    ensures forall i, j ::
      0 <= i < |cands| && 0 <= j < |cands| && i != j && IsEyes(cands[i], cands[j], stage) ==>
        (i, j) in PairIndices(cands, stage)
    ensures forall k1, k2 :: 0 <= k1 < k2 < |PairIndices(cands, stage)| ==>
      LexLess(PairIndices(cands, stage)[k1], PairIndices(cands, stage)[k2])
  {
    var accept := PairTest(stage);
    GridPairsSound(cands, accept, |cands|);
    forall i, j | 0 <= i < |cands| && 0 <= j < |cands| && i != j && IsEyes(cands[i], cands[j], stage)
      ensures (i, j) in PairIndices(cands, stage)
    {
      var k := GridPairsComplete(cands, accept, i, j, |cands|);
    }
    GridPairsOrdered(cands, accept, |cands|);
  }
}
