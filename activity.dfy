/** The activity's per-frame state: the stage timer, the single-eye and
    pair scans over one frame's contours, and the sprite compositing over
    the pairs found. */
module Activity {
  import opened Geometry
  import opened Stages
  import opened EyeShape
  import opened EyePairs
  import opened Overlay
  import opened Detection

  /** The frame with each pair's two eye outlines drawn on it, pair after
      pair, first eye then second. */
  function Outlined<Img>(outline: (Img, Box) -> Img, frame: Img, pairs: seq<EyePair>): Img {
    if pairs == [] then frame
    else
      var last := pairs[|pairs| - 1];
      outline(outline(Outlined(outline, frame, pairs[..|pairs| - 1]), last.first), last.second)
  }

  /** Outlining one more pair draws its two eyes over the previous
      result. */
  lemma OutlinedAppend<Img>(outline: (Img, Box) -> Img, frame: Img, ps: seq<EyePair>, p: EyePair)
    ensures Outlined(outline, frame, ps + [p]) == outline(outline(Outlined(outline, frame, ps), p.first), p.second)
  {
    assert (ps + [p])[..|ps|] == ps;
  }

  /** Outlining a concatenation outlines the second part over the first's
      result. */
  lemma {:induction false} OutlinedConcat<Img>(outline: (Img, Box) -> Img, frame: Img, ps: seq<EyePair>, qs: seq<EyePair>)
    ensures Outlined(outline, frame, ps + qs) == Outlined(outline, Outlined(outline, frame, ps), qs)
  {
    if qs == [] {
      assert ps + qs == ps;
    } else {
      var init := qs[..|qs| - 1];
      OutlinedConcat(outline, frame, ps, init);
      assert (ps + qs)[..|ps + qs| - 1] == ps + init;
    }
  }

  class FdActivity {
    /** Milliseconds on the clock at which the current stage cycle began. */
    var startTime: int
    var state: Stage
    /** The eye pairs found on the latest frame. */
    var eyes: seq<EyePair>

    ghost predicate Valid()
      reads this
    {
      PairsValid(eyes)
    }

    /** A new activity starts its cycle at `now`, showing the original
        frame, with no pairs. */
    constructor(now: int)
      ensures startTime == now && state == Original && eyes == []
      ensures Valid()
    {
      startTime := now;
      state := Original;
      eyes := [];
    }

    /** Advances the stage from the time elapsed since the cycle began;
        once the cycle is over, restarts it at `now` and keeps the stage. */
    method UpdateState(now: int)
      modifies this`startTime, this`state
      ensures StageAtMs(now - old(startTime)).Some? ==>
        state == StageAtMs(now - old(startTime)).value && startTime == old(startTime)
      ensures StageAtMs(now - old(startTime)).None? ==>
        startTime == now && state == old(state)
      ensures now - old(startTime) < CycleMs ==> StageAtMs(now - old(startTime)).Some?
      ensures now - old(startTime) >= CycleMs ==> startTime == now && state == old(state)
    {
      var duration := (now - startTime) as real / 1000.0;
      if duration < Step as real * 0.5 {
        state := Original;
      } else if duration < (Step * 1) as real {
        state := Blur;
      } else if duration < (Step * 2) as real {
        state := Filter;
      } else if duration < (Step * 3) as real {
        state := Canny;
      } else if duration < (Step * 4) as real {
        state := Rect;
      } else if duration < (Step * 5) as real {
        state := Eye;
      } else if duration < (Step * 80) as real {
        state := Eyes;
      } else {
        startTime := now;
      }
    }

    /** Collects the candidates on the sibling walk of the contour
        hierarchy (`links[k]` is contour `k`'s next sibling, negative at the
        end; `boxes[k]` its minimum-area rectangle), replaces the pairs with
        every accepted ordered pair of distinct candidates, outlines them on
        the frame and, in the last stage, composites the sprite over them. */
    method DrawEyes<Img>(links: array<int>, boxes: seq<Box>, frame: Img,
                         outline: (Img, Box) -> Img, comp: Compositor<Img>)
      returns (candidates: seq<Box>, out: Img)
      requires links.Length == |boxes|
      requires forall k :: 0 <= k < |boxes| ==> |boxes[k].corners| == 4
      requires links.Length > 0 ==> WalkEnds(links[..], 0, links.Length)
      modifies this`eyes
      ensures Valid()
      ensures candidates ==
        Candidates(boxes, if links.Length > 0 then SiblingWalk(links[..], 0, links.Length) else [], state)
      ensures AllValid(candidates)
      ensures eyes == GridEyes(candidates, PairTest(state), |candidates|)
      ensures Names(candidates, PairIndices(candidates, state), eyes)
      ensures out == if state == Eyes
        then Composite(comp, comp.removeAlpha(Outlined(outline, frame, eyes)), eyes)
        else Outlined(outline, frame, eyes)
    {
      candidates := CollectCandidates(links, boxes);
      CandidatesValid(boxes, if links.Length > 0 then SiblingWalk(links[..], 0, links.Length) else [], state);
      out := PairCandidates(candidates, PairTest(state), frame, outline);
      GridEyesNamed(candidates, PairTest(state), |candidates|);
      PairsOfValid(candidates, state);
      if state == Eyes {
        out := DrawYukari(out, comp);
      }
    }

    /** The boxes on the sibling walk from contour 0 that pass the
        single-eye test in the current stage, in walk order. */
    method CollectCandidates(links: array<int>, boxes: seq<Box>) returns (candidates: seq<Box>)
      requires links.Length == |boxes|
      requires forall k :: 0 <= k < |boxes| ==> |boxes[k].corners| == 4
      requires links.Length > 0 ==> WalkEnds(links[..], 0, links.Length)
      ensures candidates ==
        Candidates(boxes, if links.Length > 0 then SiblingWalk(links[..], 0, links.Length) else [], state)
    {
      ghost var ls := links[..];
      ghost var walk: seq<nat> := [];
      candidates := [];
      if links.Length > 0 {
        walk := SiblingWalk(ls, 0, links.Length);
        var idx := 0;
        ghost var fuel: nat := links.Length;
        while idx >= 0
          invariant WalkEnds(ls, idx, fuel)
          invariant candidates + Candidates(boxes, SiblingWalk(ls, idx, fuel), state) == Candidates(boxes, walk, state)
          decreases fuel
        {
          var bbox := boxes[idx];
          CandidatesStep(boxes, ls, idx, fuel, state);
          if IsEye(bbox.width, bbox.height, state) {
            candidates := candidates + [bbox];
          }
          idx, fuel := links[idx], fuel - 1;
        }
      }
    }

    /** Replaces the pairs with every accepted ordered pair of distinct
        candidates, row by row, and outlines both eyes of each on the
        frame. */
    method PairCandidates<Img>(candidates: seq<Box>, accept: (Box, Box) -> bool, frame: Img,
                               outline: (Img, Box) -> Img)
      returns (out: Img)
      modifies this`eyes
      ensures eyes == GridEyes(candidates, accept, |candidates|)
      ensures out == Outlined(outline, frame, eyes)
    {
      out := frame;
      eyes := [];
      var len := |candidates|;
      var i := 0;
      while i < len
        invariant 0 <= i <= len
        invariant eyes == GridEyes(candidates, accept, i)
        invariant out == Outlined(outline, frame, eyes)
      {
        ghost var before := eyes;
        out := ScanRow(candidates, accept, i, out, outline);
        OutlinedConcat(outline, frame, before, RowEyes(candidates, accept, i, len));
        i := i + 1;
      }
    }

    /** Appends the accepted pairs (`i`, `j`) of row `i`, `j` increasing,
        to the pairs, and outlines both eyes of each on `canvas`. */
    method ScanRow<Img>(candidates: seq<Box>, accept: (Box, Box) -> bool, i: nat, canvas: Img,
                        outline: (Img, Box) -> Img)
      returns (out: Img)
      requires i < |candidates|
      modifies this`eyes
      ensures eyes == old(eyes) + RowEyes(candidates, accept, i, |candidates|)
      ensures out == Outlined(outline, canvas, RowEyes(candidates, accept, i, |candidates|))
    {
      ghost var start := eyes;
      out := canvas;
      var rr1 := candidates[i];
      var len := |candidates|;
      var j := 0;
      while j < len
        invariant 0 <= j <= len
        invariant eyes == start + RowEyes(candidates, accept, i, j)
        invariant out == Outlined(outline, canvas, RowEyes(candidates, accept, i, j))
      {
        if j != i {
          var rr2 := candidates[j];
          if accept(rr1, rr2) {
            assert RowEyes(candidates, accept, i, j + 1) == RowEyes(candidates, accept, i, j) + [EyePair(rr1, rr2)];
            OutlinedAppend(outline, canvas, RowEyes(candidates, accept, i, j), EyePair(rr1, rr2));
            out := outline(outline(out, rr1), rr2);
            eyes := eyes + [EyePair(rr1, rr2)];
          } else {
            assert RowEyes(candidates, accept, i, j + 1) == RowEyes(candidates, accept, i, j);
          }
        } else {
          assert RowEyes(candidates, accept, i, j + 1) == RowEyes(candidates, accept, i, j);
        }
        j := j + 1;
      }
    }

    /** Composites the sprite over every pair, in order, on the frame with
        its alpha channel removed. */
    method DrawYukari<Img>(frame: Img, comp: Compositor<Img>) returns (out: Img)
      requires Valid()
      ensures AllHaveCorners(eyes)
      ensures out == Composite(comp, comp.removeAlpha(frame), eyes)
    {
      var background := comp.removeAlpha(frame);
      var k := 0;
      while k < |eyes|
        invariant 0 <= k <= |eyes|
        invariant AllHaveCorners(eyes[..k])
        invariant background == Composite(comp, comp.removeAlpha(frame), eyes[..k])
      {
        var src, dst := ComputeAffineTransform(comp.spriteWidth, comp.spriteHeight, eyes[k]);
        var alpha0 := comp.warp(src, dst);
        CompositeAppend(comp, comp.removeAlpha(frame), eyes[..k], [eyes[k]]);
        assert eyes[..k + 1] == eyes[..k] + [eyes[k]];
        background := comp.overlay(background, alpha0);
        k := k + 1;
      }
      assert eyes[..|eyes|] == eyes;
      out := background;
    }
  }
}
