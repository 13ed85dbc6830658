/**
  Association of tracks with detections (core/src/tracking/association.cpp): overlap plus grid
  costs, an optimal assignment, and the overlap threshold.
*/
module Association {
  import opened Numbers
  import opened Types
  import opened Matchings
  import opened SceneGrids
  import Hungarian

  // ---------------------------------------------------------------- overlap

  function Area(w: real, h: real): (a: real)
    ensures a >= 0.0
  {
    Max(0.0, w) * Max(0.0, h)
  }

  function Overlap(a: Rect, b: Rect): (inter: real)
    ensures 0.0 <= inter <= Area(a.w, a.h) && inter <= Area(b.w, b.h)
    ensures inter == Max(0.0, Min(a.x + a.w, b.x + b.w) - Max(a.x, b.x)) * Max(0.0, Min(a.y + a.h, b.y + b.h) - Max(a.y, b.y))
  {
    var iw := Max(0.0, Min(a.x + a.w, b.x + b.w) - Max(a.x, b.x));
    var ih := Max(0.0, Min(a.y + a.h, b.y + b.h) - Max(a.y, b.y));
    ProductMonotone(iw, Max(0.0, a.w), ih, Max(0.0, a.h));
    ProductMonotone(iw, Max(0.0, b.w), ih, Max(0.0, b.h));
    iw * ih
  }

  lemma ProductMonotone(a: real, b: real, c: real, d: real)
    requires 0.0 <= a <= b && 0.0 <= c <= d
    ensures 0.0 <= a * c <= b * d
  {
    assert a * c <= b * c;
    assert b * c <= b * d;
  }

  /** Intersection over union of two rectangles. */
  function RectIou(a: Rect, b: Rect): real
  {
    var inter := Overlap(a, b);
    if inter <= 0.0 then 0.0
    else
      var uni := Area(a.w, a.h) + Area(b.w, b.h) - inter;
      if uni <= 0.0 then 0.0 else inter / uni
  }

  function RectOf(b: Box): Rect { Rect(b.x, b.y, b.w, b.h) }

  function BoxIou(a: Box, b: Box): (iou: real)
    ensures 0.0 <= iou <= 1.0
    ensures iou == RectIou(RectOf(b), RectOf(a))
    ensures iou > 0.0 ==> a.w > 0.0 && a.h > 0.0 && b.w > 0.0 && b.h > 0.0
  {
    IouRange(RectOf(a), RectOf(b));
    IouSymmetric(RectOf(a), RectOf(b));
    RectIou(RectOf(a), RectOf(b))
  }

  lemma IouRange(a: Rect, b: Rect)
    ensures 0.0 <= RectIou(a, b) <= 1.0
    ensures RectIou(a, b) > 0.0 ==> a.w > 0.0 && a.h > 0.0 && b.w > 0.0 && b.h > 0.0
  {
    var inter := Overlap(a, b);
    var uni := Area(a.w, a.h) + Area(b.w, b.h) - inter;
    if inter > 0.0 {
      QuotientInUnit(inter, uni);
      PositiveFactors(Max(0.0, a.w), Max(0.0, a.h));
      PositiveFactors(Max(0.0, b.w), Max(0.0, b.h));
    }
  }

  lemma PositiveFactors(x: real, y: real)
    requires x >= 0.0 && y >= 0.0 && x * y > 0.0
    ensures x > 0.0 && y > 0.0
  {
  }

  lemma QuotientInUnit(x: real, y: real)
    requires 0.0 < x <= y
    ensures 0.0 < x / y <= 1.0
  {
  }

  lemma IouSymmetric(a: Rect, b: Rect)
    ensures RectIou(a, b) == RectIou(b, a)
  {
    OverlapSymmetric(a, b);
    hide Overlap, Area;
  }

  lemma OverlapSymmetric(a: Rect, b: Rect)
    ensures Overlap(a, b) == Overlap(b, a)
  {
    assert Min(a.x + a.w, b.x + b.w) == Min(b.x + b.w, a.x + a.w) && Max(a.x, b.x) == Max(b.x, a.x);
    assert Min(a.y + a.h, b.y + b.h) == Min(b.y + b.h, a.y + a.h) && Max(a.y, b.y) == Max(b.y, a.y);
    hide Min, Max;
  }

  // ---------------------------------------------------------------- association

  datatype Stage = High | Low | Unconfirmed

  datatype Match = Match(trackIndex: int, detectionIndex: int, totalCost: real, iou: real, gridCost: real, stage: Stage)

  datatype Result = Result(matches: seq<Match>, unmatchedTracks: seq<int>, unmatchedDetections: seq<int>)

  datatype Options = Options(
    stage: Stage,
    iouThreshold: real,
    fuseScore: bool,
    sceneGrid: SceneGrid?,
    streamId: string,
    frameWidth: int,
    frameHeight: int)

  ghost predicate ValidOptions(o: Options)
    reads o.sceneGrid
  {
    o.sceneGrid != null ==> o.sceneGrid.Valid()
  }

  function MaxExtraCost(o: Options): real
  {
    if o.sceneGrid == null then 0.0 else o.sceneGrid.cfg.maxExtraCost
  }

  function GridCost(o: Options, track: Box, detection: Box): AssociationCost
    requires ValidOptions(o)
    reads o.sceneGrid
  {
    if o.sceneGrid == null then AssociationCost(0.0, 0.0)
    else o.sceneGrid.Cost(o.streamId, o.frameWidth, o.frameHeight, track, detection)
  }

  function PairCost(o: Options, track: Box, detection: Box): (cost: real)
    requires ValidOptions(o)
    reads o.sceneGrid
    ensures 0.0 <= cost <= 1.0 + MaxExtraCost(o)
  {
    var iou := BoxIou(track, detection);
    var score := Clamp(detection.score, 0.0, 1.0);
    ProductMonotone(0.0, iou, 0.0, score);
    ProductMonotone(iou, 1.0, score, 1.0);
    (if o.fuseScore then 1.0 - iou * score else 1.0 - iou) + GridCost(o, track, detection).extraCost
  }

  /** Of two detections a track overlaps alike, the one the grid charges less costs less. */
  lemma CheaperMoveCostsLess(o: Options, track: Box, near: Box, far: Box)
    requires ValidOptions(o) && o.sceneGrid != null
    requires BoxIou(track, near) == BoxIou(track, far) && near.score == far.score
    ensures var extra, other := o.sceneGrid.Cost(o.streamId, o.frameWidth, o.frameHeight, track, near).extraCost,
                                o.sceneGrid.Cost(o.streamId, o.frameWidth, o.frameHeight, track, far).extraCost;
      PairCost(o, track, near) - PairCost(o, track, far) == extra - other
  {
    hide *;
    PriceParts(o, track, near);
    PriceParts(o, track, far);
  }

  /** What a pair lacks in overlap, weighed by the detection's score if asked for. */
  function Lack(fuse: bool, iou: real, score: real): real
  {
    if fuse then 1.0 - iou * Clamp(score, 0.0, 1.0) else 1.0 - iou
  }

  lemma PriceParts(o: Options, track: Box, detection: Box)
    requires ValidOptions(o) && o.sceneGrid != null
    ensures PairCost(o, track, detection) == Lack(o.fuseScore, BoxIou(track, detection), detection.score)
      + o.sceneGrid.Cost(o.streamId, o.frameWidth, o.frameHeight, track, detection).extraCost
  {
    hide BoxIou, Clamp, SceneGrid.Cost, SceneGrid.Valid;
  }

  /** Track i is among the matches. */
  ghost predicate TrackMatched(matches: seq<Match>, i: int)
  {
    exists k :: 0 <= k < |matches| && matches[k].trackIndex == i
  }

  ghost predicate DetectionMatched(matches: seq<Match>, j: int)
  {
    exists k :: 0 <= k < |matches| && matches[k].detectionIndex == j
  }

  ghost predicate Increasing(s: seq<int>)
  {
    forall i, j :: 0 <= i < j < |s| ==> s[i] < s[j]
  }

  /** Every track and every detection appears exactly once, among the matches or among the unmatched. */
  ghost predicate IsPartition(r: Result, tracks: nat, detections: nat)
  {
    && (forall k :: 0 <= k < |r.matches| ==> 0 <= r.matches[k].trackIndex < tracks && 0 <= r.matches[k].detectionIndex < detections)
    && (forall k, l :: 0 <= k < l < |r.matches| ==> r.matches[k].trackIndex < r.matches[l].trackIndex)
    && (forall k, l :: 0 <= k < l < |r.matches| ==> r.matches[k].detectionIndex != r.matches[l].detectionIndex)
    && Increasing(r.unmatchedTracks)
    && Increasing(r.unmatchedDetections)
    && (forall i :: i in r.unmatchedTracks <==> 0 <= i < tracks && !TrackMatched(r.matches, i))
    && (forall j :: j in r.unmatchedDetections <==> 0 <= j < detections && !DetectionMatched(r.matches, j))
  }

  /** A match reports its pair's cost and overlap, and the overlap reaches the clamped threshold. */
  ghost predicate Faithful(m: Match, o: Options, tracks: seq<Box>, detections: seq<Box>)
    requires ValidOptions(o)
    reads o.sceneGrid
  {
    && 0 <= m.trackIndex < |tracks|
    && 0 <= m.detectionIndex < |detections|
    && m.iou == BoxIou(tracks[m.trackIndex], detections[m.detectionIndex])
    && m.iou >= Clamp(o.iouThreshold, 0.0, 0.999)
    && m.totalCost == PairCost(o, tracks[m.trackIndex], detections[m.detectionIndex])
    && m.gridCost == GridCost(o, tracks[m.trackIndex], detections[m.detectionIndex]).rawCost
    && m.stage == o.stage
  }

  ghost predicate IsCostMatrix(costs: seq<seq<real>>, o: Options, tracks: seq<Box>, detections: seq<Box>)
    requires ValidOptions(o)
    reads o.sceneGrid
  {
    && Rectangular(costs, |tracks|, |detections|)
    && forall i, j :: 0 <= i < |tracks| && 0 <= j < |detections| ==> costs[i][j] == PairCost(o, tracks[i], detections[j])
  }

  /** The matches are the pairs of an assignment whose overlap reaches the threshold. */
  ghost predicate ThresholdedFrom(r: Result, a: seq<int>, o: Options, tracks: seq<Box>, detections: seq<Box>)
    requires IsAssignment(a, |tracks|, |detections|)
  {
    forall i :: 0 <= i < |tracks| ==>
      (TrackMatched(r.matches, i) <==> PassesThreshold(a, i, o, tracks, detections))
  }

  ghost predicate PassesThreshold(a: seq<int>, i: int, o: Options, tracks: seq<Box>, detections: seq<Box>)
    requires 0 <= i < |tracks| == |a|
  {
    0 <= a[i] < |detections| && BoxIou(tracks[i], detections[a[i]]) >= Clamp(o.iouThreshold, 0.0, 0.999)
  }

  function UpTo(n: nat): (s: seq<int>)
    ensures Increasing(s) && forall k :: k in s <==> 0 <= k < n
  {
    if n == 0 then []
    else
      var earlier := UpTo(n - 1);
      AppendIncreasing(earlier, n - 1);
      earlier + [n - 1]
  }

  lemma AppendIncreasing(s: seq<int>, x: int)
    requires Increasing(s) && forall k :: k in s ==> k < x
    ensures Increasing(s + [x])
    ensures forall k :: k in s + [x] <==> k in s || k == x
  {
    var t := s + [x];
    forall i, j | 0 <= i < j < |t|
      ensures t[i] < t[j]
    {
      assert s[i] in s;
    }
  }

  /** The indices of the untaken slots, in order. */
  method Untaken(taken: array<bool>) returns (indices: seq<int>)
    ensures Increasing(indices)
    ensures forall j :: j in indices <==> 0 <= j < taken.Length && !taken[j]
  {
    indices := [];
    for j := 0 to taken.Length
      invariant Increasing(indices)
      invariant forall k :: k in indices <==> 0 <= k < j && !taken[k]
    {
      if !taken[j] {
        AppendIncreasing(indices, j);
        indices := indices + [j];
      }
    }
  }

  method PriceAll(tracks: seq<Box>, detections: seq<Box>, options: Options) returns (costs: seq<seq<real>>)
    requires ValidOptions(options)
    ensures IsCostMatrix(costs, options, tracks, detections)
  {
    costs := [];
    for i := 0 to |tracks|
      invariant |costs| == i
      invariant forall k :: 0 <= k < i ==> |costs[k]| == |detections|
      invariant forall k, j :: 0 <= k < i && 0 <= j < |detections| ==> costs[k][j] == PairCost(options, tracks[k], detections[j])
    {
      var row := [];
      for j := 0 to |detections|
        invariant |row| == j
        invariant forall k :: 0 <= k < j ==> row[k] == PairCost(options, tracks[i], detections[k])
      {
        row := row + [PairCost(options, tracks[i], detections[j])];
      }
      costs := costs + [row];
    }
  }

  /** What the threshold loop has established once the first i tracks are done. */
  ghost predicate Thresholded(matches: seq<Match>, unmatched: seq<int>, i: nat, assignment: seq<int>,
                              o: Options, tracks: seq<Box>, detections: seq<Box>)
    requires ValidOptions(o) && i <= |tracks| == |assignment|
    reads o.sceneGrid
  {
    && (forall k :: 0 <= k < |matches| ==>
          && Faithful(matches[k], o, tracks, detections)
          && matches[k].trackIndex < i
          && assignment[matches[k].trackIndex] == matches[k].detectionIndex)
    && (forall k, l :: 0 <= k < l < |matches| ==> matches[k].trackIndex < matches[l].trackIndex)
    && Increasing(unmatched)
    && (forall k :: k in unmatched ==> 0 <= k < i)
    && (forall k :: 0 <= k < i ==>
          && (TrackMatched(matches, k) <==> PassesThreshold(assignment, k, o, tracks, detections))
          && (k in unmatched <==> !PassesThreshold(assignment, k, o, tracks, detections)))
  }

  /** Keeps the pairs of the assignment that overlap enough. */
  method Threshold(tracks: seq<Box>, detections: seq<Box>, options: Options, costs: seq<seq<real>>, assignment: seq<int>)
    returns (result: Result)
    requires ValidOptions(options)
    requires IsCostMatrix(costs, options, tracks, detections)
    requires IsAssignment(assignment, |tracks|, |detections|)
    ensures IsPartition(result, |tracks|, |detections|)
    ensures forall k :: 0 <= k < |result.matches| ==> Faithful(result.matches[k], options, tracks, detections)
    ensures forall k :: 0 <= k < |result.matches| ==> assignment[result.matches[k].trackIndex] == result.matches[k].detectionIndex
    ensures ThresholdedFrom(result, assignment, options, tracks, detections)
  {
    var taken := new bool[|detections|](_ => false);
    var thresholdIou := Clamp(options.iouThreshold, 0.0, 0.999);
    var matches: seq<Match> := [];
    var unmatchedTracks: seq<int> := [];
    for i := 0 to |tracks|
      invariant Thresholded(matches, unmatchedTracks, i, assignment, options, tracks, detections)
      invariant forall j :: 0 <= j < |detections| ==> (taken[j] <==> DetectionMatched(matches, j))
    {
      var j := assignment[i];
      if j < 0 || j >= |detections| || BoxIou(tracks[i], detections[j]) < thresholdIou {
        AfterUnmatched(matches, unmatchedTracks, i, assignment, options, tracks, detections);
        unmatchedTracks := unmatchedTracks + [i];
        continue;
      }
      taken[j] := true;
      var m := Match(i, j, costs[i][j], BoxIou(tracks[i], detections[j]), GridCost(options, tracks[i], detections[j]).rawCost, options.stage);
      AfterMatched(matches, unmatchedTracks, i, assignment, options, tracks, detections, m);
      matches := matches + [m];
    }
    var unmatchedDetections := Untaken(taken);
    result := Result(matches, unmatchedTracks, unmatchedDetections);
    ThresholdedIsPartition(matches, unmatchedTracks, unmatchedDetections, assignment, options, tracks, detections);
  }

  lemma AfterUnmatched(matches: seq<Match>, unmatched: seq<int>, i: nat, assignment: seq<int>,
                       o: Options, tracks: seq<Box>, detections: seq<Box>)
    requires ValidOptions(o) && i < |tracks| == |assignment|
    requires Thresholded(matches, unmatched, i, assignment, o, tracks, detections)
    requires !PassesThreshold(assignment, i, o, tracks, detections)
    ensures Thresholded(matches, unmatched + [i], i + 1, assignment, o, tracks, detections)
  {
    AppendIncreasing(unmatched, i);
    assert !TrackMatched(matches, i);
  }

  lemma AfterMatched(matches: seq<Match>, unmatched: seq<int>, i: nat, assignment: seq<int>,
                     o: Options, tracks: seq<Box>, detections: seq<Box>, m: Match)
    requires ValidOptions(o) && i < |tracks| == |assignment|
    requires Thresholded(matches, unmatched, i, assignment, o, tracks, detections)
    requires Faithful(m, o, tracks, detections) && m.trackIndex == i && m.detectionIndex == assignment[i]
    ensures Thresholded(matches + [m], unmatched, i + 1, assignment, o, tracks, detections)
    ensures forall j :: DetectionMatched(matches + [m], j) <==> DetectionMatched(matches, j) || j == m.detectionIndex
  {
    MatchedAfter(matches, m);
    assert PassesThreshold(assignment, i, o, tracks, detections);
  }

  lemma ThresholdedIsPartition(matches: seq<Match>, unmatched: seq<int>, untaken: seq<int>, assignment: seq<int>,
                               o: Options, tracks: seq<Box>, detections: seq<Box>)
    requires ValidOptions(o) && IsAssignment(assignment, |tracks|, |detections|)
    requires Thresholded(matches, unmatched, |tracks|, assignment, o, tracks, detections)
    requires Increasing(untaken)
    requires forall j :: j in untaken <==> 0 <= j < |detections| && !DetectionMatched(matches, j)
    ensures IsPartition(Result(matches, unmatched, untaken), |tracks|, |detections|)
  {
    forall k, l | 0 <= k < l < |matches|
      ensures matches[k].detectionIndex != matches[l].detectionIndex
    {
      assert assignment[matches[k].trackIndex] != assignment[matches[l].trackIndex];
    }
  }

  lemma MatchedAfter(matches: seq<Match>, m: Match)
    ensures forall i :: TrackMatched(matches + [m], i) <==> TrackMatched(matches, i) || i == m.trackIndex
    ensures forall j :: DetectionMatched(matches + [m], j) <==> DetectionMatched(matches, j) || j == m.detectionIndex
  {
    var next := matches + [m];
    assert next[|matches|] == m;
    forall i | TrackMatched(matches, i)
      ensures TrackMatched(next, i)
    {
      var k :| 0 <= k < |matches| && matches[k].trackIndex == i;
      assert next[k].trackIndex == i;
    }
    forall j | DetectionMatched(matches, j)
      ensures DetectionMatched(next, j)
    {
      var k :| 0 <= k < |matches| && matches[k].detectionIndex == j;
      assert next[k].detectionIndex == j;
    }
  }

  /** What a pair is worth without a grid: its overlap, weighted by the detection's score if so configured. */
  function Worth(fuse: bool, track: Box, detection: Box): real
  {
    if fuse then BoxIou(track, detection) * Clamp(detection.score, 0.0, 1.0) else BoxIou(track, detection)
  }

  function TotalWorth(fuse: bool, tracks: seq<Box>, detections: seq<Box>, a: seq<int>, k: nat): real
    requires k <= |a| == |tracks| && forall i :: 0 <= i < |a| ==> a[i] < |detections|
  {
    if k == 0 then 0.0
    else
      TotalWorth(fuse, tracks, detections, a, k - 1)
      + (if a[k - 1] >= 0 then Worth(fuse, tracks[k - 1], detections[a[k - 1]]) else 0.0)
  }

  /** No complete assignment is worth more. */
  ghost predicate MostWorth(fuse: bool, tracks: seq<Box>, detections: seq<Box>, a: seq<int>)
  {
    && IsComplete(a, |tracks|, |detections|)
    && forall b :: IsComplete(b, |tracks|, |detections|) ==>
         TotalWorth(fuse, tracks, detections, b, |tracks|) <= TotalWorth(fuse, tracks, detections, a, |tracks|)
  }

  lemma {:induction false} CostIsLackOfWorth(costs: seq<seq<real>>, o: Options, tracks: seq<Box>, detections: seq<Box>, a: seq<int>, k: nat)
    requires ValidOptions(o) && o.sceneGrid == null && IsCostMatrix(costs, o, tracks, detections)
    requires IsAssignment(a, |tracks|, |detections|) && k <= |tracks|
    ensures Cost(costs, a, k) == Matched(a, k) as real - TotalWorth(o.fuseScore, tracks, detections, a, k)
  {
    hide BoxIou;
    if k > 0 {
      CostIsLackOfWorth(costs, o, tracks, detections, a, k - 1);
      if a[k - 1] >= 0 {
        assert costs[k - 1][a[k - 1]] == PairCost(o, tracks[k - 1], detections[a[k - 1]]);
      }
    }
  }

  lemma OptimalIsMostWorth(costs: seq<seq<real>>, o: Options, tracks: seq<Box>, detections: seq<Box>, a: seq<int>)
    requires ValidOptions(o) && o.sceneGrid == null && IsCostMatrix(costs, o, tracks, detections)
    requires IsOptimal(costs, a, |tracks|, |detections|)
    ensures MostWorth(o.fuseScore, tracks, detections, a)
  {
    hide IsCostMatrix, Cost, TotalWorth;
    CostIsLackOfWorth(costs, o, tracks, detections, a, |tracks|);
    forall b | IsComplete(b, |tracks|, |detections|)
      ensures TotalWorth(o.fuseScore, tracks, detections, b, |tracks|) <= TotalWorth(o.fuseScore, tracks, detections, a, |tracks|)
    {
      CostIsLackOfWorth(costs, o, tracks, detections, b, |tracks|);
    }
  }

  /** The costs stay below the solver's sentinel. */
  ghost predicate WithinSentinel(tracks: nat, detections: nat, options: Options)
  {
    ((Hungarian.MinNat(tracks, detections) + 1) as real) * (1.0 + MaxExtraCost(options)) < Hungarian.INF
  }

  /**
    Partitions tracks and detections into matches and leftovers. The matches are the pairs of a
    minimum-cost complete assignment (returned as a ghost) whose overlap reaches the threshold;
    without a grid, no complete assignment has a greater total overlap.
  */
  method AssociateDetections(tracks: seq<Box>, detections: seq<Box>, options: Options)
    returns (result: Result, ghost costs: seq<seq<real>>, ghost assignment: seq<int>)
    requires ValidOptions(options)
    requires WithinSentinel(|tracks|, |detections|, options)
    ensures IsPartition(result, |tracks|, |detections|)
    ensures forall k :: 0 <= k < |result.matches| ==> Faithful(result.matches[k], options, tracks, detections)
    ensures tracks != [] && detections != [] ==>
      && IsCostMatrix(costs, options, tracks, detections)
      && IsOptimal(costs, assignment, |tracks|, |detections|)
      && ThresholdedFrom(result, assignment, options, tracks, detections)
      && forall k :: 0 <= k < |result.matches| ==> assignment[result.matches[k].trackIndex] == result.matches[k].detectionIndex
    ensures tracks != [] && detections != [] && options.sceneGrid == null ==>
      MostWorth(options.fuseScore, tracks, detections, assignment)
  {
    costs, assignment := [], [];
    if tracks == [] {
      return Result([], [], UpTo(|detections|)), [], [];
    }
    if detections == [] {
      return Result([], UpTo(|tracks|), []), [], [];
    }
    var priced := PriceAll(tracks, detections, options);
    assert Hungarian.Columns(priced) == |detections|;
    CostsInRange(priced, tracks, detections, options);
    var a := Hungarian.HungarianAssignment(priced, 0.0, 1.0 + MaxExtraCost(options));
    costs, assignment := priced, a;
    OptimalIsAssignment(priced, a, |tracks|, |detections|);
    if options.sceneGrid == null {
      OptimalIsMostWorth(priced, options, tracks, detections, a);
    }
    hide MostWorth;
    result := Threshold(tracks, detections, options, priced, a);
  }

  lemma CostsInRange(costs: seq<seq<real>>, tracks: seq<Box>, detections: seq<Box>, options: Options)
    requires ValidOptions(options) && IsCostMatrix(costs, options, tracks, detections)
    ensures Hungarian.Costs(costs, |tracks|, |detections|, 0.0, 1.0 + MaxExtraCost(options))
    ensures MaxExtraCost(options) >= 0.0
  {
    forall i, j | 0 <= i < |tracks| && 0 <= j < |detections|
      ensures 0.0 <= costs[i][j] <= 1.0 + MaxExtraCost(options)
    {
      assert costs[i][j] == PairCost(options, tracks[i], detections[j]);
    }
  }

  lemma OptimalIsAssignment(costs: seq<seq<real>>, a: seq<int>, rows: nat, cols: nat)
    requires Rectangular(costs, rows, cols) && IsOptimal(costs, a, rows, cols)
    ensures IsAssignment(a, rows, cols)
  {
  }
}
