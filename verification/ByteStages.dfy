/**
  What one frame of the two-stage tracker of core/src/tracking/bytetrack_tracker.cpp does to its
  tracks, stage by stage, and what follows for their identities and for the boxes reported.
*/
module ByteStages {
  import opened Numbers
  import opened Types
  import opened SceneGrids
  import opened Association
  import opened ByteTracks
  import opened Matchings
  import Hungarian

  datatype Settings = Settings(
    highThresh: real,
    lowThresh: real,
    newTrackThresh: real,
    matchIou: real,
    lowMatchIou: real,
    unconfirmedMatchIou: real,
    duplicateIou: real,
    trackBuffer: int,
    minBoxArea: real,
    fuseScore: bool)
  {
    /** The settings as the constructor clamps them. */
    function Clamped(): (c: Settings)
      ensures c.WellFormed()
    {
      var high := Clamp(highThresh, 0.01, 0.99);
      this.(highThresh := high,
            lowThresh := Clamp(lowThresh, 0.0, high),
            newTrackThresh := Clamp(newTrackThresh, high, 0.999),
            matchIou := Clamp(matchIou, 0.01, 0.99),
            lowMatchIou := Clamp(lowMatchIou, 0.01, 0.99),
            unconfirmedMatchIou := Clamp(unconfirmedMatchIou, 0.01, 0.99),
            trackBuffer := MaxInt(1, trackBuffer),
            minBoxArea := Max(0.0, minBoxArea))
    }

    predicate WellFormed() { 0.0 <= lowThresh <= highThresh <= newTrackThresh && trackBuffer >= 1 }

    /** Large enough to be followed at all. */
    predicate SizeValid(det: Box) { det.w > 1.0 && det.h > 1.0 && Area(det.w, det.h) >= minBoxArea }

    predicate High(det: Box) { SizeValid(det) && det.score >= highThresh }

    predicate Low(det: Box) { SizeValid(det) && lowThresh <= det.score < highThresh }
  }

  datatype FrameInfo = FrameInfo(streamId: string, frameId: int, width: int, height: int)

  // ---------------------------------------------------------------- lists of tracks at a moment

  ghost function Shots(ts: seq<Track>): (shots: seq<Shot>)
    reads ts
    ensures |shots| == |ts| && forall i :: 0 <= i < |ts| ==> shots[i] == ts[i].Now()
  {
    seq(|ts|, i requires 0 <= i < |ts| reads ts => ts[i].Now())
  }

  ghost predicate NoRepeats(ts: seq<Track>)
  {
    forall i, j :: 0 <= i < j < |ts| ==> ts[i] != ts[j]
  }

  ghost predicate Apart(a: seq<Track>, b: seq<Track>)
  {
    forall i, j :: 0 <= i < |a| && 0 <= j < |b| ==> a[i] != b[j]
  }

  // ---------------------------------------------------------------- detections as tracks

  /** New tracks for the detections at these positions. */
  ghost predicate AreDetections(shots: seq<Shot>, at: seq<nat>, dets: seq<Box>)
  {
    && |shots| == |at|
    && Ascending(at, |dets|)
    && (forall i :: 0 <= i < |at| ==> shots[i] == NewShot(dets[at[i]]))
  }

  predicate Ascending(at: seq<nat>, n: nat)
  {
    && (forall i :: 0 <= i < |at| ==> at[i] < n)
    && (forall i, j :: 0 <= i < j < |at| ==> at[i] < at[j])
  }

  /** The positions of the detections that are followed, by score. */
  method SplitDetections(c: Settings, dets: seq<Box>) returns (highAt: seq<nat>, lowAt: seq<nat>)
    ensures Ascending(highAt, |dets|) && Ascending(lowAt, |dets|) && |highAt| + |lowAt| <= |dets|
    ensures c.WellFormed() ==> forall n :: n in highAt <==> 0 <= n < |dets| && c.High(dets[n])
    ensures c.WellFormed() ==> forall n :: n in lowAt <==> 0 <= n < |dets| && c.Low(dets[n])
  {
    highAt, lowAt := [], [];
    hide Settings.SizeValid;
    for n := 0 to |dets|
      invariant Ascending(highAt, n) && Ascending(lowAt, n) && |highAt| + |lowAt| <= n
      invariant c.WellFormed() ==> forall m :: m in highAt <==> 0 <= m < n && c.High(dets[m])
      invariant c.WellFormed() ==> forall m :: m in lowAt <==> 0 <= m < n && c.Low(dets[m])
    {
      if !c.SizeValid(dets[n]) {
        continue;
      }
      if dets[n].score >= c.highThresh {
        highAt := highAt + [n];
      } else if dets[n].score >= c.lowThresh {
        lowAt := lowAt + [n];
      }
    }
  }

  method NewTracks(dets: seq<Box>, at: seq<nat>) returns (ts: seq<Track>)
    requires Ascending(at, |dets|)
    ensures fresh(ts) && NoRepeats(ts) && AreDetections(Shots(ts), at, dets)
  {
    ts := [];
    hide NewShot;
    for i := 0 to |at|
      invariant fresh(ts) && NoRepeats(ts) && |ts| == i
      invariant forall j :: 0 <= j < i ==> ts[j].Now() == NewShot(dets[at[j]])
    {
      var t := new Track(dets[at[i]]);
      ts := ts + [t];
    }
  }

  /** The detections of a frame as new tracks, by score. */
  method TakeDetections(c: Settings, dets: seq<Box>) returns (high: seq<Track>, low: seq<Track>, highAt: seq<nat>, lowAt: seq<nat>)
    requires c.WellFormed()
    ensures fresh(high) && fresh(low)
    ensures NoRepeats(high) && NoRepeats(low) && Apart(high, low)
    ensures AreDetections(Shots(high), highAt, dets) && AreDetections(Shots(low), lowAt, dets)
    ensures |highAt| == |high| && |lowAt| == |low| && |high| + |low| <= |dets| && SplitByScore(c, dets, highAt, lowAt)
  {
    hide Settings.SizeValid, NewShot;
    highAt, lowAt := SplitDetections(c, dets);
    SeenShort(c, dets, highAt, lowAt);
    high := NewTracks(dets, highAt);
    ghost var highShots := Shots(high);
    low := NewTracks(dets, lowAt);
    assert Shots(high) == highShots;
  }

  // ---------------------------------------------------------------- moving tracks

  method PredictAll(k: Kalman, pool: seq<Track>)
    requires NoRepeats(pool)
    modifies pool
    ensures forall i :: 0 <= i < |pool| ==> pool[i].Now() == Predicted(k, old(pool[i].Now()))
  {
    hide Predicted;
    for i := 0 to |pool|
      invariant forall j :: 0 <= j < i ==> pool[j].Now() == Predicted(k, old(pool[j].Now()))
      invariant forall j :: i <= j < |pool| ==> pool[j].Now() == old(pool[j].Now())
    {
      pool[i].Predict(k);
    }
  }

  ghost predicate InPool(matches: seq<Match>, tracks: nat)
  {
    && (forall m :: 0 <= m < |matches| ==> 0 <= matches[m].trackIndex < tracks)
    && (forall m, n :: 0 <= m < n < |matches| ==> matches[m].trackIndex != matches[n].trackIndex)
  }

  ghost predicate InDetections(matches: seq<Match>, dets: nat)
  {
    && (forall m :: 0 <= m < |matches| ==> 0 <= matches[m].detectionIndex < dets)
    && (forall m, n :: 0 <= m < n < |matches| ==> matches[m].detectionIndex != matches[n].detectionIndex)
  }

  /** The tracks after the first n matches were applied to them. */
  ghost function AfterMatches(k: Kalman, shots: seq<Shot>, dets: seq<Shot>, matches: seq<Match>, n: nat, frame: int): (r: seq<Shot>)
    requires n <= |matches| && InPool(matches, |shots|) && InDetections(matches, |dets|)
    ensures |r| == |shots|
  {
    if n == 0 then shots
    else
      var r := AfterMatches(k, shots, dets, matches, n - 1, frame);
      var i := matches[n - 1].trackIndex;
      r[i := Updated(k, r[i], dets[matches[n - 1].detectionIndex], frame)]
  }

  /** A matched track is updated once, with its own detection; the others are as they were. */
  lemma {:induction false} EachUpdatedOnce(k: Kalman, shots: seq<Shot>, dets: seq<Shot>, matches: seq<Match>, n: nat, frame: int)
    requires n <= |matches| && InPool(matches, |shots|) && InDetections(matches, |dets|)
    ensures var r := AfterMatches(k, shots, dets, matches, n, frame);
      && (forall m :: 0 <= m < n ==>
            r[matches[m].trackIndex] == Updated(k, shots[matches[m].trackIndex], dets[matches[m].detectionIndex], frame))
      && (forall i :: 0 <= i < |shots| && !IsMatched(matches, n, i) ==> r[i] == shots[i])
  {
    hide Updated;
    if n > 0 {
      EachUpdatedOnce(k, shots, dets, matches, n - 1, frame);
      var last := matches[n - 1].trackIndex;
      assert !IsMatched(matches, n - 1, last);
      forall i
        ensures IsMatched(matches, n, i) <==> IsMatched(matches, n - 1, i) || i == last
      {
        OneMoreMatched(matches, n - 1, i);
      }
      var before, r := AfterMatches(k, shots, dets, matches, n - 1, frame), AfterMatches(k, shots, dets, matches, n, frame);
      assert r == before[last := Updated(k, before[last], dets[matches[n - 1].detectionIndex], frame)];
      hide IsMatched, AfterMatches;
    }
  }

  /** The i-th track is among the first n matches. */
  predicate IsMatched(matches: seq<Match>, n: nat, i: int)
    requires n <= |matches|
  {
    exists m :: 0 <= m < n && matches[m].trackIndex == i
  }

  lemma OneMoreMatched(matches: seq<Match>, n: nat, i: int)
    requires n < |matches|
    ensures IsMatched(matches, n + 1, i) <==> IsMatched(matches, n, i) || matches[n].trackIndex == i
  {
  }

  /** The tracks of the first n matches that were, or were not, being tracked, in the order of the matches. */
  ghost function Picked(pool: seq<Track>, was: seq<Shot>, matches: seq<Match>, n: nat, tracked: bool): seq<Track>
    requires n <= |matches| && InPool(matches, |pool|) && |was| == |pool|
  {
    if n == 0 then []
    else
      var i := matches[n - 1].trackIndex;
      Picked(pool, was, matches, n - 1, tracked) + (if (was[i].state == Tracked) == tracked then [pool[i]] else [])
  }

  lemma {:induction false} PickedAreMatched(pool: seq<Track>, was: seq<Shot>, matches: seq<Match>, n: nat, tracked: bool, i: nat)
    requires n <= |matches| && InPool(matches, |pool|) && |was| == |pool| && NoRepeats(pool) && i < |pool|
    ensures pool[i] in Picked(pool, was, matches, n, tracked) <==> IsMatched(matches, n, i) && (was[i].state == Tracked) == tracked
  {
    if n > 0 {
      PickedAreMatched(pool, was, matches, n - 1, tracked, i);
      OneMoreMatched(matches, n - 1, i);
      var j := matches[n - 1].trackIndex;
      assert pool[i] == pool[j] <==> i == j;
      hide IsMatched, NoRepeats, InPool;
    }
  }

  /** One match: the track takes over its detection, and the grid learns the move. */
  method ApplyMatch(k: Kalman, pool: seq<Track>, i: nat, dets: seq<Track>, j: nat, f: FrameInfo, frame: int, grid: SceneGrid)
    requires NoRepeats(pool) && Apart(pool, dets) && i < |pool| && j < |dets| && grid.Valid()
    modifies pool[i], grid
    ensures grid.Valid()
    ensures Grew(grid.cfg.enabled, old(grid.log), grid.log, f.streamId, 1)
    ensures Shots(pool) == old(Shots(pool))[i := Updated(k, old(Shots(pool))[i], old(Shots(dets))[j], frame)]
    ensures Shots(dets) == old(Shots(dets))
  {
    var track := pool[i];
    assert track in pool && track !in dets && dets[j] in dets;
    var before := track.box;
    hide Updated, Grew;
    track.UpdateWith(k, dets[j], frame);
    grid.ObserveTransition(f.streamId, f.width, f.height, before, dets[j].box);
  }

  /** Matched tracks take over their detections; those that were lost are found again. */
  method ApplyMatches(k: Kalman, pool: seq<Track>, dets: seq<Track>, matches: seq<Match>, f: FrameInfo, frame: int, grid: SceneGrid)
    returns (activated: seq<Track>, refound: seq<Track>)
    requires NoRepeats(pool) && Apart(pool, dets) && grid.Valid()
    requires InPool(matches, |pool|) && InDetections(matches, |dets|)
    modifies pool, grid
    ensures grid.Valid() && Grew(grid.cfg.enabled, old(grid.log), grid.log, f.streamId, |matches|)
    ensures Shots(pool) == AfterMatches(k, old(Shots(pool)), old(Shots(dets)), matches, |matches|, frame)
    ensures activated == Picked(pool, old(Shots(pool)), matches, |matches|, true)
    ensures refound == Picked(pool, old(Shots(pool)), matches, |matches|, false)
  {
    activated, refound := [], [];
    ghost var was, seen := Shots(pool), Shots(dets);
    ghost var on, log := grid.cfg.enabled, grid.log;
    hide SceneGrid.Valid, Updated, Grew;
    NotGrown(on, log, f.streamId);
    for m := 0 to |matches|
      invariant grid.Valid() && Grew(on, log, grid.log, f.streamId, m)
      invariant Shots(pool) == AfterMatches(k, was, seen, matches, m, frame) && Shots(dets) == seen
      invariant activated == Picked(pool, was, matches, m, true) && refound == Picked(pool, was, matches, m, false)
    {
      var i := matches[m].trackIndex;
      NotYetMatched(k, was, seen, matches, m, frame);
      OneMorePicked(pool, was, matches, m);
      var wasTracked := pool[i].state == Tracked;
      assert Shots(pool)[i] == was[i];
      hide Apart, NoRepeats, IsMatched, Track.Now, Picked, AfterMatches;
      ghost var grown := grid.log;
      ApplyMatch(k, pool, i, dets, matches[m].detectionIndex, f, frame, grid);
      GrewMore(on, log, grown, grid.log, f.streamId, m, 1);
      if wasTracked {
        activated := activated + [pool[i]];
      } else {
        refound := refound + [pool[i]];
      }
    }
  }

  lemma OneMorePicked(pool: seq<Track>, was: seq<Shot>, matches: seq<Match>, m: nat)
    requires m < |matches| && InPool(matches, |pool|) && |was| == |pool|
    ensures var i := matches[m].trackIndex;
      && Picked(pool, was, matches, m + 1, true)
      == Picked(pool, was, matches, m, true) + (if was[i].state == Tracked then [pool[i]] else [])
      && Picked(pool, was, matches, m + 1, false)
      == Picked(pool, was, matches, m, false) + (if was[i].state == Tracked then [] else [pool[i]])
  {
  }

  lemma NotYetMatched(k: Kalman, shots: seq<Shot>, dets: seq<Shot>, matches: seq<Match>, m: nat, frame: int)
    requires m < |matches| && InPool(matches, |shots|) && InDetections(matches, |dets|)
    ensures var i, before := matches[m].trackIndex, AfterMatches(k, shots, dets, matches, m, frame);
      && before[i] == shots[i]
      && AfterMatches(k, shots, dets, matches, m + 1, frame) == before[i := Updated(k, shots[i], dets[matches[m].detectionIndex], frame)]
  {
    EachUpdatedOnce(k, shots, dets, matches, m, frame);
    assert !IsMatched(matches, m, matches[m].trackIndex);
  }

  // ---------------------------------------------------------------- which detection a track took

  /** Distinct tracks come from distinct detections. */
  ghost predicate Injective(source: map<Track, nat>)
  {
    forall t, u :: t in source && u in source && source[t] == source[u] ==> t == u
  }

  predicate IsDetected(matches: seq<Match>, j: int)
  {
    exists m :: 0 <= m < |matches| && matches[m].detectionIndex == j
  }

  ghost predicate TakenBy(t: Track, pool: seq<Track>, matches: seq<Match>, m: nat)
    requires InPool(matches, |pool|)
  {
    m < |matches| && pool[matches[m].trackIndex] == t
  }

  ghost function Takers(pool: seq<Track>, matches: seq<Match>): (takers: set<Track>)
    requires InPool(matches, |pool|)
    ensures forall t :: t in takers ==> exists m: nat :: TakenBy(t, pool, matches, m)
  {
    var takers := set m | 0 <= m < |matches| :: pool[matches[m].trackIndex];
    assert forall m :: 0 <= m < |matches| ==> TakenBy(pool[matches[m].trackIndex], pool, matches, m);
    takers
  }

  /** Which detection each matched track took. */
  ghost function SourceOf(pool: seq<Track>, matches: seq<Match>, dets: nat): (source: map<Track, nat>)
    requires InPool(matches, |pool|) && InDetections(matches, dets)
    ensures forall m :: 0 <= m < |matches| ==> pool[matches[m].trackIndex] in source
    ensures forall t :: t in source ==> exists m: nat :: TakenBy(t, pool, matches, m) && source[t] == matches[m].detectionIndex
  {
    map t | t in Takers(pool, matches) :: var m: nat :| TakenBy(t, pool, matches, m); matches[m].detectionIndex
  }

  lemma SourceWitness(pool: seq<Track>, matches: seq<Match>, dets: nat, t: Track) returns (m: nat)
    requires InPool(matches, |pool|) && InDetections(matches, dets) && t in SourceOf(pool, matches, dets)
    ensures TakenBy(t, pool, matches, m) && SourceOf(pool, matches, dets)[t] == matches[m].detectionIndex
  {
    hide Takers;
    m :| TakenBy(t, pool, matches, m) && SourceOf(pool, matches, dets)[t] == matches[m].detectionIndex;
  }

  lemma SourceInjective(pool: seq<Track>, matches: seq<Match>, dets: nat)
    requires InPool(matches, |pool|) && InDetections(matches, dets)
    ensures Injective(SourceOf(pool, matches, dets))
  {
    var source := SourceOf(pool, matches, dets);
    hide SourceOf;
    forall t, u | t in source && u in source && source[t] == source[u]
      ensures t == u
    {
      var m := SourceWitness(pool, matches, dets, t);
      var l := SourceWitness(pool, matches, dets, u);
    }
  }

  /** A matched track has a source, and it is the detection of its match. */
  lemma SourceFacts(pool: seq<Track>, matches: seq<Match>, dets: nat, i: nat)
    requires InPool(matches, |pool|) && InDetections(matches, dets) && NoRepeats(pool) && i < |pool|
    ensures var source := SourceOf(pool, matches, dets);
      && (pool[i] in source <==> IsMatched(matches, |matches|, i))
      && (pool[i] in source ==>
            source[pool[i]] < dets && IsDetected(matches, source[pool[i]])
            && exists m :: 0 <= m < |matches| && matches[m].trackIndex == i && matches[m].detectionIndex == source[pool[i]])
  {
    var source := SourceOf(pool, matches, dets);
    if IsMatched(matches, |matches|, i) {
      var m :| 0 <= m < |matches| && matches[m].trackIndex == i;
      assert pool[matches[m].trackIndex] in source;
    }
    if pool[i] in source {
      var m := SourceWitness(pool, matches, dets, pool[i]);
      hide SourceOf;
      assert matches[m].trackIndex == i;
    }
  }

  // ---------------------------------------------------------------- association of lists of tracks

  ghost predicate SentinelHolds(dets: nat, maxExtraCost: real)
  {
    (dets + 1) as real * (1.0 + maxExtraCost) < Hungarian.INF
  }

  lemma SentinelCovers(tracks: nat, some: nat, all: nat, o: Options, maxExtraCost: real)
    requires SentinelHolds(all, maxExtraCost) && some <= all && 0.0 <= MaxExtraCost(o) <= maxExtraCost
    ensures WithinSentinel(tracks, some, o)
  {
    var least := Hungarian.MinNat(tracks, some);
    var few, many := (least + 1) as real, (all + 1) as real;
    ProductMonotone(few, many, 1.0 + MaxExtraCost(o), 1.0 + maxExtraCost);
  }

  method Select(ts: seq<Track>, idx: seq<int>) returns (out: seq<Track>)
    requires Increasing(idx) && forall i :: 0 <= i < |idx| ==> 0 <= idx[i] < |ts|
    ensures |out| == |idx| && forall i :: 0 <= i < |idx| ==> out[i] == ts[idx[i]]
    ensures NoRepeats(ts) ==> NoRepeats(out)
  {
    out := [];
    for i := 0 to |idx|
      invariant |out| == i && forall j :: 0 <= j < i ==> out[j] == ts[idx[j]]
    {
      out := out + [ts[idx[i]]];
    }
  }

  lemma SelectedAre(ts: seq<Track>, idx: seq<int>, out: seq<Track>, i: nat)
    requires NoRepeats(ts) && i < |ts| && |out| == |idx| && forall j :: 0 <= j < |idx| ==> 0 <= idx[j] < |ts| && out[j] == ts[idx[j]]
    ensures ts[i] in out <==> i in idx
  {
    if i in idx {
      var j :| 0 <= j < |idx| && idx[j] == i;
      assert out[j] == ts[i];
    }
    if ts[i] in out {
      var j :| 0 <= j < |out| && out[j] == ts[i];
      assert idx[j] in idx;
    }
  }

  /** A partition as the lists need it. */
  lemma PartitionFacts(r: Result, tracks: nat, dets: nat)
    requires IsPartition(r, tracks, dets)
    ensures InPool(r.matches, tracks) && InDetections(r.matches, dets)
    ensures forall i :: 0 <= i < tracks ==> (i in r.unmatchedTracks <==> !IsMatched(r.matches, |r.matches|, i))
    ensures forall j :: 0 <= j < dets ==> (j in r.unmatchedDetections <==> !IsDetected(r.matches, j))
    ensures forall i :: 0 <= i < |r.unmatchedTracks| ==> 0 <= r.unmatchedTracks[i] < tracks
    ensures forall i :: 0 <= i < |r.unmatchedDetections| ==> 0 <= r.unmatchedDetections[i] < dets
  {
    forall i | 0 <= i < |r.unmatchedTracks|
      ensures 0 <= r.unmatchedTracks[i] < tracks
    {
      assert r.unmatchedTracks[i] in r.unmatchedTracks;
    }
    forall i | 0 <= i < |r.unmatchedDetections|
      ensures 0 <= r.unmatchedDetections[i] < dets
    {
      assert r.unmatchedDetections[i] in r.unmatchedDetections;
    }
  }

  // ---------------------------------------------------------------- the stages of a frame

  /** What a stage has found out: which tracks were matched, and to which of its detections. */
  ghost predicate StageDone(k: Kalman, pool: seq<Track>, was: seq<Shot>, now: seq<Shot>, dets: seq<Shot>, matches: seq<Match>, frame: int)
  {
    && |was| == |now| == |pool|
    && InPool(matches, |pool|)
    && InDetections(matches, |dets|)
    && now == AfterMatches(k, was, dets, matches, |matches|, frame)
  }

  ghost predicate LeftOver(pool: seq<Track>, matches: seq<Match>, left: seq<Track>)
  {
    && NoRepeats(left)
    && (forall t :: t in left ==> t in pool)
    && forall i :: 0 <= i < |pool| ==> (pool[i] in left <==> !IsMatched(matches, |matches|, i))
  }

  /** The detections at these positions of the list were not matched. */
  ghost predicate LeftDetections(dets: seq<Track>, matches: seq<Match>, left: seq<Track>, at: seq<nat>)
  {
    && |left| == |at|
    && Ascending(at, |dets|)
    && (forall i :: 0 <= i < |at| ==> left[i] == dets[at[i]])
    && forall j :: 0 <= j < |dets| ==> (j in at <==> !IsDetected(matches, j))
  }

  /** What a pair costs before the scene grid adds to it: the missing overlap, weighted by the score if so configured. */
  function BasePrice(fuse: bool, track: Box, det: Box): real
  {
    if fuse then 1.0 - BoxIou(track, det) * Clamp(det.score, 0.0, 1.0) else 1.0 - BoxIou(track, det)
  }

  /** The cost matrix of a stage, up to what the scene grid adds, which is at most `extra`. */
  ghost predicate Priced(costs: seq<seq<real>>, was: seq<Shot>, dets: seq<Shot>, fuse: bool, extra: real)
  {
    && Rectangular(costs, |was|, |dets|)
    && forall i, j :: 0 <= i < |was| && 0 <= j < |dets| ==> 0.0 <= costs[i][j] - BasePrice(fuse, was[i].box, dets[j].box) <= extra
  }

  /** The assignment gives track i a detection that overlaps it enough. */
  ghost predicate Passing(was: seq<Shot>, dets: seq<Shot>, a: seq<int>, threshold: real, i: int)
    requires 0 <= i < |was| == |a|
  {
    0 <= a[i] < |dets| && BoxIou(was[i].box, dets[a[i]].box) >= Clamp(threshold, 0.0, 0.999)
  }

  /** The matches are the pairs of the assignment that overlap enough. */
  ghost predicate ByAssignment(was: seq<Shot>, dets: seq<Shot>, matches: seq<Match>, a: seq<int>, threshold: real)
  {
    && |a| == |was|
    && InPool(matches, |was|)
    && (forall m :: 0 <= m < |matches| ==> a[matches[m].trackIndex] == matches[m].detectionIndex)
    && forall i :: 0 <= i < |was| ==> (IsMatched(matches, |matches|, i) <==> Passing(was, dets, a, threshold, i))
  }

  /** The matches are those of a cheapest complete assignment, as far as they overlap enough. */
  ghost predicate BestMatches(was: seq<Shot>, dets: seq<Shot>, matches: seq<Match>, threshold: real, fuse: bool, extra: real)
  {
    was != [] && dets != [] ==>
      exists costs: seq<seq<real>>, a: seq<int> ::
        Priced(costs, was, dets, fuse, extra) && IsOptimal(costs, a, |was|, |dets|) && ByAssignment(was, dets, matches, a, threshold)
  }

  /** Track by track: the detection of the assignment if it overlaps enough, otherwise none. */
  ghost predicate Chosen(pool: seq<Track>, was: seq<Shot>, dets: seq<Shot>, source: map<Track, nat>, a: seq<int>, threshold: real)
    requires |was| == |pool| == |a|
  {
    forall i :: 0 <= i < |pool| ==>
      if Passing(was, dets, a, threshold, i) then pool[i] in source && source[pool[i]] == a[i] else pool[i] !in source
  }

  /** Every track took the detection a cheapest complete assignment gives it, if that overlaps enough. */
  ghost predicate BestMatched(pool: seq<Track>, was: seq<Shot>, dets: seq<Shot>, source: map<Track, nat>, threshold: real, fuse: bool, extra: real)
    requires |was| == |pool|
  {
    was != [] && dets != [] ==>
      exists costs: seq<seq<real>>, a: seq<int> ::
        Priced(costs, was, dets, fuse, extra) && IsOptimal(costs, a, |was|, |dets|) && Chosen(pool, was, dets, source, a, threshold)
  }

  lemma BestBySource(pool: seq<Track>, was: seq<Shot>, dets: seq<Shot>, matches: seq<Match>, threshold: real, fuse: bool, extra: real)
    requires |was| == |pool| && NoRepeats(pool) && InPool(matches, |pool|) && InDetections(matches, |dets|)
    requires BestMatches(was, dets, matches, threshold, fuse, extra)
    ensures BestMatched(pool, was, dets, SourceOf(pool, matches, |dets|), threshold, fuse, extra)
  {
    hide SourceOf, IsOptimal, NoRepeats;
    if was != [] && dets != [] {
      var costs: seq<seq<real>>, a: seq<int> :| Priced(costs, was, dets, fuse, extra) && IsOptimal(costs, a, |was|, |dets|)
        && ByAssignment(was, dets, matches, a, threshold);
      hide BestMatches;
      ChosenBySource(pool, was, dets, matches, a, threshold);
    }
  }

  lemma ChosenBySource(pool: seq<Track>, was: seq<Shot>, dets: seq<Shot>, matches: seq<Match>, a: seq<int>, threshold: real)
    requires |was| == |pool| && NoRepeats(pool) && InPool(matches, |pool|) && InDetections(matches, |dets|)
    requires ByAssignment(was, dets, matches, a, threshold)
    ensures Chosen(pool, was, dets, SourceOf(pool, matches, |dets|), a, threshold)
  {
    var source := SourceOf(pool, matches, |dets|);
    forall i | 0 <= i < |pool|
      ensures if Passing(was, dets, a, threshold, i) then pool[i] in source && source[pool[i]] == a[i] else pool[i] !in source
    {
      SourceFacts(pool, matches, |dets|, i);
      hide SourceOf, Passing, NoRepeats, IsMatched, InDetections;
    }
  }

  /** What the association has found, for the lists. */
  lemma AssociatedBest(r: Result, was: seq<Shot>, dets: seq<Shot>, trackBoxes: seq<Box>, detBoxes: seq<Box>, o: Options,
                       costs: seq<seq<real>>, a: seq<int>)
    requires ValidOptions(o) && |trackBoxes| == |was| && |detBoxes| == |dets| && IsPartition(r, |was|, |dets|)
    requires forall i :: 0 <= i < |was| ==> trackBoxes[i] == was[i].box
    requires forall j :: 0 <= j < |dets| ==> detBoxes[j] == dets[j].box
    requires IsCostMatrix(costs, o, trackBoxes, detBoxes) && IsOptimal(costs, a, |was|, |dets|)
    requires IsAssignment(a, |was|, |dets|) && ThresholdedFrom(r, a, o, trackBoxes, detBoxes)
    requires forall k :: 0 <= k < |r.matches| ==> a[r.matches[k].trackIndex] == r.matches[k].detectionIndex
    ensures BestMatches(was, dets, r.matches, o.iouThreshold, o.fuseScore, MaxExtraCost(o))
  {
    PartitionFacts(r, |was|, |dets|);
    CostsArePrices(was, dets, trackBoxes, detBoxes, o, costs);
    hide BoxIou, PairCost, IsOptimal, IsPartition, IsCostMatrix, Priced, ValidOptions, InDetections, IsAssignment;
    forall i | 0 <= i < |was|
      ensures IsMatched(r.matches, |r.matches|, i) <==> Passing(was, dets, a, o.iouThreshold, i)
    {
      assert IsMatched(r.matches, |r.matches|, i) <==> TrackMatched(r.matches, i);
      assert PassesThreshold(a, i, o, trackBoxes, detBoxes) <==> Passing(was, dets, a, o.iouThreshold, i);
    }
    assert ByAssignment(was, dets, r.matches, a, o.iouThreshold);
  }

  lemma CostsArePrices(was: seq<Shot>, dets: seq<Shot>, trackBoxes: seq<Box>, detBoxes: seq<Box>, o: Options, costs: seq<seq<real>>)
    requires ValidOptions(o) && |trackBoxes| == |was| && |detBoxes| == |dets|
    requires forall i :: 0 <= i < |was| ==> trackBoxes[i] == was[i].box
    requires forall j :: 0 <= j < |dets| ==> detBoxes[j] == dets[j].box
    requires IsCostMatrix(costs, o, trackBoxes, detBoxes)
    ensures Priced(costs, was, dets, o.fuseScore, MaxExtraCost(o))
  {
    hide PairCost, BasePrice, ValidOptions, MaxExtraCost;
    forall i, j | 0 <= i < |was| && 0 <= j < |dets|
      ensures 0.0 <= costs[i][j] - BasePrice(o.fuseScore, was[i].box, dets[j].box) <= MaxExtraCost(o)
    {
      assert costs[i][j] == PairCost(o, trackBoxes[i], detBoxes[j]);
      PairIsPriced(o, trackBoxes[i], detBoxes[j]);
    }
  }

  lemma PairIsPriced(o: Options, track: Box, det: Box)
    requires ValidOptions(o)
    ensures 0.0 <= PairCost(o, track, det) - BasePrice(o.fuseScore, track, det) <= MaxExtraCost(o)
  {
    hide BoxIou, SceneGrid.Cost;
  }

  ghost function Positions(idx: seq<int>): (at: seq<nat>)
    requires forall i :: 0 <= i < |idx| ==> idx[i] >= 0
    ensures at == idx
  {
    idx
  }

  /** Every detection is matched or left, and not both. */
  lemma PartitionCounts(r: Result, tracks: nat, dets: nat)
    requires IsPartition(r, tracks, dets)
    ensures |r.matches| + |r.unmatchedDetections| <= dets
  {
    PartitionFacts(r, tracks, dets);
    var taken: seq<nat> := seq(|r.matches|, k requires 0 <= k < |r.matches| => r.matches[k].detectionIndex);
    var left: seq<nat> := seq(|r.unmatchedDetections|, k requires 0 <= k < |r.unmatchedDetections| => r.unmatchedDetections[k]);
    var all := taken + left;
    forall i, j | 0 <= i < j < |all|
      ensures all[i] != all[j]
    {
      if i < |taken| <= j {
        assert left[j - |taken|] in r.unmatchedDetections && IsDetected(r.matches, taken[i]);
      }
    }
    DistinctFit(all, Below(dets));
  }

  function Below(n: nat): (s: set<nat>)
    ensures |s| == n && forall k: nat :: k in s <==> k < n
  {
    if n == 0 then {} else Below(n - 1) + {n - 1}
  }

  lemma LeftFacts(pool: seq<Track>, r: Result, leftTracks: seq<Track>, dets: seq<Track>, leftDets: seq<Track>, leftAt: seq<nat>)
    requires NoRepeats(pool) && NoRepeats(dets) && IsPartition(r, |pool|, |dets|) && leftAt == r.unmatchedDetections
    requires |leftTracks| == |r.unmatchedTracks| && |leftDets| == |r.unmatchedDetections| && NoRepeats(leftTracks)
    requires forall i :: 0 <= i < |leftTracks| ==> 0 <= r.unmatchedTracks[i] < |pool| && leftTracks[i] == pool[r.unmatchedTracks[i]]
    requires forall i :: 0 <= i < |leftDets| ==> 0 <= leftAt[i] < |dets| && leftDets[i] == dets[leftAt[i]]
    ensures LeftOver(pool, r.matches, leftTracks) && LeftDetections(dets, r.matches, leftDets, leftAt)
  {
    PartitionFacts(r, |pool|, |dets|);
    forall i | 0 <= i < |pool|
      ensures pool[i] in leftTracks <==> !IsMatched(r.matches, |r.matches|, i)
    {
      SelectedAre(pool, r.unmatchedTracks, leftTracks, i);
    }
  }

  /** What a stage means for one track. */
  ghost predicate TrackOutcome(k: Kalman, t: Track, before: Shot, after: Shot, dets: seq<Shot>, source: map<Track, nat>, frame: int)
  {
    if t in source then source[t] < |dets| && after == Updated(k, before, dets[source[t]], frame)
    else after == before
  }

  ghost predicate StageOutcome(k: Kalman, pool: seq<Track>, was: seq<Shot>, now: seq<Shot>, dets: seq<Shot>, source: map<Track, nat>, frame: int)
    requires |was| == |now| == |pool|
  {
    forall i :: 0 <= i < |pool| ==> TrackOutcome(k, pool[i], was[i], now[i], dets, source, frame)
  }

  ghost predicate ListedBySource(pool: seq<Track>, was: seq<Shot>, source: map<Track, nat>, activated: seq<Track>, refound: seq<Track>)
    requires |was| == |pool|
  {
    && (forall t :: t in activated ==> t in pool)
    && (forall t :: t in refound ==> t in pool)
    && forall i :: 0 <= i < |pool| ==>
         && (pool[i] in activated <==> pool[i] in source && was[i].state == Tracked)
         && (pool[i] in refound <==> pool[i] in source && was[i].state != Tracked)
  }

  lemma OutcomeAt(k: Kalman, pool: seq<Track>, was: seq<Shot>, now: seq<Shot>, dets: seq<Shot>, matches: seq<Match>, frame: int, i: nat)
    requires StageDone(k, pool, was, now, dets, matches, frame) && NoRepeats(pool) && i < |pool|
    ensures TrackOutcome(k, pool[i], was[i], now[i], dets, SourceOf(pool, matches, |dets|), frame)
  {
    hide SourceOf, AfterMatches, Updated, NoRepeats, IsMatched, InPool, InDetections;
    var source := SourceOf(pool, matches, |dets|);
    EachUpdatedOnce(k, was, dets, matches, |matches|, frame);
    SourceFacts(pool, matches, |dets|, i);
    if pool[i] in source {
      var m :| 0 <= m < |matches| && matches[m].trackIndex == i && matches[m].detectionIndex == source[pool[i]];
    }
  }

  lemma StageMeans(k: Kalman, pool: seq<Track>, was: seq<Shot>, now: seq<Shot>, dets: seq<Shot>, matches: seq<Match>, frame: int)
    requires StageDone(k, pool, was, now, dets, matches, frame) && NoRepeats(pool)
    ensures StageOutcome(k, pool, was, now, dets, SourceOf(pool, matches, |dets|), frame)
  {
    hide SourceOf, AfterMatches, NoRepeats, TrackOutcome, InPool, InDetections;
    forall i | 0 <= i < |pool|
      ensures TrackOutcome(k, pool[i], was[i], now[i], dets, SourceOf(pool, matches, |dets|), frame)
    {
      OutcomeAt(k, pool, was, now, dets, matches, frame, i);
    }
  }

  /** The sources of a stage are matched detections, one for each matched track. */
  lemma SourcesMatched(pool: seq<Track>, matches: seq<Match>, dets: nat)
    requires InPool(matches, |pool|) && InDetections(matches, dets) && NoRepeats(pool)
    ensures var source := SourceOf(pool, matches, dets);
      && Injective(source)
      && forall t :: t in source ==> t in pool && source[t] < dets && IsDetected(matches, source[t])
  {
    var source := SourceOf(pool, matches, dets);
    SourceInjective(pool, matches, dets);
    hide SourceOf, Injective, NoRepeats;
    forall t | t in source
      ensures t in pool && source[t] < dets && IsDetected(matches, source[t])
    {
      var m := SourceWitness(pool, matches, dets, t);
    }
  }

  lemma PickedMeans(pool: seq<Track>, was: seq<Shot>, dets: nat, matches: seq<Match>)
    requires InPool(matches, |pool|) && InDetections(matches, dets) && NoRepeats(pool) && |was| == |pool|
    ensures ListedBySource(pool, was, SourceOf(pool, matches, dets),
                           Picked(pool, was, matches, |matches|, true), Picked(pool, was, matches, |matches|, false))
  {
    hide SourceOf, Picked, IsMatched;
    forall i | 0 <= i < |pool|
      ensures pool[i] in Picked(pool, was, matches, |matches|, true) <==> pool[i] in SourceOf(pool, matches, dets) && was[i].state == Tracked
      ensures pool[i] in Picked(pool, was, matches, |matches|, false) <==> pool[i] in SourceOf(pool, matches, dets) && was[i].state != Tracked
    {
      SourceFacts(pool, matches, dets, i);
      PickedAreMatched(pool, was, matches, |matches|, true, i);
      PickedAreMatched(pool, was, matches, |matches|, false, i);
    }
    PickedFromPool(pool, was, matches, |matches|, true);
    PickedFromPool(pool, was, matches, |matches|, false);
  }

  lemma {:induction false} PickedFromPool(pool: seq<Track>, was: seq<Shot>, matches: seq<Match>, n: nat, tracked: bool)
    requires n <= |matches| && InPool(matches, |pool|) && |was| == |pool|
    ensures forall t :: t in Picked(pool, was, matches, n, tracked) ==> t in pool
  {
    if n > 0 {
      PickedFromPool(pool, was, matches, n - 1, tracked);
    }
  }

  ghost predicate StageSources(source: map<Track, nat>, pool: seq<Track>, dets: nat, leftAt: seq<nat>)
  {
    && SourcesIn(source, pool, dets)
    && (forall t :: t in source ==> source[t] !in leftAt)
    && forall j :: 0 <= j < dets ==> j in leftAt || IsTaken(source, j)
  }

  /** Tracks of the pool, each with a detection of its own. */
  ghost predicate SourcesIn(source: map<Track, nat>, pool: seq<Track>, dets: nat)
  {
    Injective(source) && forall t :: t in source ==> t in pool && source[t] < dets
  }

  ghost predicate IsTaken(source: map<Track, nat>, j: int)
  {
    exists t :: t in source && source[t] == j
  }

  lemma DetectedIsTaken(pool: seq<Track>, matches: seq<Match>, dets: nat, j: int)
    requires InPool(matches, |pool|) && InDetections(matches, dets) && NoRepeats(pool) && IsDetected(matches, j)
    ensures IsTaken(SourceOf(pool, matches, dets), j)
  {
    var m :| 0 <= m < |matches| && matches[m].detectionIndex == j;
    SourceFacts(pool, matches, dets, matches[m].trackIndex);
    hide SourceOf;
    assert IsMatched(matches, |matches|, matches[m].trackIndex);
  }

  ghost predicate LeftBySource(pool: seq<Track>, source: map<Track, nat>, left: seq<Track>)
  {
    && NoRepeats(left)
    && (forall t :: t in left ==> t in pool && t !in source)
    && (forall t :: t in pool && t !in source ==> t in left)
  }

  ghost predicate ListAt(dets: seq<Track>, left: seq<Track>, at: seq<nat>)
  {
    |left| == |at| && Ascending(at, |dets|) && forall i :: 0 <= i < |at| ==> left[i] == dets[at[i]]
  }

  lemma LeftIsBySource(pool: seq<Track>, dets: seq<Track>, matches: seq<Match>, left: seq<Track>, leftDets: seq<Track>, leftAt: seq<nat>)
    requires InPool(matches, |pool|) && InDetections(matches, |dets|) && NoRepeats(pool)
    requires LeftOver(pool, matches, left) && LeftDetections(dets, matches, leftDets, leftAt)
    ensures LeftBySource(pool, SourceOf(pool, matches, |dets|), left)
    ensures StageSources(SourceOf(pool, matches, |dets|), pool, |dets|, leftAt) && ListAt(dets, leftDets, leftAt)
  {
    LeftTracksBySource(pool, |dets|, matches, left);
    LeftAtBySource(pool, dets, matches, leftDets, leftAt);
  }

  lemma LeftTracksBySource(pool: seq<Track>, dets: nat, matches: seq<Match>, left: seq<Track>)
    requires InPool(matches, |pool|) && InDetections(matches, dets) && NoRepeats(pool) && LeftOver(pool, matches, left)
    ensures LeftBySource(pool, SourceOf(pool, matches, dets), left)
  {
    hide SourceOf, NoRepeats, Injective, IsMatched;
    var source := SourceOf(pool, matches, dets);
    forall i | 0 <= i < |pool|
      ensures pool[i] in left <==> pool[i] !in source
    {
      SourceFacts(pool, matches, dets, i);
    }
    forall t | t in left
      ensures t !in source
    {
      var i :| 0 <= i < |pool| && pool[i] == t;
    }
  }

  lemma LeftAtBySource(pool: seq<Track>, dets: seq<Track>, matches: seq<Match>, leftDets: seq<Track>, leftAt: seq<nat>)
    requires InPool(matches, |pool|) && InDetections(matches, |dets|) && NoRepeats(pool)
    requires LeftDetections(dets, matches, leftDets, leftAt)
    ensures StageSources(SourceOf(pool, matches, |dets|), pool, |dets|, leftAt) && ListAt(dets, leftDets, leftAt)
  {
    SourcesMatched(pool, matches, |dets|);
    hide SourceOf, NoRepeats, Injective, IsDetected, IsTaken;
    forall j | 0 <= j < |dets| && IsDetected(matches, j)
      ensures IsTaken(SourceOf(pool, matches, |dets|), j)
    {
      DetectedIsTaken(pool, matches, |dets|, j);
    }
  }

  method MarkLost(ts: seq<Track>, ghost all: seq<Track>)
    requires NoRepeats(ts)
    modifies ts
    ensures MarkedLost(all, ts, old(Shots(all)), Shots(all))
  {
    for i := 0 to |ts|
      invariant forall j :: 0 <= j < i ==> ts[j].Now() == old(ts[j].Now()).(state := Lost)
      invariant forall j :: i <= j < |ts| ==> ts[j].Now() == old(ts[j].Now())
    {
      ts[i].SetState(Lost);
    }
    forall i | 0 <= i < |all|
      ensures Shots(all)[i] == if all[i] in ts then old(Shots(all))[i].(state := Lost) else old(Shots(all))[i]
    {
      if all[i] in ts {
        var j :| 0 <= j < |ts| && ts[j] == all[i];
      }
    }
  }

  /** A track after the first stage: matched to a high detection, or only moved on. */
  ghost predicate HighFate(k: Kalman, t: Track, before: Shot, after: Shot, high: seq<Shot>, source: map<Track, nat>, frame: int)
  {
    if t in source then source[t] < |high| && after == Updated(k, Predicted(k, before), high[source[t]], frame)
    else after == Predicted(k, before)
  }

  /** A track after the second stage: matched to a low detection, or lost. */
  ghost predicate LowFate(k: Kalman, t: Track, before: Shot, after: Shot, low: seq<Shot>, source: map<Track, nat>, frame: int)
  {
    if t in source then source[t] < |low| && after == Updated(k, before, low[source[t]], frame)
    else after == before.(state := Lost)
  }

  /** The fates of all tracks of a list in the first stage, from what they were and what they are. */
  ghost predicate HighFates(k: Kalman, ts: seq<Track>, was: seq<Shot>, now: seq<Shot>, high: seq<Shot>, source: map<Track, nat>, frame: int)
  {
    && |was| == |now| == |ts|
    && forall i :: 0 <= i < |ts| ==> HighFate(k, ts[i], was[i], now[i], high, source, frame)
  }

  ghost predicate LowFates(k: Kalman, ts: seq<Track>, was: seq<Shot>, now: seq<Shot>, low: seq<Shot>, source: map<Track, nat>, frame: int)
  {
    && |was| == |now| == |ts|
    && forall i :: 0 <= i < |ts| ==> LowFate(k, ts[i], was[i], now[i], low, source, frame)
  }

  lemma ListedBefore(k: Kalman, pool: seq<Track>, was: seq<Shot>, source: map<Track, nat>, activated: seq<Track>, refound: seq<Track>)
    requires |was| == |pool| && ListedBySource(pool, MovedOn(k, was), source, activated, refound)
    ensures ListedBySource(pool, was, source, activated, refound)
  {
    assert forall i :: 0 <= i < |pool| ==> MovedOn(k, was)[i].state == was[i].state;
    hide Predicted;
  }

  /** Moved on and then matched, or only moved on. */
  lemma FirstStageFates(k: Kalman, pool: seq<Track>, was: seq<Shot>, now: seq<Shot>, high: seq<Shot>, source: map<Track, nat>, frame: int)
    requires |was| == |now| == |pool| && StageOutcome(k, pool, MovedOn(k, was), now, high, source, frame)
    ensures HighFates(k, pool, was, now, high, source, frame)
  {
    hide TrackOutcome, HighFate, Predicted;
    forall i | 0 <= i < |pool|
      ensures HighFate(k, pool[i], was[i], now[i], high, source, frame)
    {
      PredictedFate(k, pool[i], was[i], MovedOn(k, was)[i], now[i], high, source, frame);
    }
  }

  lemma PredictedFate(k: Kalman, t: Track, before: Shot, moved: Shot, after: Shot, high: seq<Shot>, source: map<Track, nat>, frame: int)
    requires moved == Predicted(k, before) && TrackOutcome(k, t, moved, after, high, source, frame)
    ensures HighFate(k, t, before, after, high, source, frame)
  {
  }

  /** Matched, or marked as lost. */
  ghost predicate MarkedLost(ts: seq<Track>, marked: seq<Track>, was: seq<Shot>, now: seq<Shot>)
  {
    && |was| == |now| == |ts|
    && forall i :: 0 <= i < |ts| ==> now[i] == if ts[i] in marked then was[i].(state := Lost) else was[i]
  }

  lemma SecondStageFates(k: Kalman, ts: seq<Track>, was: seq<Shot>, matched: seq<Shot>, now: seq<Shot>, low: seq<Shot>,
                         source: map<Track, nat>, newlyLost: seq<Track>, frame: int)
    requires |was| == |matched| == |ts| && StageOutcome(k, ts, was, matched, low, source, frame)
    requires LeftBySource(ts, source, newlyLost) && MarkedLost(ts, newlyLost, matched, now)
    ensures LowFates(k, ts, was, now, low, source, frame)
  {
    hide NoRepeats;
    forall i | 0 <= i < |ts|
      ensures LowFate(k, ts[i], was[i], now[i], low, source, frame)
    {
      assert TrackOutcome(k, ts[i], was[i], matched[i], low, source, frame);
      assert ts[i] in newlyLost <==> ts[i] !in source;
      hide Updated;
    }
  }

  method StillTracked(ts: seq<Track>) returns (out: seq<Track>)
    ensures forall t :: t in out <==> t in ts && t.state == Tracked
    ensures NoRepeats(ts) ==> NoRepeats(out)
  {
    out := [];
    for i := 0 to |ts|
      invariant forall t :: t in out <==> t in ts[..i] && t.state == Tracked
      invariant NoRepeats(ts) ==> NoRepeats(out)
    {
      assert ts[..i + 1] == ts[..i] + [ts[i]];
      if ts[i].state == Tracked {
        if NoRepeats(ts) {
          assert ts[i] !in ts[..i];
        }
        out := out + [ts[i]];
      }
    }
    assert ts[..|ts|] == ts;
  }

  /** What a frame does to a track that was being tracked. */
  ghost predicate TrackedFate(k: Kalman, t: Track, before: Shot, after: Shot, high: seq<Shot>, highSource: map<Track, nat>,
                              low: seq<Shot>, lowSource: map<Track, nat>, frame: int)
  {
    if t in highSource then highSource[t] < |high| && after == Updated(k, Predicted(k, before), high[highSource[t]], frame)
    else if t in lowSource then lowSource[t] < |low| && after == Updated(k, Predicted(k, before), low[lowSource[t]], frame)
    else after == Predicted(k, before).(state := Lost)
  }

  lemma FatesCombine(k: Kalman, t: Track, before: Shot, mid: Shot, after: Shot, high: seq<Shot>, highSource: map<Track, nat>,
                     low: seq<Shot>, lowSource: map<Track, nat>, frame: int)
    requires before.state == Tracked && before.isActivated && HighFate(k, t, before, mid, high, highSource, frame)
    requires if t in highSource then after == mid else LowFate(k, t, mid, after, low, lowSource, frame)
    ensures TrackedFate(k, t, before, after, high, highSource, low, lowSource, frame)
  {
  }

  ghost predicate TrackedFates(k: Kalman, ts: seq<Track>, was: seq<Shot>, now: seq<Shot>, high: seq<Shot>, highSource: map<Track, nat>,
                               low: seq<Shot>, lowSource: map<Track, nat>, frame: int)
  {
    && |was| == |now| == |ts|
    && forall i :: 0 <= i < |ts| ==> TrackedFate(k, ts[i], was[i], now[i], high, highSource, low, lowSource, frame)
  }

  /** Every track of the lists is activated, each list has its own state, and no id is used twice. */
  ghost predicate ListsByState(tracked: seq<Track>, lost: seq<Track>)
    reads tracked, lost
  {
    && DistinctIds(tracked + lost)
    && (forall i :: 0 <= i < |tracked| ==> tracked[i].state == Tracked && tracked[i].isActivated)
    && (forall i :: 0 <= i < |lost| ==> lost[i].state == Lost && lost[i].isActivated)
  }

  /** The first n are tracked, the others lost, and all activated. */
  ghost predicate InState(shots: seq<Shot>, n: nat)
  {
    forall i :: 0 <= i < |shots| ==> shots[i].isActivated && shots[i].state == if i < n then Tracked else Lost
  }

  lemma ListsInState(tracked: seq<Track>, lost: seq<Track>)
    requires ListsByState(tracked, lost)
    ensures NoRepeats(tracked + lost) && Shots(tracked + lost) == Shots(tracked) + Shots(lost)
    ensures InState(Shots(tracked) + Shots(lost), |tracked|)
  {
    DistinctIdsDoNotRepeat(tracked + lost);
    ShotsJoin(tracked, lost);
  }

  lemma DistinctIdsDoNotRepeat(ts: seq<Track>)
    requires DistinctIds(ts)
    ensures NoRepeats(ts)
  {
  }

  lemma InOneList(tracked: seq<Track>, lost: seq<Track>, t: Track)
    requires NoRepeats(tracked + lost)
    ensures t in tracked + lost <==> t in tracked || t in lost
    ensures !(t in tracked && t in lost)
    ensures t in tracked ==> exists i :: 0 <= i < |tracked| && tracked[i] == t == (tracked + lost)[i]
    ensures t in lost ==> exists i :: |tracked| <= i < |tracked + lost| && lost[i - |tracked|] == t == (tracked + lost)[i]
  {
    var pool := tracked + lost;
    if t in tracked {
      var i :| 0 <= i < |tracked| && tracked[i] == t;
      assert pool[i] == t;
    }
    if t in lost {
      var i :| 0 <= i < |lost| && lost[i] == t;
      assert pool[|tracked| + i] == t;
    }
  }

  /** The matched tracked ones go on, the matched others are found again. */
  ghost predicate FirstLists(tracked: seq<Track>, lost: seq<Track>, activated: seq<Track>, refound: seq<Track>, source: map<Track, nat>)
  {
    && (forall t :: t in activated ==> t in tracked && t in source)
    && (forall t :: t in tracked && t in source ==> t in activated)
    && (forall t :: t in refound ==> t in lost && t in source)
    && (forall t :: t in lost && t in source ==> t in refound)
  }

  lemma ListedMembers(tracked: seq<Track>, lost: seq<Track>, was: seq<Shot>, source: map<Track, nat>, activated: seq<Track>, refound: seq<Track>)
    requires |was| == |tracked| + |lost| && ListedBySource(tracked + lost, was, source, activated, refound)
    requires NoRepeats(tracked + lost) && InState(was, |tracked|)
    ensures FirstLists(tracked, lost, activated, refound, source)
  {
    forall t
      ensures t in activated <==> t in tracked && t in source
      ensures t in refound <==> t in lost && t in source
    {
      InOneList(tracked, lost, t);
      hide NoRepeats;
    }
  }

  ghost predicate AllOf(shots: seq<Shot>, state: TrackState)
  {
    forall i :: 0 <= i < |shots| ==> shots[i].state == state
  }

  lemma FirstInState(tracked: seq<Shot>, lost: seq<Shot>)
    requires InState(tracked + lost, |tracked|)
    ensures InState(tracked, |tracked|) && InState(lost, 0)
  {
    assert forall i :: 0 <= i < |tracked| ==> (tracked + lost)[i] == tracked[i];
    assert forall i :: 0 <= i < |lost| ==> (tracked + lost)[|tracked| + i] == lost[i];
  }

  /** Where all are tracked, the matched ones are those that go on. */
  lemma MatchedAreListed(pool: seq<Track>, was: seq<Shot>, source: map<Track, nat>, dets: nat, activated: seq<Track>, refound: seq<Track>)
    requires |was| == |pool| && AllOf(was, Tracked) && ListedBySource(pool, was, source, activated, refound) && SourcesIn(source, pool, dets)
    ensures forall t :: t in activated <==> t in source
  {
    hide Injective;
    forall t
      ensures t in activated <==> t in source
    {
      if t in pool {
        var i :| 0 <= i < |pool| && pool[i] == t;
      }
    }
  }

  lemma LeftFromPool(pool: seq<Track>, source: map<Track, nat>, left: seq<Track>)
    requires LeftBySource(pool, source, left)
    ensures NoRepeats(left) && forall i :: 0 <= i < |left| ==> left[i] in pool
  {
    assert forall i :: 0 <= i < |left| ==> left[i] in left;
    hide NoRepeats;
  }

  lemma RemainingApart(tracked: seq<Track>, lost: seq<Track>, remaining: seq<Track>, matched: map<Track, nat>, low: seq<Track>)
    requires NoRepeats(tracked + lost) && Unmatched(remaining, tracked, matched) && Apart(tracked + lost, low)
    ensures Apart(remaining, low)
    ensures forall i :: 0 <= i < |remaining| ==> remaining[i] in tracked
    ensures forall t :: t in lost ==> t !in remaining
    ensures forall t :: t in remaining ==> t !in matched
  {
    assert forall i :: 0 <= i < |remaining| ==> remaining[i] in remaining;
    ApartPart(tracked + lost, low, remaining);
    LostAside(tracked, lost, remaining);
  }

  lemma SourcesOfPart(source: map<Track, nat>, part: seq<Track>, pool: seq<Track>, dets: nat)
    requires SourcesIn(source, part, dets) && forall i :: 0 <= i < |part| ==> part[i] in pool
    ensures SourcesIn(source, pool, dets) && forall t :: t in source ==> t in part
  {
    hide Injective;
  }

  ghost predicate AllTracked(ts: seq<Track>)
    reads ts
  {
    forall t :: t in ts ==> t.state == Tracked
  }

  /** What is left for the second stage are the tracked ones that were not matched. */
  lemma RemainingAre(k: Kalman, tracked: seq<Track>, lost: seq<Track>, was: seq<Shot>, high: seq<Shot>, source: map<Track, nat>,
                     left: seq<Track>, remaining: seq<Track>, frame: int)
    requires NoRepeats(tracked + lost) && InState(was, |tracked|)
    requires HighFates(k, tracked + lost, was, Shots(tracked + lost), high, source, frame)
    requires LeftBySource(tracked + lost, source, left)
    requires forall t :: t in remaining <==> t in left && t.state == Tracked
    requires NoRepeats(left) ==> NoRepeats(remaining)
    ensures NoRepeats(remaining) && Unmatched(remaining, tracked, source) && AllTracked(remaining)
  {
    forall t
      ensures t in remaining <==> t in tracked && t !in source
    {
      InOneList(tracked, lost, t);
      hide NoRepeats;
    }
  }

  /** The tracks as they are moved on before the first stage. */
  ghost function MovedOn(k: Kalman, shots: seq<Shot>): (r: seq<Shot>)
    ensures |r| == |shots| && forall i :: 0 <= i < |shots| ==> r[i] == Predicted(k, shots[i])
  {
    seq(|shots|, i requires 0 <= i < |shots| => Predicted(k, shots[i]))
  }

  /** The tracks of the second stage as they stand when it begins. */
  ghost predicate LeftMoved(k: Kalman, tracked: seq<Track>, was: seq<Shot>, remaining: seq<Track>, left: seq<Shot>)
    requires |was| == |tracked|
  {
    && |left| == |remaining|
    && forall i, j :: 0 <= i < |tracked| && 0 <= j < |remaining| && tracked[i] == remaining[j] ==> left[j] == Predicted(k, was[i])
  }

  /** The second stage: the tracks the first left over, matched as well as the low detections allow. */
  ghost predicate LowStage(k: Kalman, tracked: seq<Track>, was: seq<Shot>, remaining: seq<Track>, left: seq<Shot>, low: seq<Shot>,
                           highSource: map<Track, nat>, lowSource: map<Track, nat>, threshold: real, fuse: bool, extra: real)
    requires |was| == |tracked|
  {
    && NoRepeats(remaining)
    && Unmatched(remaining, tracked, highSource)
    && LeftMoved(k, tracked, was, remaining, left)
    && BestMatched(remaining, left, low, lowSource, threshold, fuse, extra)
    && forall t :: t in lowSource ==> t in remaining
  }

  /** Both lists give the same of a track they share. */
  ghost predicate SameShots(a: seq<Track>, s: seq<Shot>, b: seq<Track>, t: seq<Shot>)
  {
    |s| == |a| && |t| == |b| && forall i, j :: 0 <= i < |a| && 0 <= j < |b| && a[i] == b[j] ==> s[i] == t[j]
  }

  lemma ShotsAgree(a: seq<Track>, b: seq<Track>)
    ensures SameShots(a, Shots(a), b, Shots(b))
  {
  }

  lemma LeftAreMoved(k: Kalman, tracked: seq<Track>, was: seq<Shot>, mid: seq<Shot>, remaining: seq<Track>, left: seq<Shot>,
                     high: seq<Shot>, source: map<Track, nat>, frame: int)
    requires HighFates(k, tracked, was, mid, high, source, frame) && Unmatched(remaining, tracked, source)
    requires SameShots(tracked, mid, remaining, left)
    ensures LeftMoved(k, tracked, was, remaining, left)
  {
    hide Predicted, Updated;
    forall i, j | 0 <= i < |tracked| && 0 <= j < |remaining| && tracked[i] == remaining[j]
      ensures left[j] == Predicted(k, was[i])
    {
      assert remaining[j] in remaining;
    }
  }

  lemma ShotsJoin(tracked: seq<Track>, lost: seq<Track>)
    ensures Shots(tracked + lost) == Shots(tracked) + Shots(lost)
  {
    var all := tracked + lost;
    assert forall i :: 0 <= i < |tracked| ==> all[i] == tracked[i];
    assert forall i :: 0 <= i < |lost| ==> all[|tracked| + i] == lost[i];
  }

  /** What became of the joint list, list by list. */
  lemma FatesByList(k: Kalman, tracked: seq<Track>, lost: seq<Track>, wasTracked: seq<Shot>, wasLost: seq<Shot>, nowTracked: seq<Shot>,
                    nowLost: seq<Shot>, high: seq<Shot>, source: map<Track, nat>, frame: int)
    requires |wasTracked| == |nowTracked| == |tracked| && |wasLost| == |nowLost| == |lost|
    requires HighFates(k, tracked + lost, wasTracked + wasLost, nowTracked + nowLost, high, source, frame)
    ensures HighFates(k, tracked, wasTracked, nowTracked, high, source, frame)
    ensures HighFates(k, lost, wasLost, nowLost, high, source, frame)
  {
    hide HighFate;
    forall i | 0 <= i < |tracked|
      ensures HighFate(k, tracked[i], wasTracked[i], nowTracked[i], high, source, frame)
    {
      assert (tracked + lost)[i] == tracked[i];
    }
    forall i | 0 <= i < |lost|
      ensures HighFate(k, lost[i], wasLost[i], nowLost[i], high, source, frame)
    {
      assert (tracked + lost)[|tracked| + i] == lost[i];
    }
  }

  lemma LostAside(tracked: seq<Track>, lost: seq<Track>, remaining: seq<Track>)
    requires NoRepeats(tracked + lost) && forall t :: t in remaining ==> t in tracked
    ensures forall t :: t in lost ==> t !in remaining
  {
    forall t | t in lost
      ensures t !in remaining
    {
      InOneList(tracked, lost, t);
    }
  }

  lemma ApartPart(a: seq<Track>, b: seq<Track>, part: seq<Track>)
    requires Apart(a, b) && forall i :: 0 <= i < |part| ==> part[i] in a
    ensures Apart(part, b)
  {
  }

  ghost predicate Unmatched(remaining: seq<Track>, tracked: seq<Track>, source: map<Track, nat>)
  {
    && (forall t :: t in remaining ==> t in tracked && t !in source)
    && (forall t :: t in tracked && t !in source ==> t in remaining)
  }

  /** The tracks with a source are left as they were. */
  ghost predicate KeptWhere(ts: seq<Track>, source: map<Track, nat>, was: seq<Shot>, now: seq<Shot>)
  {
    |was| == |now| == |ts| && forall i :: 0 <= i < |ts| && ts[i] in source ==> now[i] == was[i]
  }

  lemma SameAreKept(ts: seq<Track>, others: seq<Track>, source: map<Track, nat>, was: seq<Shot>, now: seq<Shot>)
    requires |was| == |now| == |ts| && forall t :: t in others ==> t !in source
    requires forall i :: 0 <= i < |ts| && ts[i] !in others ==> now[i] == was[i]
    ensures KeptWhere(ts, source, was, now)
  {
  }

  /** The lists after both stages. */
  ghost predicate StageLists(tracked: seq<Track>, lost: seq<Track>, activated: seq<Track>, refound: seq<Track>, newlyLost: seq<Track>,
                             highSource: map<Track, nat>, lowSource: map<Track, nat>)
  {
    && (forall t :: t in activated ==> t in tracked && (t in highSource || t in lowSource))
    && (forall t :: t in tracked && (t in highSource || t in lowSource) ==> t in activated)
    && (forall t :: t in refound ==> t in lost && t in highSource)
    && (forall t :: t in lost && t in highSource ==> t in refound)
    && (forall t :: t in newlyLost ==> t in tracked && t !in highSource && t !in lowSource)
    && (forall t :: t in tracked && t !in highSource && t !in lowSource ==> t in newlyLost)
    && NoRepeats(newlyLost)
  }

  lemma ListsCombine(tracked: seq<Track>, lost: seq<Track>, remaining: seq<Track>, activated: seq<Track>, refound: seq<Track>,
                     more: seq<Track>, newlyLost: seq<Track>, highSource: map<Track, nat>, lowSource: map<Track, nat>)
    requires FirstLists(tracked, lost, activated, refound, highSource) && Unmatched(remaining, tracked, highSource)
    requires forall t :: t in more <==> t in lowSource
    requires LeftBySource(remaining, lowSource, newlyLost) && forall t :: t in lowSource ==> t in remaining
    ensures StageLists(tracked, lost, activated + more, refound, newlyLost, highSource, lowSource)
    ensures forall t :: t in lowSource ==> t !in highSource
  {
    hide NoRepeats;
  }

  /** Both stages together, from what each did to its list. */
  lemma StagesCombine(k: Kalman, tracked: seq<Track>, remaining: seq<Track>, was: seq<Shot>, mid: seq<Shot>, now: seq<Shot>,
                      midLeft: seq<Shot>, nowLeft: seq<Shot>, high: seq<Shot>, highSource: map<Track, nat>, low: seq<Shot>,
                      lowSource: map<Track, nat>, frame: int)
    requires InState(was, |tracked|) && Unmatched(remaining, tracked, highSource)
    requires HighFates(k, tracked, was, mid, high, highSource, frame)
    requires LowFates(k, remaining, midLeft, nowLeft, low, lowSource, frame)
    requires SameShots(tracked, mid, remaining, midLeft) && SameShots(tracked, now, remaining, nowLeft)
    requires KeptWhere(tracked, highSource, mid, now)
    ensures TrackedFates(k, tracked, was, now, high, highSource, low, lowSource, frame)
  {
    hide HighFate, LowFate, TrackedFate;
    forall i | 0 <= i < |tracked|
      ensures TrackedFate(k, tracked[i], was[i], now[i], high, highSource, low, lowSource, frame)
    {
      if tracked[i] !in highSource {
        var j :| 0 <= j < |remaining| && remaining[j] == tracked[i];
      }
      FatesCombine(k, tracked[i], was[i], mid[i], now[i], high, highSource, low, lowSource, frame);
    }
  }

  lemma ApartFromBoth(tracked: seq<Track>, lost: seq<Track>, dets: seq<Track>)
    requires Apart(tracked + lost, dets)
    ensures forall j :: 0 <= j < |dets| ==> dets[j] !in tracked && dets[j] !in lost
  {
    var pool := tracked + lost;
    assert forall i :: 0 <= i < |tracked| ==> pool[i] == tracked[i];
    assert forall i :: 0 <= i < |lost| ==> pool[|tracked| + i] == lost[i];
  }

  /** A detection that has become a track. */
  ghost predicate IsStarted(k: Kalman, s: Shot, before: Shot, frame: int, id: int)
  {
    s == Activated(k, before, frame, id)
  }

  /** Every track of the first list is in the second. */
  ghost predicate Part(part: seq<Track>, all: seq<Track>)
  {
    forall t :: t in part ==> t in all
  }

  lemma HasIdIsMember(all: seq<Track>, part: seq<Track>, t: Track)
    requires OneTrackPerId(all) && Part(part, all) && t in all
    ensures HasId(part, t.id) <==> t in part
  {
    if HasId(part, t.id) {
      var i :| 0 <= i < |part| && part[i].id == t.id;
      assert part[i] in part;
    }
  }

  /** Where an id names one track only, a list without repeats has distinct ids. */
  lemma UniqueIsDistinct(all: seq<Track>, part: seq<Track>)
    requires OneTrackPerId(all) && Part(part, all) && NoRepeats(part)
    ensures DistinctIds(part)
  {
    assert forall i :: 0 <= i < |part| ==> part[i] in part;
  }

  lemma JoinedApart(a: seq<Track>, b: seq<Track>)
    requires NoRepeats(a) && NoRepeats(b) && forall t :: t in a ==> t !in b
    ensures NoRepeats(a + b)
  {
    assert forall i :: 0 <= i < |a| ==> a[i] in a;
    assert forall i :: 0 <= i < |b| ==> b[i] in b;
  }

  /** The lost list after a frame: those still lost, and those newly lost. */
  lemma LostAre(all: seq<Track>, lost: seq<Track>, trackedNext: seq<Track>, newlyLost: seq<Track>, removed: seq<Track>,
                some: seq<Track>, out: seq<Track>)
    requires OneTrackPerId(all) && Part(lost, all) && Part(trackedNext, all) && Part(newlyLost, all) && Part(removed, all)
    requires forall t :: t in some <==> t in lost && !HasId(trackedNext, t.id)
    requires forall t :: t in out <==> t in some + newlyLost && !HasId(removed, t.id)
    requires forall t :: t in trackedNext ==> t.state == Tracked
    requires forall t :: t in lost && t.state == Tracked ==> t in trackedNext
    requires forall t :: t in removed <==> t in lost && t.state == Removed
    requires forall t :: t in newlyLost ==> t.state == Lost
    ensures forall t :: t in out <==> (t in lost && t.state == Lost) || t in newlyLost
  {
    forall t | t in lost || t in newlyLost
      ensures t in out <==> (t in lost && t.state == Lost) || t in newlyLost
    {
      HasIdIsMember(all, trackedNext, t);
      HasIdIsMember(all, removed, t);
    }
  }

  lemma SomeLostDistinct(all: seq<Track>, tracked: seq<Track>, lost: seq<Track>, some: seq<Track>, newlyLost: seq<Track>)
    requires OneTrackPerId(all) && Part(tracked, all) && Part(lost, all) && NoRepeats(tracked + lost) && NoRepeats(newlyLost)
    requires Part(newlyLost, tracked) && Part(some, lost) && (DistinctIds(lost) ==> DistinctIds(some))
    ensures DistinctIds(some + newlyLost)
  {
    assert forall i :: 0 <= i < |lost| ==> (tracked + lost)[|tracked| + i] == lost[i];
    UniqueIsDistinct(all, lost);
    DistinctIdsDoNotRepeat(some);
    forall t | t in some
      ensures t !in newlyLost
    {
      InOneList(tracked, lost, t);
    }
    JoinedApart(some, newlyLost);
    UniqueIsDistinct(all, some + newlyLost);
  }

  lemma OneTrackPerPart(all: seq<Track>, a: seq<Track>, b: seq<Track>)
    requires OneTrackPerId(all) && Part(a, all) && Part(b, all)
    ensures OneTrackPerId(a + b)
  {
  }

  lemma NextDistinct(all: seq<Track>, tracked: seq<Track>, lost: seq<Track>)
    requires OneTrackPerId(all) && Part(tracked, all) && Part(lost, all) && DistinctIds(tracked) && DistinctIds(lost)
    requires (forall t :: t in tracked ==> t.state == Tracked) && forall t :: t in lost ==> t.state == Lost
    ensures DistinctIds(tracked + lost)
  {
    DistinctIdsDoNotRepeat(tracked);
    DistinctIdsDoNotRepeat(lost);
    JoinedApart(tracked, lost);
    UniqueIsDistinct(all, tracked + lost);
  }

  /** Without tracks no detection is taken. */
  lemma NothingTaken(dets: seq<Track>, left: seq<Track>, at: seq<nat>, source: map<Track, nat>)
    requires StageSources(source, [], |dets|, at) && ListAt(dets, left, at) && NoRepeats(dets)
    ensures NoRepeats(left) && forall t :: t in left <==> t in dets
  {
    hide Injective;
    assert forall i :: 0 <= i < |left| ==> left[i] == dets[at[i]];
    forall t | t in dets
      ensures t in left
    {
      var j :| 0 <= j < |dets| && dets[j] == t;
      assert !IsTaken(source, j);
      var i :| 0 <= i < |at| && at[i] == j;
      assert left[i] == t;
    }
  }

  /** What a frame does to a lost track: found again, lost still, or removed when lost for longer than the buffer. */
  ghost predicate LostFate(k: Kalman, t: Track, before: Shot, after: Shot, high: seq<Shot>, source: map<Track, nat>, frame: int, buffer: int)
  {
    if t in source then source[t] < |high| && after == Updated(k, Predicted(k, before), high[source[t]], frame)
    else after == Predicted(k, before).(state := if frame - before.frameId > buffer then Removed else Lost)
  }

  /** The started tracks are exactly the high detections nobody took that score high enough, under consecutive ids. */
  ghost predicate StartedFrom(k: Kalman, started: seq<Track>, now: seq<Shot>, high: seq<Track>, was: seq<Shot>, source: map<Track, nat>,
                              frame: int, id: int, threshold: real)
    requires |was| == |high| && |now| == |started|
  {
    && NoRepeats(started)
    && (forall t :: t in started ==> t in high)
    && (forall j :: 0 <= j < |high| ==> (high[j] in started <==> !IsTaken(source, j) && was[j].score >= threshold))
    && (forall i, j :: 0 <= i < |started| && 0 <= j < |high| && started[i] == high[j] ==> IsStarted(k, now[i], was[j], frame, id + i))
  }

  lemma LeftAgree(high: seq<Track>, left: seq<Track>)
    ensures forall i, j :: 0 <= i < |left| && 0 <= j < |high| && left[i] == high[j] ==> Shots(left)[i] == Shots(high)[j]
  {
  }

  lemma {:induction false} AscendingShort(at: seq<nat>, n: nat, k: nat)
    requires Ascending(at, n) && k <= |at|
    ensures k <= n && (k > 0 ==> at[k - 1] >= k - 1)
  {
    if k > 0 {
      AscendingShort(at, n, k - 1);
      assert at[k - 1] < n && (k > 1 ==> at[k - 2] < at[k - 1]);
    }
  }

  lemma ListNoRepeats(dets: seq<Track>, left: seq<Track>, at: seq<nat>)
    requires ListAt(dets, left, at) && NoRepeats(dets)
    ensures NoRepeats(left)
  {
  }

  /** The left detections are those nobody took. */
  lemma LeftMembers(dets: seq<Track>, left: seq<Track>, at: seq<nat>, source: map<Track, nat>, pool: seq<Track>)
    requires ListAt(dets, left, at) && NoRepeats(dets) && StageSources(source, pool, |dets|, at)
    ensures forall t :: t in left ==> t in dets
    ensures forall j :: 0 <= j < |dets| ==> (dets[j] in left <==> !IsTaken(source, j))
  {
    hide SourcesIn;
    forall j | 0 <= j < |dets|
      ensures dets[j] in left <==> !IsTaken(source, j)
    {
      if dets[j] in left {
        var i :| 0 <= i < |left| && left[i] == dets[j];
        assert at[i] == j;
      }
      if j in at {
        var i :| 0 <= i < |at| && at[i] == j;
        assert left[i] == dets[j];
      }
    }
  }

  lemma LostDoNotRepeat(tracked: seq<Track>, lost: seq<Track>)
    requires NoRepeats(tracked + lost)
    ensures NoRepeats(tracked) && NoRepeats(lost) && forall i :: 0 <= i < |lost| ==> lost[i] !in tracked
  {
    var pool := tracked + lost;
    assert forall i :: 0 <= i < |tracked| ==> pool[i] == tracked[i];
    assert forall i :: 0 <= i < |lost| ==> pool[|tracked| + i] == lost[i];
  }

  /** The started tracks are those of the list that score high enough, under consecutive ids. */
  ghost predicate StartedAmong(k: Kalman, started: seq<Track>, now: seq<Shot>, dets: seq<Track>, was: seq<Shot>, frame: int, id: int,
                               threshold: real)
    requires |was| == |dets| && |now| == |started|
  {
    && NoRepeats(started)
    && (forall t :: t in started ==> t in dets)
    && (forall j :: 0 <= j < |dets| ==> (dets[j] in started <==> was[j].score >= threshold))
    && (forall i, j :: 0 <= i < |started| && 0 <= j < |dets| && started[i] == dets[j] ==> IsStarted(k, now[i], was[j], frame, id + i))
  }

  /** The started tracks among the first n detections; the other detections are as they were. */
  ghost predicate StartedSoFar(k: Kalman, started: seq<Track>, now: seq<Shot>, dets: seq<Track>, was: seq<Shot>, all: seq<Shot>, n: nat,
                               frame: int, id: int, threshold: real)
  {
    && |was| == |all| == |dets|
    && |now| == |started|
    && n <= |dets|
    && NoRepeats(started)
    && (forall t :: t in started ==> t in dets[..n])
    && (forall j :: 0 <= j < n ==> (dets[j] in started <==> was[j].score >= threshold))
    && (forall i, j :: 0 <= i < |started| && 0 <= j < |dets| && started[i] == dets[j] ==> IsStarted(k, now[i], was[j], frame, id + i))
    && (forall j :: 0 <= j < |dets| && dets[j] !in started ==> all[j] == was[j])
  }

  lemma NothingStarted(k: Kalman, dets: seq<Track>, was: seq<Shot>, frame: int, id: int, threshold: real)
    requires |was| == |dets|
    ensures StartedSoFar(k, [], [], dets, was, was, 0, frame, id, threshold)
  {
  }

  lemma NotYetStarted(k: Kalman, started: seq<Track>, now: seq<Shot>, dets: seq<Track>, was: seq<Shot>, all: seq<Shot>, n: nat,
                      frame: int, id: int, threshold: real)
    requires StartedSoFar(k, started, now, dets, was, all, n, frame, id, threshold) && n < |dets| && NoRepeats(dets)
    ensures |was| == |dets| && |now| == |started| && dets[n] !in started && all[n] == was[n]
    ensures forall i :: 0 <= i < |started| ==> started[i] != dets[n]
    ensures forall j :: 0 <= j < |dets| && j != n ==> dets[j] != dets[n]
  {
    assert dets[n] !in dets[..n];
  }

  lemma NextStarted(k: Kalman, started: seq<Track>, now: seq<Shot>, dets: seq<Track>, was: seq<Shot>, all: seq<Shot>, n: nat,
                    frame: int, id: int, threshold: real)
    requires StartedSoFar(k, started, now, dets, was, all, n, frame, id, threshold) && n < |dets| && NoRepeats(dets)
    requires |was| == |all| == |dets|
    ensures was[n].score < threshold ==> StartedSoFar(k, started, now, dets, was, all, n + 1, frame, id, threshold)
    ensures var next := Activated(k, was[n], frame, id + |started|);
      was[n].score >= threshold ==>
        StartedSoFar(k, started + [dets[n]], now + [next], dets, was, all[n := next], n + 1, frame, id, threshold)
  {
    NotYetStarted(k, started, now, dets, was, all, n, frame, id, threshold);
    assert dets[..n + 1] == dets[..n] + [dets[n]];
    hide Activated;
    if was[n].score >= threshold {
      OneMoreStarted(k, started, now, dets, was, n, frame, id);
    }
  }

  lemma OneMoreStarted(k: Kalman, started: seq<Track>, now: seq<Shot>, dets: seq<Track>, was: seq<Shot>, n: nat, frame: int, id: int)
    requires |was| == |dets| && |now| == |started| && n < |dets| && NoRepeats(started) && NoRepeats(dets) && dets[n] !in started
    requires forall i, j :: 0 <= i < |started| && 0 <= j < |dets| && started[i] == dets[j] ==> IsStarted(k, now[i], was[j], frame, id + i)
    ensures var more, shots := started + [dets[n]], now + [Activated(k, was[n], frame, id + |started|)];
      && NoRepeats(more)
      && forall i, j :: 0 <= i < |more| && 0 <= j < |dets| && more[i] == dets[j] ==> IsStarted(k, shots[i], was[j], frame, id + i)
  {
    hide Activated;
  }

  lemma AllStarted(k: Kalman, started: seq<Track>, now: seq<Shot>, dets: seq<Track>, was: seq<Shot>, all: seq<Shot>,
                   frame: int, id: int, threshold: real)
    requires StartedSoFar(k, started, now, dets, was, all, |dets|, frame, id, threshold)
    ensures |was| == |dets| && |now| == |started| && StartedAmong(k, started, now, dets, was, frame, id, threshold)
    ensures NoRepeats(started)
  {
    assert dets[..|dets|] == dets;
    hide IsStarted;
  }

  lemma StartedMeans(k: Kalman, started: seq<Track>, now: seq<Shot>, left: seq<Track>, wasLeft: seq<Shot>, high: seq<Track>, was: seq<Shot>,
                     source: map<Track, nat>, frame: int, id: int, threshold: real)
    requires |was| == |high| && |wasLeft| == |left| && |now| == |started| && StartedAmong(k, started, now, left, wasLeft, frame, id, threshold)
    requires forall t :: t in left ==> t in high
    requires forall j :: 0 <= j < |high| ==> (high[j] in left <==> !IsTaken(source, j))
    requires forall i, j :: 0 <= i < |left| && 0 <= j < |high| && left[i] == high[j] ==> wasLeft[i] == was[j]
    ensures StartedFrom(k, started, now, high, was, source, frame, id, threshold)
  {
    hide IsStarted, NoRepeats, IsTaken;
    forall j | 0 <= j < |high|
      ensures high[j] in started <==> !IsTaken(source, j) && was[j].score >= threshold
    {
      if high[j] in left {
        var i :| 0 <= i < |left| && left[i] == high[j];
      }
    }
    forall i, j | 0 <= i < |started| && 0 <= j < |high| && started[i] == high[j]
      ensures IsStarted(k, now[i], was[j], frame, id + i)
    {
      assert started[i] in started;
      var l :| 0 <= l < |left| && left[l] == started[i];
    }
  }

  lemma LostFateOf(k: Kalman, t: Track, before: Shot, mid: Shot, after: Shot, high: seq<Shot>, source: map<Track, nat>, frame: int, buffer: int)
    requires before.state == Lost && buffer >= 0 && HighFate(k, t, before, mid, high, source, frame)
    requires after == if frame - mid.frameId > buffer then mid.(state := Removed) else mid
    ensures LostFate(k, t, before, after, high, source, frame, buffer)
    ensures after.state == Removed <==> frame - mid.frameId > buffer
  {
  }

  /** Those not matched for longer than the buffer are removed, the others are as they were. */
  ghost predicate OldRemoved(mid: seq<Shot>, now: seq<Shot>, frame: int, buffer: int)
  {
    && |now| == |mid|
    && forall i :: 0 <= i < |mid| ==> now[i] == if frame - mid[i].frameId > buffer then mid[i].(state := Removed) else mid[i]
  }

  ghost predicate RemovedIfOld(mid: seq<Shot>, now: seq<Shot>, frame: int, buffer: int)
  {
    |now| == |mid| && forall i :: 0 <= i < |mid| ==> (now[i].state == Removed <==> frame - mid[i].frameId > buffer)
  }

  ghost predicate FatesOfLost(k: Kalman, ts: seq<Track>, was: seq<Shot>, now: seq<Shot>, high: seq<Shot>, source: map<Track, nat>,
                              frame: int, buffer: int)
  {
    && |was| == |now| == |ts|
    && forall i :: 0 <= i < |ts| ==> LostFate(k, ts[i], was[i], now[i], high, source, frame, buffer)
  }

  /** The list of the removed ones. */
  ghost predicate ListsOld(lost: seq<Track>, removed: seq<Track>, mid: seq<Shot>, frame: int, buffer: int)
  {
    && |mid| == |lost|
    && (forall t :: t in removed ==> exists i :: 0 <= i < |lost| && lost[i] == t && frame - mid[i].frameId > buffer)
    && forall i :: 0 <= i < |lost| && frame - mid[i].frameId > buffer ==> lost[i] in removed
  }

  lemma LostFates(k: Kalman, lost: seq<Track>, was: seq<Shot>, mid: seq<Shot>, now: seq<Shot>, high: seq<Shot>,
                  source: map<Track, nat>, frame: int, buffer: int)
    requires InState(was, 0) && buffer >= 0 && HighFates(k, lost, was, mid, high, source, frame) && OldRemoved(mid, now, frame, buffer)
    ensures FatesOfLost(k, lost, was, now, high, source, frame, buffer) && RemovedIfOld(mid, now, frame, buffer)
  {
    hide HighFate, LostFate;
    forall i | 0 <= i < |lost|
      ensures LostFate(k, lost[i], was[i], now[i], high, source, frame, buffer)
      ensures now[i].state == Removed <==> frame - mid[i].frameId > buffer
    {
      LostFateOf(k, lost[i], was[i], mid[i], now[i], high, source, frame, buffer);
    }
  }

  lemma StartedApart(k: Kalman, tracked: seq<Track>, lost: seq<Track>, high: seq<Track>, started: seq<Track>, now: seq<Shot>, was: seq<Shot>,
                     source: map<Track, nat>, frame: int, id: int, threshold: real)
    requires |was| == |high| && |now| == |started| && Apart(tracked + lost, high) && StartedFrom(k, started, now, high, was, source, frame, id, threshold)
    ensures forall i :: 0 <= i < |started| ==> started[i] !in tracked && started[i] !in lost
  {
    ApartFromBoth(tracked, lost, high);
    forall i | 0 <= i < |started|
      ensures started[i] !in tracked && started[i] !in lost
    {
      assert started[i] in started && started[i] in high;
    }
  }

  lemma SourcesOfStage(source: map<Track, nat>, pool: seq<Track>, dets: nat, at: seq<nat>)
    requires StageSources(source, pool, dets, at)
    ensures SourcesIn(source, pool, dets)
  {
  }

  lemma OthersKept(tracked: seq<Track>, started: seq<Track>, trackedShots: seq<Shot>, startedShots: seq<Shot>)
    requires |trackedShots| == |tracked| && |startedShots| == |started| && Shots(tracked + started) == trackedShots + startedShots
    ensures Shots(tracked) == trackedShots && Shots(started) == startedShots
  {
    ShotsJoin(tracked, started);
    SameHalves(Shots(tracked), Shots(started), trackedShots, startedShots);
  }

  lemma SameHalves(a: seq<Shot>, b: seq<Shot>, x: seq<Shot>, y: seq<Shot>)
    requires |a| == |x| && a + b == x + y
    ensures a == x && b == y
  {
    assert (a + b)[..|a|] == a && (x + y)[..|x|] == x;
    assert (a + b)[|a|..] == b && (x + y)[|x|..] == y;
  }

  lemma BothDistinct(a: seq<Track>, b: seq<Track>)
    requires DistinctIds(a + b)
    ensures DistinctIds(a) && DistinctIds(b)
  {
    assert forall i :: 0 <= i < |a| ==> (a + b)[i] == a[i];
    assert forall i :: 0 <= i < |b| ==> (a + b)[|a| + i] == b[i];
  }

  lemma PartsDistinct(a: seq<Track>, b: seq<Track>, x: seq<Track>, y: seq<Track>)
    requires DistinctIds(a + b) && DistinctIds(x) && DistinctIds(y)
    requires (forall t :: t in x ==> t in a) && forall t :: t in y ==> t in b
    ensures DistinctIds(x + y)
  {
    forall i, j | 0 <= i < |x| && 0 <= j < |y|
      ensures x[i].id != y[j].id
    {
      assert x[i] in x && y[j] in y;
      var m :| 0 <= m < |a| && a[m] == x[i];
      var n :| 0 <= n < |b| && b[n] == y[j];
      assert (a + b)[m] == x[i] && (a + b)[|a| + n] == y[j];
    }
  }

  // ---------------------------------------------------------------- a frame as a whole

  /** Followed in this frame: matched or started. */
  ghost predicate Followed(k: Kalman, s: Shot, frame: int)
  {
    s.state == Tracked && s.isActivated && s.frameId == frame && s.Framed(k)
  }

  /** The stages of one frame: the lists before them, who took which detection, and what became of everyone. */
  datatype Story = Story(
    tracked: seq<Track>,
    lost: seq<Track>,
    wasTracked: seq<Shot>,
    wasLost: seq<Shot>,
    high: seq<Track>,
    highShots: seq<Shot>,
    highAt: seq<nat>,
    highSource: map<Track, nat>,
    lowShots: seq<Shot>,
    lowAt: seq<nat>,
    lowSource: map<Track, nat>,
    second: seq<Track>,
    left: seq<Shot>,
    started: seq<Track>,
    nowTracked: seq<Shot>,
    nowLost: seq<Shot>,
    nowStarted: seq<Shot>)
  {
    /** Matched or started in this frame. */
    ghost predicate IsFollowed(t: Track)
    {
      (t in tracked && (t in highSource || t in lowSource)) || (t in lost && t in highSource) || t in started
    }

    /** Lost in this frame, or lost before and not for too long. */
    ghost predicate IsLost(t: Track, frame: int, buffer: int)
      requires |wasLost| == |lost|
    {
      || (t in tracked && t !in highSource && t !in lowSource)
      || exists i :: 0 <= i < |lost| && lost[i] == t && t !in highSource && frame - wasLost[i].frameId <= buffer
    }

    /** Lost before, not matched, and for longer than the buffer. */
    ghost predicate IsForgotten(t: Track, frame: int, buffer: int)
      requires |wasLost| == |lost|
    {
      exists i :: 0 <= i < |lost| && lost[i] == t && t !in highSource && frame - wasLost[i].frameId > buffer
    }

    ghost predicate Sized()
    {
      && |wasTracked| == |nowTracked| == |tracked|
      && |wasLost| == |nowLost| == |lost|
      && |highShots| == |highAt| == |high|
      && |nowStarted| == |started|
    }

    /** The fields at the end are those of the tracks now. */
    ghost predicate Ends()
      reads tracked, lost, started
    {
      nowTracked == Shots(tracked) && nowLost == Shots(lost) && nowStarted == Shots(started)
    }
  }

  ghost predicate AllTrackedFates(k: Kalman, s: Story, frame: int)
  {
    TrackedFates(k, s.tracked, s.wasTracked, s.nowTracked, s.highShots, s.highSource, s.lowShots, s.lowSource, frame)
  }

  ghost predicate AllLostFates(k: Kalman, s: Story, frame: int, buffer: int)
  {
    FatesOfLost(k, s.lost, s.wasLost, s.nowLost, s.highShots, s.highSource, frame, buffer)
  }

  /**
    The story is that of the algorithm: the best matching of all tracks with the high detections, then
    of the tracked ones left over with the low ones; every track is as its stage leaves it; and the
    strong high detections nobody took are new tracks.
  */
  ghost predicate Told(k: Kalman, c: Settings, s: Story, extra: real, frame: int, id: int)
  {
    && s.Sized()
    && BestMatched(s.tracked + s.lost, MovedOn(k, s.wasTracked + s.wasLost), s.highShots, s.highSource, c.matchIou, c.fuseScore, extra)
    && LowStage(k, s.tracked, s.wasTracked, s.second, s.left, s.lowShots, s.highSource, s.lowSource, c.lowMatchIou, c.fuseScore, extra)
    && SourcesIn(s.highSource, s.tracked + s.lost, |s.high|)
    && SourcesIn(s.lowSource, s.tracked, |s.lowShots|)
    && AllTrackedFates(k, s, frame)
    && AllLostFates(k, s, frame, c.trackBuffer)
    && StartedFrom(k, s.started, s.nowStarted, s.high, s.highShots, s.highSource, frame, id, c.newTrackThresh)
    && (forall i :: 0 <= i < |s.started| ==> s.started[i] !in s.tracked && s.started[i] !in s.lost)
  }

  /** The story is about these detections, split by score. */
  ghost predicate About(c: Settings, s: Story, dets: seq<Box>)
  {
    SplitByScore(c, dets, s.highAt, s.lowAt) && AreDetections(s.highShots, s.highAt, dets) && AreDetections(s.lowShots, s.lowAt, dets)
  }

  ghost predicate AllFollowed(k: Kalman, ts: seq<Track>, frame: int)
    reads ts
  {
    forall t :: t in ts ==> Followed(k, t.Now(), frame)
  }

  /** What the stages did, told by the lists. */
  ghost predicate StagesDone(k: Kalman, tracked: seq<Track>, lost: seq<Track>, activated: seq<Track>, refound: seq<Track>,
                             newlyLost: seq<Track>, removed: seq<Track>, started: seq<Track>, wasTracked: seq<Shot>, wasLost: seq<Shot>,
                             frame: int, buffer: int, id: int)
    requires |wasTracked| == |tracked| && |wasLost| == |lost|
    reads tracked, lost, activated, refound, newlyLost, removed, started
  {
    && (forall i :: 0 <= i < |tracked| ==> tracked[i].id == wasTracked[i].id && tracked[i].isActivated)
    && (forall i :: 0 <= i < |lost| ==> lost[i].id == wasLost[i].id && lost[i].isActivated)
    && (forall i :: 0 <= i < |started| ==> started[i].id == id + i)
    && (forall t :: t in activated ==> t in tracked || t in started)
    && (forall t :: t in started ==> t in activated)
    && AllFollowed(k, activated, frame)
    && AllFollowed(k, refound, frame)
    && (forall t :: t in refound ==> t in lost)
    && (forall i :: 0 <= i < |tracked| ==> tracked[i] in activated || (tracked[i] in newlyLost && tracked[i].state == Lost && tracked[i].frameId == wasTracked[i].frameId))
    && (forall i :: 0 <= i < |lost| ==>
          (lost[i] in refound || (lost[i].state == Removed && lost[i] in removed)
           || (lost[i].state == Lost && lost[i].frameId == wasLost[i].frameId && frame - lost[i].frameId <= buffer)))
    && (forall t :: t in newlyLost ==> t in tracked && t.state == Lost)
    && (forall t :: t in removed ==> t in lost && t.state == Removed)
  }

  lemma TrackedFateMeans(k: Kalman, t: Track, before: Shot, after: Shot, high: seq<Shot>, highSource: map<Track, nat>,
                         low: seq<Shot>, lowSource: map<Track, nat>, frame: int)
    requires TrackedFate(k, t, before, after, high, highSource, low, lowSource, frame) && before.isActivated
    ensures after.id == before.id && after.isActivated
    ensures t in highSource || t in lowSource ==> Followed(k, after, frame)
    ensures if t in highSource then highSource[t] < |high| && after.score == high[highSource[t]].score
            else t in lowSource ==> lowSource[t] < |low| && after.score == low[lowSource[t]].score
    ensures !(t in highSource || t in lowSource) ==> after.state == Lost && after.frameId == before.frameId
  {
  }

  lemma LostFateMeans(k: Kalman, t: Track, before: Shot, after: Shot, high: seq<Shot>, source: map<Track, nat>, frame: int, buffer: int)
    requires LostFate(k, t, before, after, high, source, frame, buffer) && before.isActivated
    ensures after.id == before.id && after.isActivated
    ensures t in source ==> Followed(k, after, frame) && source[t] < |high| && after.score == high[source[t]].score
    ensures t !in source ==> after.frameId == before.frameId && (after.state == Removed || (after.state == Lost && frame - after.frameId <= buffer))
  {
  }

  /** Every followed track has the score of the detection it came from. */
  ghost predicate Sourced(activated: seq<Track>, refound: seq<Track>, started: seq<Track>, high: seq<Shot>,
                          highSource: map<Track, nat>, low: seq<Shot>, lowSource: map<Track, nat>)
    reads activated, refound
  {
    && (forall t :: t in activated && t !in started ==> SourceScore(t, high, highSource, low, lowSource))
    && (forall t :: t in refound ==> SourceScore(t, high, highSource, low, lowSource))
  }

  ghost predicate SourceScore(t: Track, high: seq<Shot>, highSource: map<Track, nat>, low: seq<Shot>, lowSource: map<Track, nat>)
    reads t
  {
    if t in highSource then highSource[t] < |high| && t.score == high[highSource[t]].score
    else t in lowSource && lowSource[t] < |low| && t.score == low[lowSource[t]].score
  }

  lemma StartedFollowed(k: Kalman, started: seq<Track>, now: seq<Shot>, high: seq<Track>, was: seq<Shot>, source: map<Track, nat>,
                        frame: int, id: int, threshold: real)
    requires |was| == |high| && |now| == |started| && StartedFrom(k, started, now, high, was, source, frame, id, threshold)
    ensures forall i :: 0 <= i < |started| ==> now[i].id == id + i && Followed(k, now[i], frame)
  {
    forall i | 0 <= i < |started|
      ensures now[i].id == id + i && Followed(k, now[i], frame)
    {
      assert started[i] in started;
      var j :| 0 <= j < |high| && high[j] == started[i];
      assert IsStarted(k, now[i], was[j], frame, id + i);
    }
  }

  /** Ids from 1 up to the next one, each used once. */
  ghost predicate IdsOf(shots: seq<Shot>, next: int)
  {
    && (forall i :: 0 <= i < |shots| ==> 1 <= shots[i].id < next)
    && (forall i, j :: 0 <= i < j < |shots| ==> shots[i].id != shots[j].id)
  }

  /** Matching moves no id and new tracks get new ones, so an id still names one track only. */
  lemma IdsStayUnique(tracked: seq<Track>, lost: seq<Track>, activated: seq<Track>, started: seq<Track>, was: seq<Shot>, id: int)
    requires |was| == |tracked| + |lost| && IdsOf(was, id)
    requires forall i :: 0 <= i < |was| ==> (tracked + lost)[i].id == was[i].id
    requires forall i :: 0 <= i < |started| ==> started[i].id == id + i
    requires forall t :: t in activated ==> t in tracked || t in started
    ensures DistinctIds(tracked + lost) && OneTrackPerId(tracked + lost + activated)
  {
    var pool := tracked + lost;
    forall t, u | t in pool + activated && u in pool + activated && t.id == u.id
      ensures t == u
    {
      IdAndPlace(pool, started, was, id, t);
      IdAndPlace(pool, started, was, id, u);
    }
    assert pool + activated == tracked + lost + activated;
  }

  lemma IdAndPlace(pool: seq<Track>, started: seq<Track>, was: seq<Shot>, id: int, t: Track)
    requires |was| == |pool| && IdsOf(was, id) && forall i :: 0 <= i < |was| ==> pool[i].id == was[i].id
    requires forall i :: 0 <= i < |started| ==> started[i].id == id + i
    requires t in pool || t in started
    ensures t.id < id ==> exists i :: 0 <= i < |pool| && pool[i] == t && was[i].id == t.id
    ensures t.id >= id ==> 0 <= t.id - id < |started| && started[t.id - id] == t
  {
    if t in pool {
      var i :| 0 <= i < |pool| && pool[i] == t;
    } else {
      var i :| 0 <= i < |started| && started[i] == t;
    }
  }

  /** The lists can be merged: an id names one track only, and each list holds the tracks of its states. */
  ghost predicate CanSettle(tracked: seq<Track>, lost: seq<Track>, activated: seq<Track>, refound: seq<Track>, newlyLost: seq<Track>,
                            removed: seq<Track>)
    reads tracked, lost, activated
  {
    && OneTrackPerId(tracked + lost + activated)
    && DistinctIds(tracked + lost)
    && NoRepeats(newlyLost)
    && (forall t :: t in activated ==> t.state == Tracked)
    && (forall t :: t in tracked && t.state == Tracked ==> t in activated)
    && (forall t :: t in newlyLost ==> t in tracked && t.state == Lost)
    && (forall t :: t in tracked && t.state == Lost ==> t in newlyLost)
    && (forall t :: t in refound ==> t in lost && t.state == Tracked)
    && (forall t :: t in lost && t.state == Tracked ==> t in refound)
    && (forall t :: t in removed ==> t in lost && t.state == Removed)
    && (forall t :: t in lost && t.state == Removed ==> t in removed)
  }

  /** The stages leave the lists ready to be merged. */
  lemma ReadyToSettle(k: Kalman, tracked: seq<Track>, lost: seq<Track>, activated: seq<Track>, refound: seq<Track>,
                      newlyLost: seq<Track>, removed: seq<Track>, started: seq<Track>, wasTracked: seq<Shot>, wasLost: seq<Shot>,
                      frame: int, buffer: int, id: int)
    requires |wasTracked| == |tracked| && |wasLost| == |lost| && IdsOf(wasTracked + wasLost, id) && NoRepeats(newlyLost)
    requires StagesDone(k, tracked, lost, activated, refound, newlyLost, removed, started, wasTracked, wasLost, frame, buffer, id)
    ensures CanSettle(tracked, lost, activated, refound, newlyLost, removed)
    ensures Part(activated, tracked + lost + started)
  {
    IdsStayUnique(tracked, lost, activated, started, wasTracked + wasLost, id);
    hide OneTrackPerId, DistinctIds, IdsOf, NoRepeats;
    forall t | t in tracked
      ensures t.state == Tracked ==> t in activated
      ensures t.state == Lost ==> t in newlyLost
    {
      var i :| 0 <= i < |tracked| && tracked[i] == t;
    }
    forall t | t in lost
      ensures t.state == Tracked ==> t in refound
      ensures t.state == Removed ==> t in removed
    {
      var i :| 0 <= i < |lost| && lost[i] == t;
    }
  }

  ghost predicate IsShotId(shots: seq<Shot>, id: int)
  {
    exists i :: 0 <= i < |shots| && shots[i].id == id
  }

  /** A track that goes on: its id was in use or is new, and it is followed, or lost for no longer than the buffer or since this frame. */
  ghost predicate GoesOn(k: Kalman, s: Shot, was: seq<Shot>, id: int, next: int, frame: int, before: int, buffer: int)
  {
    && 1 <= s.id < next
    && s.isActivated
    && (IsShotId(was, s.id) || id <= s.id)
    && (s.state == Tracked ==> Followed(k, s, frame))
    && (s.state == Lost ==> frame - s.frameId <= buffer || s.frameId == before)
  }

  /** Every track that is not removed goes on. */
  ghost predicate AllGoOn(k: Kalman, ts: seq<Track>, was: seq<Shot>, id: int, next: int, frame: int, before: int, buffer: int)
    reads ts
  {
    forall t :: t in ts && t.state != Removed ==> GoesOn(k, t.Now(), was, id, next, frame, before, buffer)
  }

  /** The lists of the next frame: those followed and those lost, less those that are the same person. */
  ghost predicate Deduplicated(tracked: seq<Track>, lost: seq<Track>, followed: seq<Track>, waiting: seq<Track>, threshold: real)
    reads tracked, lost, followed, waiting
  {
    && (forall t :: t in tracked ==> t in followed && !YieldsToOne(t, waiting, threshold))
    && (forall t :: t in followed && !YieldsToOne(t, waiting, threshold) ==> t in tracked)
    && (forall t :: t in lost ==> t in waiting && !BeatenByOne(t, followed, threshold))
    && (forall t :: t in waiting && !BeatenByOne(t, followed, threshold) ==> t in lost)
    && (forall t, u :: t in tracked && u in lost ==> BoxIou(t.box, u.box) < Clamp(threshold, 0.0, MAX_DUPLICATE_IOU))
  }

  /** What the merged lists hold before duplicates go. */
  ghost predicate Merged(followed: seq<Track>, waiting: seq<Track>, lost: seq<Track>, activated: seq<Track>, refound: seq<Track>,
                         newlyLost: seq<Track>)
    reads lost
  {
    && (forall t :: t in followed ==> t in activated || t in refound)
    && (forall t :: t in activated ==> t in followed)
    && (forall t :: t in refound ==> t in followed)
    && (forall t :: t in waiting ==> (t in lost && t.state == Lost) || t in newlyLost)
    && (forall t :: t in lost && t.state == Lost ==> t in waiting)
    && (forall t :: t in newlyLost ==> t in waiting)
  }

  /** The tracks of the new lists go on, each in the state of its list. */
  lemma SettledGoOn(k: Kalman, wasTracked: seq<Track>, wasLost: seq<Track>, started: seq<Track>, activated: seq<Track>, refound: seq<Track>,
                    newlyLost: seq<Track>, removed: seq<Track>, followed: seq<Track>, waiting: seq<Track>, tracked: seq<Track>,
                    lost: seq<Track>, threshold: real, was: seq<Shot>, id: int, next: int, frame: int, before: int, buffer: int)
    requires CanSettle(wasTracked, wasLost, activated, refound, newlyLost, removed) && Part(activated, wasTracked + wasLost + started)
    requires Merged(followed, waiting, wasLost, activated, refound, newlyLost) && Deduplicated(tracked, lost, followed, waiting, threshold)
    requires AllGoOn(k, wasTracked + wasLost + started, was, id, next, frame, before, buffer)
    ensures SettledIn(k, tracked, Tracked, was, id, next, frame, before, buffer)
    ensures SettledIn(k, lost, Lost, was, id, next, frame, before, buffer)
    ensures Part(tracked, followed)
  {
    hide GoesOn, YieldsToOne, BeatenByOne, BoxIou, OneTrackPerId, DistinctIds, NoRepeats;
    forall t | t in tracked
      ensures t.state == Tracked && GoesOn(k, t.Now(), was, id, next, frame, before, buffer)
    {
      assert t in followed && t in wasTracked + wasLost + started;
    }
    forall t | t in lost
      ensures t.state == Lost && GoesOn(k, t.Now(), was, id, next, frame, before, buffer)
    {
      assert t in waiting && t in wasTracked + wasLost + started;
    }
  }

  lemma FollowedWere(followed: seq<Track>, waiting: seq<Track>, lost: seq<Track>, activated: seq<Track>, refound: seq<Track>,
                     newlyLost: seq<Track>, tracked: seq<Track>)
    requires Merged(followed, waiting, lost, activated, refound, newlyLost) && Part(tracked, followed)
    ensures forall t :: t in tracked ==> t in activated || t in refound
  {
  }

  ghost predicate AllAt(shots: seq<Shot>, frame: int)
  {
    forall i :: 0 <= i < |shots| ==> shots[i].frameId == frame
  }

  /** All of the list are in this state and go on. */
  ghost predicate SettledIn(k: Kalman, ts: seq<Track>, state: TrackState, was: seq<Shot>, id: int, next: int, frame: int, before: int, buffer: int)
    reads ts
  {
    forall i :: 0 <= i < |ts| ==> ts[i].state == state && GoesOn(k, ts[i].Now(), was, id, next, frame, before, buffer)
  }

  /** A track that was tracked, after the stages. */
  ghost predicate TrackedAfter(k: Kalman, s: Story, t: Track, was: Shot, frame: int)
    reads t
  {
    && t.id == was.id
    && t.isActivated
    && if t in s.highSource || t in s.lowSource then
         Followed(k, t.Now(), frame) && SourceScore(t, s.highShots, s.highSource, s.lowShots, s.lowSource)
       else t.state == Lost && t.frameId == was.frameId
  }

  /** A track that was lost, after the stages. */
  ghost predicate LostAfter(k: Kalman, s: Story, t: Track, was: Shot, frame: int, buffer: int)
    reads t
  {
    && t.id == was.id
    && t.isActivated
    && if t in s.highSource then
         Followed(k, t.Now(), frame) && SourceScore(t, s.highShots, s.highSource, s.lowShots, s.lowSource)
       else t.frameId == was.frameId && t.state == if frame - was.frameId > buffer then Removed else Lost
  }

  lemma TrackedMeans(k: Kalman, c: Settings, s: Story, extra: real, frame: int, id: int, i: nat)
    requires Told(k, c, s, extra, frame, id) && i < |s.tracked| && s.Ends() && s.wasTracked[i].isActivated
    ensures TrackedAfter(k, s, s.tracked[i], s.wasTracked[i], frame)
  {
    assert TrackedFate(k, s.tracked[i], s.wasTracked[i], s.nowTracked[i], s.highShots, s.highSource, s.lowShots, s.lowSource, frame);
    hide Told, AllTrackedFates, LostFate;
    TrackedFateMeans(k, s.tracked[i], s.wasTracked[i], s.nowTracked[i], s.highShots, s.highSource, s.lowShots, s.lowSource, frame);
    hide TrackedFate, Followed;
  }

  lemma LostMeans(k: Kalman, c: Settings, s: Story, extra: real, frame: int, id: int, i: nat)
    requires Told(k, c, s, extra, frame, id) && i < |s.lost| && s.Ends() && s.wasLost[i].isActivated
    ensures LostAfter(k, s, s.lost[i], s.wasLost[i], frame, c.trackBuffer)
  {
    assert LostFate(k, s.lost[i], s.wasLost[i], s.nowLost[i], s.highShots, s.highSource, frame, c.trackBuffer);
    hide Told, AllLostFates, TrackedFate;
    LostFateMeans(k, s.lost[i], s.wasLost[i], s.nowLost[i], s.highShots, s.highSource, frame, c.trackBuffer);
    hide LostFate, Followed;
  }

  /** What the story says about every track. */
  ghost predicate EveryoneAfter(k: Kalman, s: Story, frame: int, buffer: int, id: int)
    reads s.tracked, s.lost, s.started
  {
    && s.Sized()
    && (forall i :: 0 <= i < |s.tracked| ==> TrackedAfter(k, s, s.tracked[i], s.wasTracked[i], frame))
    && (forall i :: 0 <= i < |s.lost| ==> LostAfter(k, s, s.lost[i], s.wasLost[i], frame, buffer))
    && (forall i :: 0 <= i < |s.started| ==> s.started[i].id == id + i && Followed(k, s.started[i].Now(), frame))
  }

  lemma EveryoneMeans(k: Kalman, c: Settings, s: Story, extra: real, frame: int, id: int)
    requires Told(k, c, s, extra, frame, id) && s.Ends()
    requires forall i :: 0 <= i < |s.wasTracked| ==> s.wasTracked[i].isActivated
    requires forall i :: 0 <= i < |s.wasLost| ==> s.wasLost[i].isActivated
    ensures EveryoneAfter(k, s, frame, c.trackBuffer, id)
  {
    StartedFollowed(k, s.started, s.nowStarted, s.high, s.highShots, s.highSource, frame, id, c.newTrackThresh);
    hide Told, Followed, TrackedAfter, LostAfter;
    forall i | 0 <= i < |s.tracked|
      ensures TrackedAfter(k, s, s.tracked[i], s.wasTracked[i], frame)
    {
      TrackedMeans(k, c, s, extra, frame, id, i);
    }
    forall i | 0 <= i < |s.lost|
      ensures LostAfter(k, s, s.lost[i], s.wasLost[i], frame, c.trackBuffer)
    {
      LostMeans(k, c, s, extra, frame, id, i);
    }
  }

  /** How the lists the stages hand on follow from the story. */
  ghost predicate Lists(s: Story, activated: seq<Track>, refound: seq<Track>, newlyLost: seq<Track>, removed: seq<Track>)
    reads s.lost
  {
    && (forall t :: t in activated ==> (t in s.tracked && (t in s.highSource || t in s.lowSource)) || t in s.started)
    && (forall t :: t in s.tracked && (t in s.highSource || t in s.lowSource) ==> t in activated)
    && (forall t :: t in s.started ==> t in activated)
    && (forall t :: t in refound ==> t in s.lost && t in s.highSource)
    && (forall t :: t in s.lost && t in s.highSource ==> t in refound)
    && (forall t :: t in newlyLost ==> t in s.tracked && t !in s.highSource && t !in s.lowSource)
    && (forall t :: t in s.tracked && t !in s.highSource && t !in s.lowSource ==> t in newlyLost)
    && (forall t :: t in removed ==> t in s.lost && t.state == Removed)
    && (forall t :: t in s.lost && t.state == Removed ==> t in removed)
  }

  lemma ListsAre(s: Story, matched: seq<Track>, refound: seq<Track>, newlyLost: seq<Track>, removed: seq<Track>)
    requires StageLists(s.tracked, s.lost, matched, refound, newlyLost, s.highSource, s.lowSource)
    requires forall t :: t in removed <==> t in s.lost && t.state == Removed
    ensures Lists(s, matched + s.started, refound, newlyLost, removed)
  {
  }

  /** What the stages did makes up the story. */
  lemma StoryOf(k: Kalman, c: Settings, tracked: seq<Track>, lost: seq<Track>, wasTracked: seq<Shot>, wasLost: seq<Shot>, high: seq<Track>,
                highShots: seq<Shot>, highAt: seq<nat>, highSource: map<Track, nat>, lowShots: seq<Shot>, lowAt: seq<nat>,
                lowSource: map<Track, nat>, second: seq<Track>, left: seq<Shot>, started: seq<Track>, extra: real, frame: int, id: int,
                matched: seq<Track>, refound: seq<Track>, newlyLost: seq<Track>, removed: seq<Track>) returns (s: Story)
    requires |wasTracked| == |tracked| && |wasLost| == |lost| && |highShots| == |highAt| == |high|
    requires BestMatched(tracked + lost, MovedOn(k, wasTracked + wasLost), highShots, highSource, c.matchIou, c.fuseScore, extra)
    requires LowStage(k, tracked, wasTracked, second, left, lowShots, highSource, lowSource, c.lowMatchIou, c.fuseScore, extra)
    requires SourcesIn(highSource, tracked + lost, |high|) && SourcesIn(lowSource, tracked, |lowShots|)
    requires TrackedFates(k, tracked, wasTracked, Shots(tracked), highShots, highSource, lowShots, lowSource, frame)
    requires FatesOfLost(k, lost, wasLost, Shots(lost), highShots, highSource, frame, c.trackBuffer)
    requires StartedFrom(k, started, Shots(started), high, highShots, highSource, frame, id, c.newTrackThresh)
    requires forall i :: 0 <= i < |started| ==> started[i] !in tracked && started[i] !in lost
    requires StageLists(tracked, lost, matched, refound, newlyLost, highSource, lowSource)
    requires forall t :: t in removed <==> t in lost && t.state == Removed
    ensures Told(k, c, s, extra, frame, id) && s.Ends() && Lists(s, matched + started, refound, newlyLost, removed) && NoRepeats(newlyLost)
    ensures s.tracked == tracked && s.lost == lost && s.wasTracked == wasTracked && s.wasLost == wasLost && s.started == started
    ensures s.high == high && s.highShots == highShots && s.highAt == highAt && s.lowShots == lowShots && s.lowAt == lowAt
  {
    hide BestMatched, LowStage, SourcesIn, TrackedFates, StartedFrom, MovedOn, Lists;
    s := Story(tracked, lost, wasTracked, wasLost, high, highShots, highAt, highSource, lowShots, lowAt, lowSource, second, left,
               started, Shots(tracked), Shots(lost), Shots(started));
    FatesSized(k, tracked, lost, wasTracked, wasLost, Shots(tracked), Shots(lost), highShots, highSource, lowShots, lowSource, frame, c.trackBuffer);
    ListsAre(s, matched, refound, newlyLost, removed);
  }

  lemma FatesSized(k: Kalman, tracked: seq<Track>, lost: seq<Track>, wasTracked: seq<Shot>, wasLost: seq<Shot>, nowTracked: seq<Shot>,
                   nowLost: seq<Shot>, high: seq<Shot>, highSource: map<Track, nat>, low: seq<Shot>, lowSource: map<Track, nat>,
                   frame: int, buffer: int)
    requires TrackedFates(k, tracked, wasTracked, nowTracked, high, highSource, low, lowSource, frame)
    requires FatesOfLost(k, lost, wasLost, nowLost, high, highSource, frame, buffer)
    ensures |wasTracked| == |nowTracked| == |tracked| && |wasLost| == |nowLost| == |lost|
  {
  }

  /** The lost tracks were removed exactly if they had been lost for too long. */
  lemma RemovedAre(lost: seq<Track>, removed: seq<Track>, mid: seq<Shot>, frame: int, buffer: int)
    requires ListsOld(lost, removed, mid, frame, buffer) && RemovedIfOld(mid, Shots(lost), frame, buffer)
    ensures forall t :: t in removed <==> t in lost && t.state == Removed
  {
    forall t | t in lost && t.state == Removed
      ensures t in removed
    {
      var i :| 0 <= i < |lost| && lost[i] == t;
    }
  }

  lemma StoryDone(k: Kalman, s: Story, frame: int, buffer: int, id: int,
                  activated: seq<Track>, refound: seq<Track>, newlyLost: seq<Track>, removed: seq<Track>)
    requires EveryoneAfter(k, s, frame, buffer, id) && Lists(s, activated, refound, newlyLost, removed)
    ensures StagesDone(k, s.tracked, s.lost, activated, refound, newlyLost, removed, s.started, s.wasTracked, s.wasLost, frame, buffer, id)
  {
    hide Followed, SourceScore;
    forall t | t in activated
      ensures Followed(k, t.Now(), frame)
    {
      if t in s.started {
        var i :| 0 <= i < |s.started| && s.started[i] == t;
      } else {
        var i :| 0 <= i < |s.tracked| && s.tracked[i] == t;
      }
    }
    forall t | t in refound
      ensures Followed(k, t.Now(), frame)
    {
      var i :| 0 <= i < |s.lost| && s.lost[i] == t;
    }
    forall t | t in newlyLost
      ensures t.state == Lost
    {
      var i :| 0 <= i < |s.tracked| && s.tracked[i] == t;
    }
  }

  lemma StorySourced(k: Kalman, s: Story, frame: int, buffer: int, id: int,
                     activated: seq<Track>, refound: seq<Track>, newlyLost: seq<Track>, removed: seq<Track>)
    requires EveryoneAfter(k, s, frame, buffer, id) && Lists(s, activated, refound, newlyLost, removed)
    ensures Sourced(activated, refound, s.started, s.highShots, s.highSource, s.lowShots, s.lowSource)
  {
    hide Followed, SourceScore;
    forall t | t in activated && t !in s.started
      ensures SourceScore(t, s.highShots, s.highSource, s.lowShots, s.lowSource)
    {
      var i :| 0 <= i < |s.tracked| && s.tracked[i] == t;
    }
    forall t | t in refound
      ensures SourceScore(t, s.highShots, s.highSource, s.lowShots, s.lowSource)
    {
      var i :| 0 <= i < |s.lost| && s.lost[i] == t;
    }
  }

  lemma FollowedGoesOn(k: Kalman, tracked: seq<Track>, lost: seq<Track>, activated: seq<Track>, refound: seq<Track>,
                       newlyLost: seq<Track>, removed: seq<Track>, started: seq<Track>, wasTracked: seq<Shot>, wasLost: seq<Shot>,
                       frame: int, before: int, buffer: int, id: int, t: Track)
    requires |wasTracked| == |tracked| && |wasLost| == |lost| && IdsOf(wasTracked + wasLost, id) && id >= 1
    requires StagesDone(k, tracked, lost, activated, refound, newlyLost, removed, started, wasTracked, wasLost, frame, buffer, id)
    requires forall i :: 0 <= i < |wasTracked| ==> wasTracked[i].frameId == before
    requires t in tracked || t in lost || t in started
    requires t.state != Removed
    ensures GoesOn(k, t.Now(), wasTracked + wasLost, id, id + |started|, frame, before, buffer)
  {
    var was := wasTracked + wasLost;
    if t in started {
      var i :| 0 <= i < |started| && started[i] == t;
    } else if t in tracked {
      var i :| 0 <= i < |tracked| && tracked[i] == t;
      assert was[i].id == t.id;
    } else {
      var i :| 0 <= i < |lost| && lost[i] == t;
      assert was[|tracked| + i].id == t.id;
    }
  }

  lemma EveryoneGoesOn(k: Kalman, tracked: seq<Track>, lost: seq<Track>, activated: seq<Track>, refound: seq<Track>,
                       newlyLost: seq<Track>, removed: seq<Track>, started: seq<Track>, wasTracked: seq<Shot>, wasLost: seq<Shot>,
                       frame: int, before: int, buffer: int, id: int)
    requires |wasTracked| == |tracked| && |wasLost| == |lost| && IdsOf(wasTracked + wasLost, id) && id >= 1
    requires StagesDone(k, tracked, lost, activated, refound, newlyLost, removed, started, wasTracked, wasLost, frame, buffer, id)
    requires forall i :: 0 <= i < |wasTracked| ==> wasTracked[i].frameId == before
    ensures AllGoOn(k, tracked + lost + started, wasTracked + wasLost, id, id + |started|, frame, before, buffer)
  {
    hide StagesDone, IdsOf, GoesOn;
    forall t | t in tracked + lost + started && t.state != Removed
      ensures GoesOn(k, t.Now(), wasTracked + wasLost, id, id + |started|, frame, before, buffer)
    {
      FollowedGoesOn(k, tracked, lost, activated, refound, newlyLost, removed, started, wasTracked, wasLost, frame, before, buffer, id, t);
    }
  }

  /** The ids in neither list. */
  ghost function RetiredIds(shots: seq<Shot>, next: int): set<int>
  {
    set id | 1 <= id < next && !IsShotId(shots, id)
  }

  /** An id that has left both lists does not come back. */
  lemma RetiredStay(was: seq<Shot>, now: seq<Shot>, id: int, next: int)
    requires id <= next
    requires forall i :: 0 <= i < |now| ==> IsShotId(was, now[i].id) || id <= now[i].id
    ensures RetiredIds(was, id) <= RetiredIds(now, next)
  {
    forall x | x in RetiredIds(was, id)
      ensures !IsShotId(now, x)
    {
    }
  }

  // ---------------------------------------------------------------- where the boxes come from

  /** The positions of exactly the high and exactly the low detections. */
  ghost predicate SplitByScore(c: Settings, dets: seq<Box>, highAt: seq<nat>, lowAt: seq<nat>)
  {
    && Ascending(highAt, |dets|)
    && Ascending(lowAt, |dets|)
    && (forall n :: n in highAt <==> 0 <= n < |dets| && c.High(dets[n]))
    && (forall n :: n in lowAt <==> 0 <= n < |dets| && c.Low(dets[n]))
  }

  lemma SplitAt(c: Settings, dets: seq<Box>, highAt: seq<nat>, lowAt: seq<nat>)
    requires SplitByScore(c, dets, highAt, lowAt)
    ensures forall i :: 0 <= i < |highAt| ==> c.High(dets[highAt[i]])
    ensures forall i :: 0 <= i < |lowAt| ==> c.Low(dets[lowAt[i]])
  {
    assert forall i :: 0 <= i < |highAt| ==> highAt[i] in highAt;
    assert forall i :: 0 <= i < |lowAt| ==> lowAt[i] in lowAt;
  }

  /** The detection a followed track stands for. */
  ghost predicate Origin(t: Track, d: nat, high: seq<Track>, highAt: seq<nat>, highSource: map<Track, nat>,
                         lowAt: seq<nat>, lowSource: map<Track, nat>)
    requires |highAt| == |high|
  {
    if t in highSource then highSource[t] < |highAt| && d == highAt[highSource[t]]
    else if t in lowSource then lowSource[t] < |lowAt| && d == lowAt[lowSource[t]]
    else exists j :: 0 <= j < |high| && high[j] == t && d == highAt[j]
  }

  /** No two tracks stand for the same detection. */
  lemma OriginsDiffer(c: Settings, dets: seq<Box>, high: seq<Track>, highAt: seq<nat>, highSource: map<Track, nat>, lowAt: seq<nat>,
                      lowSource: map<Track, nat>, t: Track, u: Track, d: nat)
    requires |highAt| == |high| && SplitByScore(c, dets, highAt, lowAt) && Injective(highSource) && Injective(lowSource)
    requires Origin(t, d, high, highAt, highSource, lowAt, lowSource) && Origin(u, d, high, highAt, highSource, lowAt, lowSource)
    requires NotTaken(t, high, highSource, lowSource) && NotTaken(u, high, highSource, lowSource)
    ensures t == u
  {
    SplitAt(c, dets, highAt, lowAt);
    hide Settings.SizeValid, SplitByScore;
  }

  /** A started track's detection was taken by nobody. */
  ghost predicate NotTaken(t: Track, high: seq<Track>, highSource: map<Track, nat>, lowSource: map<Track, nat>)
  {
    t !in highSource && t !in lowSource ==> forall j :: 0 <= j < |high| && high[j] == t ==> !IsTaken(highSource, j)
  }

  lemma OriginIsDetection(c: Settings, dets: seq<Box>, high: seq<Track>, highAt: seq<nat>, highSource: map<Track, nat>, lowAt: seq<nat>,
                          lowSource: map<Track, nat>, t: Track, d: nat)
    requires |highAt| == |high| && SplitByScore(c, dets, highAt, lowAt) && Origin(t, d, high, highAt, highSource, lowAt, lowSource)
    ensures d < |dets| && (c.High(dets[d]) || c.Low(dets[d]))
  {
    SplitAt(c, dets, highAt, lowAt);
    hide Settings.SizeValid, SplitByScore;
  }

  /** Where everything in a frame comes from. */
  ghost predicate Sources(k: Kalman, activated: seq<Track>, refound: seq<Track>, started: seq<Track>, high: seq<Track>,
                          highAt: seq<nat>, highSource: map<Track, nat>, lowAt: seq<nat>, lowSource: map<Track, nat>, dets: seq<Box>)
    reads activated, refound, started
  {
    && |high| == |highAt|
    && Injective(highSource)
    && Injective(lowSource)
    && (forall t :: t in activated + refound ==> NotTaken(t, high, highSource, lowSource))
    && (forall t :: t in activated + refound ==> FromDetection(t, high, highAt, highSource, lowAt, lowSource, dets))
  }

  ghost predicate FromDetection(t: Track, high: seq<Track>, highAt: seq<nat>, highSource: map<Track, nat>, lowAt: seq<nat>,
                                lowSource: map<Track, nat>, dets: seq<Box>)
    requires |high| == |highAt|
    reads t
  {
    exists d: nat :: d < |dets| && Origin(t, d, high, highAt, highSource, lowAt, lowSource) && t.score == dets[d].score
  }

  lemma MatchedFromDetection(t: Track, high: seq<Track>, highAt: seq<nat>, highShots: seq<Shot>, highSource: map<Track, nat>,
                             lowAt: seq<nat>, lowShots: seq<Shot>, lowSource: map<Track, nat>, dets: seq<Box>)
    requires |high| == |highAt| && AreDetections(highShots, highAt, dets) && AreDetections(lowShots, lowAt, dets)
    requires SourceScore(t, highShots, highSource, lowShots, lowSource)
    ensures FromDetection(t, high, highAt, highSource, lowAt, lowSource, dets)
    ensures NotTaken(t, high, highSource, lowSource)
  {
    var d := if t in highSource then highAt[highSource[t]] else lowAt[lowSource[t]];
    assert Origin(t, d, high, highAt, highSource, lowAt, lowSource);
  }

  lemma StartedFromDetection(k: Kalman, started: seq<Track>, now: seq<Shot>, high: seq<Track>, highAt: seq<nat>, highShots: seq<Shot>,
                             highSource: map<Track, nat>, lowAt: seq<nat>, lowSource: map<Track, nat>, dets: seq<Box>,
                             frame: int, id: int, threshold: real, i: nat)
    requires |high| == |highAt| && AreDetections(highShots, highAt, dets) && now == Shots(started) && i < |started|
    requires StartedFrom(k, started, now, high, highShots, highSource, frame, id, threshold)
    requires started[i] !in highSource && started[i] !in lowSource
    ensures FromDetection(started[i], high, highAt, highSource, lowAt, lowSource, dets)
    ensures NotTaken(started[i], high, highSource, lowSource)
  {
    assert started[i] in started && started[i] in high;
    var j :| 0 <= j < |high| && high[j] == started[i];
    assert IsStarted(k, now[i], highShots[j], frame, id + i);
    assert Origin(started[i], highAt[j], high, highAt, highSource, lowAt, lowSource);
    hide IsTaken;
  }

  lemma AllFromDetections(k: Kalman, activated: seq<Track>, refound: seq<Track>, started: seq<Track>, high: seq<Track>,
                          highAt: seq<nat>, highShots: seq<Shot>, highSource: map<Track, nat>, lowAt: seq<nat>, lowShots: seq<Shot>,
                          lowSource: map<Track, nat>, dets: seq<Box>, frame: int, id: int, threshold: real)
    requires |high| == |highAt| && AreDetections(highShots, highAt, dets) && AreDetections(lowShots, lowAt, dets)
    requires Injective(highSource) && Injective(lowSource)
    requires Sourced(activated, refound, started, highShots, highSource, lowShots, lowSource)
    requires StartedFrom(k, started, Shots(started), high, highShots, highSource, frame, id, threshold)
    requires forall i :: 0 <= i < |started| ==> started[i] !in highSource && started[i] !in lowSource
    ensures Sources(k, activated, refound, started, high, highAt, highSource, lowAt, lowSource, dets)
  {
    hide Injective, AreDetections, StartedFrom, FromDetection, NotTaken, SourceScore;
    forall t | t in activated + refound
      ensures NotTaken(t, high, highSource, lowSource) && FromDetection(t, high, highAt, highSource, lowAt, lowSource, dets)
    {
      if t in started {
        var i :| 0 <= i < |started| && started[i] == t;
        StartedFromDetection(k, started, Shots(started), high, highAt, highShots, highSource, lowAt, lowSource, dets, frame, id, threshold, i);
      } else {
        MatchedFromDetection(t, high, highAt, highShots, highSource, lowAt, lowShots, lowSource, dets);
      }
    }
  }

  /** Everything the story follows comes from a detection of its own. */
  lemma StoryOrigins(k: Kalman, c: Settings, s: Story, extra: real, frame: int, id: int, dets: seq<Box>, activated: seq<Track>, refound: seq<Track>)
    requires Told(k, c, s, extra, frame, id) && s.Ends() && About(c, s, dets)
    requires Sourced(activated, refound, s.started, s.highShots, s.highSource, s.lowShots, s.lowSource)
    ensures Sources(k, activated, refound, s.started, s.high, s.highAt, s.highSource, s.lowAt, s.lowSource, dets)
  {
    hide BestMatched, LowStage, AllTrackedFates, AllLostFates, SplitByScore, AreDetections, Sourced, StartedFrom, Injective;
    NotInSource(s.tracked + s.lost, s.tracked, s.lost, s.started, s.highSource, s.lowSource, |s.high|, |s.lowShots|);
    AllFromDetections(k, activated, refound, s.started, s.high, s.highAt, s.highShots, s.highSource, s.lowAt, s.lowShots, s.lowSource, dets,
                      frame, id, c.newTrackThresh);
  }

  /** The lists of the next frame, before duplicates are dropped, in the words of the story. */
  ghost predicate ListedBy(s: Story, followed: seq<Track>, waiting: seq<Track>, frame: int, buffer: int)
  {
    && s.Sized()
    && (forall t :: t in followed ==> s.IsFollowed(t))
    && (forall t :: t in s.tracked + s.lost + s.started && s.IsFollowed(t) ==> t in followed)
    && (forall t :: t in waiting ==> s.IsLost(t, frame, buffer))
    && (forall t :: t in s.tracked + s.lost && s.IsLost(t, frame, buffer) ==> t in waiting)
  }

  lemma StoryLists(k: Kalman, s: Story, frame: int, buffer: int, id: int, activated: seq<Track>, refound: seq<Track>,
                   newlyLost: seq<Track>, removed: seq<Track>, followed: seq<Track>, waiting: seq<Track>)
    requires EveryoneAfter(k, s, frame, buffer, id) && Lists(s, activated, refound, newlyLost, removed)
    requires Merged(followed, waiting, s.lost, activated, refound, newlyLost)
    ensures ListedBy(s, followed, waiting, frame, buffer)
  {
    hide SourceScore, Shot.Framed;
    forall t | t in s.lost
      ensures t.state == Lost <==>
        t !in s.highSource && exists i :: 0 <= i < |s.lost| && s.lost[i] == t && frame - s.wasLost[i].frameId <= buffer
    {
      var i :| 0 <= i < |s.lost| && s.lost[i] == t;
      assert LostAfter(k, s, s.lost[i], s.wasLost[i], frame, buffer);
      if t !in s.highSource && exists j :: 0 <= j < |s.lost| && s.lost[j] == t && frame - s.wasLost[j].frameId <= buffer {
        var j :| 0 <= j < |s.lost| && s.lost[j] == t && frame - s.wasLost[j].frameId <= buffer;
        assert LostAfter(k, s, s.lost[j], s.wasLost[j], frame, buffer);
      }
    }
    hide EveryoneAfter;
  }

  /** Nobody vanishes: every track of the lists is followed, lost or forgotten, and only one of these. */
  lemma EveryoneIsAccountedFor(k: Kalman, c: Settings, s: Story, extra: real, frame: int, id: int, t: Track)
    requires Told(k, c, s, extra, frame, id) && (t in s.tracked || t in s.lost) && NoRepeats(s.tracked + s.lost)
    ensures s.IsFollowed(t) || s.IsLost(t, frame, c.trackBuffer) || s.IsForgotten(t, frame, c.trackBuffer)
    ensures !(s.IsFollowed(t) && s.IsLost(t, frame, c.trackBuffer))
    ensures !(s.IsFollowed(t) && s.IsForgotten(t, frame, c.trackBuffer))
    ensures !(s.IsLost(t, frame, c.trackBuffer) && s.IsForgotten(t, frame, c.trackBuffer))
  {
    hide BestMatched, LowStage, AllTrackedFates, AllLostFates, StartedFrom, SourcesIn, MovedOn, NoRepeats;
    assert t !in s.started;
    InOneList(s.tracked, s.lost, t);
    LostDoNotRepeat(s.tracked, s.lost);
    if t in s.lost {
      var i :| 0 <= i < |s.lost| && s.lost[i] == t;
      assert forall j :: 0 <= j < |s.lost| && s.lost[j] == t ==> j == i;
    }
  }

  /** No strong detection is passed over: a tracked, found or new track stands for it. */
  lemma StrongDetectionIsFollowed(k: Kalman, c: Settings, s: Story, extra: real, frame: int, id: int, dets: seq<Box>, n: nat) returns (t: Track)
    requires Told(k, c, s, extra, frame, id) && About(c, s, dets)
    requires n < |dets| && c.High(dets[n]) && dets[n].score >= c.newTrackThresh
    ensures s.IsFollowed(t) && Origin(t, n, s.high, s.highAt, s.highSource, s.lowAt, s.lowSource)
  {
    hide BestMatched, LowStage, AllTrackedFates, AllLostFates, Settings.SizeValid, NoRepeats, Injective;
    var j :| 0 <= j < |s.highAt| && s.highAt[j] == n;
    if IsTaken(s.highSource, j) {
      t :| t in s.highSource && s.highSource[t] == j;
    } else {
      t := s.high[j];
      assert t in s.started;
      var i :| 0 <= i < |s.started| && s.started[i] == t;
    }
  }

  /** With the numbers written out: large enough, and seen surely enough. */
  lemma LargeDetectionIsFollowed(k: Kalman, c: Settings, s: Story, extra: real, frame: int, id: int, dets: seq<Box>, n: nat) returns (t: Track)
    requires Told(k, c, s, extra, frame, id) && About(c, s, dets)
    requires n < |dets| && dets[n].w > 1.0 && dets[n].h > 1.0 && dets[n].w * dets[n].h >= c.minBoxArea
    requires dets[n].score >= c.highThresh && dets[n].score >= c.newTrackThresh
    ensures s.IsFollowed(t) && Origin(t, n, s.high, s.highAt, s.highSource, s.lowAt, s.lowSource)
  {
    hide Told, About, Story.IsFollowed, Origin;
    t := StrongDetectionIsFollowed(k, c, s, extra, frame, id, dets, n);
  }

  /** Settings in their ranges are taken as they are, and clamping twice is clamping once. */
  lemma SettingsInRangeStay(c: Settings)
    ensures c.Clamped().Clamped() == c.Clamped()
    ensures c.Clamped() == c <==>
      && 0.01 <= c.highThresh <= 0.99 && 0.0 <= c.lowThresh <= c.highThresh <= c.newTrackThresh <= 0.999
      && 0.01 <= c.matchIou <= 0.99 && 0.01 <= c.lowMatchIou <= 0.99 && 0.01 <= c.unconfirmedMatchIou <= 0.99
      && c.trackBuffer >= 1 && c.minBoxArea >= 0.0
  {
  }

  function Reported(s: Shot): Box
  {
    s.box.(id := s.id, score := s.score, occluded := false)
  }

  lemma NotInSource(pool: seq<Track>, tracked: seq<Track>, lost: seq<Track>, started: seq<Track>, high: map<Track, nat>, low: map<Track, nat>,
                    m: nat, n: nat)
    requires SourcesIn(high, tracked + lost, m) && SourcesIn(low, tracked, n)
    requires forall i :: 0 <= i < |started| ==> started[i] !in tracked && started[i] !in lost
    ensures forall i :: 0 <= i < |started| ==> started[i] !in high && started[i] !in low
    ensures Injective(high) && Injective(low)
  {
    hide Injective;
  }

  lemma SeenShort(c: Settings, dets: seq<Box>, highAt: seq<nat>, lowAt: seq<nat>)
    requires c.WellFormed() && Ascending(highAt, |dets|) && Ascending(lowAt, |dets|)
    requires forall n :: n in highAt <==> 0 <= n < |dets| && c.High(dets[n])
    requires forall n :: n in lowAt <==> 0 <= n < |dets| && c.Low(dets[n])
    ensures |highAt| <= |dets| && |lowAt| <= |dets| && SplitByScore(c, dets, highAt, lowAt)
  {
    AscendingShort(highAt, |dets|, |highAt|);
    AscendingShort(lowAt, |dets|, |lowAt|);
    hide Settings.SizeValid;
  }

  lemma IdsAreDistinct(ts: seq<Track>, next: int)
    requires IdsOf(Shots(ts), next)
    ensures DistinctIds(ts)
  {
    assert forall i :: 0 <= i < |ts| ==> Shots(ts)[i].id == ts[i].id;
  }

  lemma DistinctAreIds(ts: seq<Track>, next: int)
    requires DistinctIds(ts) && forall i :: 0 <= i < |ts| ==> 1 <= ts[i].id < next
    ensures IdsOf(Shots(ts), next)
  {
    assert forall i :: 0 <= i < |ts| ==> Shots(ts)[i].id == ts[i].id;
  }

  lemma GoingOnIdsIssued(k: Kalman, ts: seq<Track>, was: seq<Shot>, id: int, next: int, frame: int, before: int, buffer: int)
    requires DistinctIds(ts) && id <= next
    requires forall i :: 0 <= i < |ts| ==> GoesOn(k, ts[i].Now(), was, id, next, frame, before, buffer)
    ensures IdsOf(Shots(ts), next) && RetiredIds(was, id) <= RetiredIds(Shots(ts), next)
  {
    assert forall i :: 0 <= i < |ts| ==> Shots(ts)[i] == ts[i].Now();
    DistinctAreIds(ts, next);
    RetiredStay(was, Shots(ts), id, next);
  }

  /** Between frames the lists are listed by state. */
  lemma FollowedAreListed(k: Kalman, tracked: seq<Track>, lost: seq<Track>, frame: int, next: int)
    requires IdsOf(Shots(tracked + lost), next) && forall i :: 0 <= i < |tracked| ==> Followed(k, tracked[i].Now(), frame)
    requires forall i :: 0 <= i < |lost| ==> lost[i].state == Lost && lost[i].isActivated
    ensures ListsByState(tracked, lost) && AllAt(Shots(tracked), frame)
  {
    IdsAreDistinct(tracked + lost, next);
    hide IdsOf, DistinctIds, Shot.Framed;
  }

  lemma NextIds(k: Kalman, tracked: seq<Track>, lost: seq<Track>, was: seq<Shot>, id: int, next: int, frame: int, before: int, buffer: int)
    requires DistinctIds(tracked + lost) && id <= next
    requires SettledIn(k, tracked, Tracked, was, id, next, frame, before, buffer) && SettledIn(k, lost, Lost, was, id, next, frame, before, buffer)
    ensures IdsOf(Shots(tracked + lost), next) && RetiredIds(was, id) <= RetiredIds(Shots(tracked + lost), next)
  {
    GoingOnIdsIssued(k, tracked + lost, was, id, next, frame, before, buffer);
  }

  lemma SettledAre(k: Kalman, tracked: seq<Track>, lost: seq<Track>, was: seq<Shot>, id: int, next: int, frame: int, before: int, buffer: int)
    requires SettledIn(k, tracked, Tracked, was, id, next, frame, before, buffer) && SettledIn(k, lost, Lost, was, id, next, frame, before, buffer)
    ensures forall i :: 0 <= i < |tracked| ==> Followed(k, tracked[i].Now(), frame)
    ensures forall i :: 0 <= i < |lost| ==> lost[i].state == Lost && lost[i].isActivated
    ensures forall i :: 0 <= i < |lost| ==> frame - lost[i].frameId <= buffer || lost[i].frameId == before
  {
    hide Followed;
  }

  lemma FollowedIsAnonymized(k: Kalman, s: Shot, frame: int)
    requires Followed(k, s, frame)
    ensures var b := Reported(s); b.privacyAction == ANONYMIZE && b.identityKey == "" && b.w >= 1.0 && b.h >= 1.0
  {
  }

  /** The detections that can be followed at all. */
  ghost function Followable(c: Settings, dets: seq<Box>): set<nat>
  {
    set d: nat | 0 <= d < |dets| && (c.High(dets[d]) || c.Low(dets[d]))
  }

  /** Boxes that stand for distinct detections are never more than there are detections to follow. */
  lemma NoMoreBoxesThanDetections(c: Settings, dets: seq<Box>, source: seq<nat>)
    requires forall i :: 0 <= i < |source| ==> source[i] < |dets| && (c.High(dets[source[i]]) || c.Low(dets[source[i]]))
    requires forall i, j :: 0 <= i < j < |source| ==> source[i] != source[j]
    ensures |source| <= |Followable(c, dets)|
  {
    hide Settings.SizeValid;
    DistinctFit(source, Followable(c, dets));
  }

  lemma {:induction false} DistinctFit(source: seq<nat>, some: set<nat>)
    requires forall i :: 0 <= i < |source| ==> source[i] in some
    requires forall i, j :: 0 <= i < j < |source| ==> source[i] != source[j]
    ensures |source| <= |some|
  {
    if source != [] {
      var last := source[|source| - 1];
      DistinctFit(source[..|source| - 1], some - {last});
    }
  }
}
