/**
  The two-stage tracker of core/src/tracking/bytetrack_tracker.cpp: the life cycle of tracks and
  their identities over whole runs, and where every box it reports comes from.
*/
module ByteTrackers {
  import opened Numbers
  import opened Types
  import opened SceneGrids
  import opened Association
  import opened ByteTracks
  import opened ByteStages
  import opened ByteLimits
  import opened ByteBoxes

  class ByteTracker {
    const c: Settings
    const kalman: Kalman
    const grid: SceneGrid
    var frameId: int
    var nextTrackId: int
    var tracked: seq<Track>
    var lost: seq<Track>

    constructor (settings: Settings, kalman: Kalman, gridConfig: Config, squareRoot: real -> real)
      ensures c == settings.Clamped() && this.kalman == kalman && grid.cfg == gridConfig.Clamped() && fresh(grid)
      ensures Valid() && tracked == [] && lost == [] && nextTrackId == 1 && frameId == 0 && grid.log == map[]
    {
      c := settings.Clamped();
      this.kalman := kalman;
      grid := new SceneGrid(gridConfig, squareRoot);
      frameId, nextTrackId, tracked, lost := 0, 1, [], [];
    }

    /** Whether association prices with the grid in a frame. */
    predicate UsesGrid(f: FrameInfo) { grid.cfg.enabled && f.width > 0 && f.height > 0 }

    /** The most the grid can add to a cost in a frame. */
    function Surcharge(f: FrameInfo): real { if UsesGrid(f) then grid.cfg.maxExtraCost else 0.0 }

    /** Associates two lists by their boxes. */
    method Associate(stage: Stage, threshold: real, pool: seq<Track>, dets: seq<Track>, f: FrameInfo, ghost all: nat)
      returns (r: Result)
      requires grid.Valid() && |dets| <= all && SentinelHolds(all, grid.cfg.maxExtraCost)
      ensures IsPartition(r, |pool|, |dets|) && InPool(r.matches, |pool|) && InDetections(r.matches, |dets|)
      ensures BestMatches(Shots(pool), Shots(dets), r.matches, threshold, c.fuseScore, Surcharge(f))
    {
      var trackBoxes := TrackBoxes(pool);
      var detBoxes := TrackBoxes(dets);
      var options := Options(stage, threshold, c.fuseScore, if UsesGrid(f) then grid else null, f.streamId, f.width, f.height);
      SentinelCovers(|pool|, |dets|, all, options, grid.cfg.maxExtraCost);
      hide SceneGrid.Valid, SentinelHolds, WithinSentinel, BoxIou, PairCost, GridCost, IsPartition, IsCostMatrix, ThresholdedFrom, Faithful;
      ghost var costs, assignment;
      r, costs, assignment := AssociateDetections(trackBoxes, detBoxes, options);
      PartitionFacts(r, |pool|, |dets|);
      if pool != [] && dets != [] {
        OptimalIsAssignment(costs, assignment, |pool|, |dets|);
        AssociatedBest(r, Shots(pool), Shots(dets), trackBoxes, detBoxes, options, costs, assignment);
      }
    }

    /** Associates two lists and applies the matches. */
    method MatchLists(stage: Stage, threshold: real, pool: seq<Track>, dets: seq<Track>, f: FrameInfo, ghost all: nat)
      returns (activated: seq<Track>, refound: seq<Track>, leftTracks: seq<Track>, leftDets: seq<Track>,
               ghost leftAt: seq<nat>, ghost matches: seq<Match>)
      requires NoRepeats(pool) && NoRepeats(dets) && Apart(pool, dets) && grid.Valid()
      requires |dets| <= all && SentinelHolds(all, grid.cfg.maxExtraCost)
      modifies pool, grid
      ensures grid.Valid() && Grew(grid.cfg.enabled, old(grid.log), grid.log, f.streamId, |matches|)
      ensures |matches| + |leftDets| <= |dets|
      ensures StageDone(kalman, pool, old(Shots(pool)), Shots(pool), old(Shots(dets)), matches, frameId)
      ensures BestMatches(old(Shots(pool)), old(Shots(dets)), matches, threshold, c.fuseScore, Surcharge(f))
      ensures activated == Picked(pool, old(Shots(pool)), matches, |matches|, true)
      ensures refound == Picked(pool, old(Shots(pool)), matches, |matches|, false)
      ensures LeftOver(pool, matches, leftTracks)
      ensures LeftDetections(dets, matches, leftDets, leftAt)
    {
      hide LeftOver, LeftDetections, SceneGrid.Valid, Grew, SentinelHolds, BestMatches, NoRepeats;
      var r := Associate(stage, threshold, pool, dets, f, all);
      matches := r.matches;
      PartitionFacts(r, |pool|, |dets|);
      PartitionCounts(r, |pool|, |dets|);
      leftTracks := Select(pool, r.unmatchedTracks);
      leftDets := Select(dets, r.unmatchedDetections);
      leftAt := Positions(r.unmatchedDetections);
      LeftFacts(pool, r, leftTracks, dets, leftDets, leftAt);
      hide IsPartition;
      activated, refound := ApplyMatches(kalman, pool, dets, r.matches, f, frameId, grid);
    }

    /** A stage, told by what became of each track and detection. */
    method RunStage(stage: Stage, threshold: real, pool: seq<Track>, dets: seq<Track>, f: FrameInfo, ghost all: nat)
      returns (activated: seq<Track>, refound: seq<Track>, leftTracks: seq<Track>, leftDets: seq<Track>,
               ghost leftAt: seq<nat>, ghost source: map<Track, nat>)
      requires NoRepeats(pool) && NoRepeats(dets) && Apart(pool, dets) && grid.Valid()
      requires |dets| <= all && SentinelHolds(all, grid.cfg.maxExtraCost)
      modifies pool, grid
      ensures grid.Valid() && |leftDets| <= |dets|
      ensures Grew(grid.cfg.enabled, old(grid.log), grid.log, f.streamId, |dets| - |leftDets|)
      ensures StageOutcome(kalman, pool, old(Shots(pool)), Shots(pool), old(Shots(dets)), source, frameId)
      ensures ListedBySource(pool, old(Shots(pool)), source, activated, refound)
      ensures StageSources(source, pool, |dets|, leftAt) && LeftBySource(pool, source, leftTracks) && ListAt(dets, leftDets, leftAt)
      ensures BestMatched(pool, old(Shots(pool)), old(Shots(dets)), source, threshold, c.fuseScore, Surcharge(f))
    {
      hide SceneGrid.Valid, Grew, SentinelHolds, AfterMatches, Picked, BestMatches, BestMatched, LeftOver, LeftDetections, SourceOf;
      ghost var matches;
      ghost var log := grid.log;
      activated, refound, leftTracks, leftDets, leftAt, matches := MatchLists(stage, threshold, pool, dets, f, all);
      GrewAtMost(grid.cfg.enabled, log, grid.log, f.streamId, |matches|, |dets| - |leftDets|);
      source := SourceOf(pool, matches, |dets|);
      StageMeans(kalman, pool, old(Shots(pool)), Shots(pool), old(Shots(dets)), matches, frameId);
      PickedMeans(pool, old(Shots(pool)), |dets|, matches);
      LeftIsBySource(pool, dets, matches, leftTracks, leftDets, leftAt);
      BestBySource(pool, old(Shots(pool)), old(Shots(dets)), matches, threshold, c.fuseScore, Surcharge(f));
    }

    /** Moves the pool on and matches it with the high detections. */
    method FollowHigh(pool: seq<Track>, high: seq<Track>, f: FrameInfo, ghost all: nat)
      returns (activated: seq<Track>, refound: seq<Track>, leftTracks: seq<Track>, leftHigh: seq<Track>,
               ghost leftAt: seq<nat>, ghost source: map<Track, nat>)
      requires NoRepeats(pool) && NoRepeats(high) && Apart(pool, high) && grid.Valid()
      requires |high| <= all && SentinelHolds(all, grid.cfg.maxExtraCost)
      modifies pool, grid
      ensures grid.Valid() && |leftHigh| <= |high|
      ensures Grew(grid.cfg.enabled, old(grid.log), grid.log, f.streamId, |high| - |leftHigh|)
      ensures HighFates(kalman, pool, old(Shots(pool)), Shots(pool), old(Shots(high)), source, frameId)
      ensures ListedBySource(pool, old(Shots(pool)), source, activated, refound)
      ensures StageSources(source, pool, |high|, leftAt) && LeftBySource(pool, source, leftTracks) && ListAt(high, leftHigh, leftAt)
      ensures BestMatched(pool, MovedOn(kalman, old(Shots(pool))), old(Shots(high)), source, c.matchIou, c.fuseScore, Surcharge(f))
    {
      hide SceneGrid.Valid, Grew, SentinelHolds, Predicted, StageOutcome, HighFates, Injective, BestMatched, ListedBySource, StageSources,
        LeftBySource, ListAt;
      ghost var was, seen := Shots(pool), Shots(high);
      PredictAll(kalman, pool);
      assert Shots(high) == seen && Shots(pool) == MovedOn(kalman, was);
      hide MovedOn;
      activated, refound, leftTracks, leftHigh, leftAt, source := RunStage(Stage.High, c.matchIou, pool, high, f, all);
      ListedBefore(kalman, pool, was, source, activated, refound);
      FirstStageFates(kalman, pool, was, Shots(pool), seen, source, frameId);
    }

    /** Matches tracks that are still tracked with the low detections; the others are lost. */
    method FollowLow(remaining: seq<Track>, low: seq<Track>, f: FrameInfo, ghost all: nat)
      returns (activated: seq<Track>, newlyLost: seq<Track>, ghost source: map<Track, nat>)
      requires NoRepeats(remaining) && NoRepeats(low) && Apart(remaining, low) && grid.Valid()
      requires AllTracked(remaining) && |low| <= all && SentinelHolds(all, grid.cfg.maxExtraCost)
      modifies remaining, grid
      ensures grid.Valid() && Grew(grid.cfg.enabled, old(grid.log), grid.log, f.streamId, |low|)
      ensures LowFates(kalman, remaining, old(Shots(remaining)), Shots(remaining), old(Shots(low)), source, frameId)
      ensures forall t :: t in activated <==> t in source
      ensures LeftBySource(remaining, source, newlyLost)
      ensures SourcesIn(source, remaining, |low|)
      ensures BestMatched(remaining, old(Shots(remaining)), old(Shots(low)), source, c.lowMatchIou, c.fuseScore, Surcharge(f))
    {
      hide SceneGrid.Valid, Grew, SentinelHolds, StageOutcome, LowFates, MarkedLost, ListedBySource, StageSources, SourcesIn, LeftBySource,
        ListAt, BestMatched;
      ghost var was, seen, log := Shots(remaining), Shots(low), grid.log;
      assert AllOf(was, Tracked);
      hide AllTracked;
      var refound, leftLow;
      ghost var leftAt;
      activated, refound, newlyLost, leftLow, leftAt, source := RunStage(Stage.Low, c.lowMatchIou, remaining, low, f, all);
      GrewAtMost(grid.cfg.enabled, log, grid.log, f.streamId, |low| - |leftLow|, |low|);
      SourcesOfStage(source, remaining, |low|, leftAt);
      MatchedAreListed(remaining, was, source, |low|, activated, refound);
      LeftFromPool(remaining, source, newlyLost);
      ghost var matched := Shots(remaining);
      MarkLost(newlyLost, remaining);
      SecondStageFates(kalman, remaining, was, matched, Shots(remaining), seen, source, newlyLost, frameId);
    }

    /** Every track in the lists is activated, and each list has its own state and no id is used twice. */
    ghost predicate Listed()
      reads this, tracked, lost
    {
      ListsByState(tracked, lost)
    }

    /** No activated track is unconfirmed: in every reachable state the unconfirmed list is empty. */
    method SplitConfirmed() returns (confirmed: seq<Track>, unconfirmed: seq<Track>)
      ensures forall t :: t in confirmed <==> t in tracked && t.isActivated
      ensures forall t :: t in unconfirmed <==> t in tracked && !t.isActivated
      ensures (forall i :: 0 <= i < |tracked| ==> tracked[i].isActivated) ==> confirmed == tracked && unconfirmed == []
    {
      confirmed, unconfirmed := [], [];
      for i := 0 to |tracked|
        invariant forall t :: t in confirmed <==> t in tracked[..i] && t.isActivated
        invariant forall t :: t in unconfirmed <==> t in tracked[..i] && !t.isActivated
        invariant (forall j :: 0 <= j < i ==> tracked[j].isActivated) ==> confirmed == tracked[..i] && unconfirmed == []
      {
        assert tracked[..i + 1] == tracked[..i] + [tracked[i]];
        if !tracked[i].isActivated {
          unconfirmed := unconfirmed + [tracked[i]];
        } else {
          confirmed := confirmed + [tracked[i]];
        }
      }
      assert tracked[..|tracked|] == tracked;
    }

    /** All tracks, the tracked ones first. */
    method JoinLists() returns (pool: seq<Track>, unconfirmed: seq<Track>)
      requires Listed()
      ensures pool == tracked + lost && unconfirmed == []
    {
      var confirmed;
      confirmed, unconfirmed := SplitConfirmed();
      pool := JointTracks(confirmed, lost);
    }

    /** The first stage over all tracks, and what it leaves for the second. */
    method FollowAll(high: seq<Track>, f: FrameInfo, ghost all: nat)
      returns (activated: seq<Track>, refound: seq<Track>, remaining: seq<Track>, unconfirmed: seq<Track>, leftHigh: seq<Track>,
               ghost leftAt: seq<nat>, ghost source: map<Track, nat>)
      requires Listed() && grid.Valid()
      requires NoRepeats(high) && Apart(tracked + lost, high)
      requires |high| <= all && SentinelHolds(all, grid.cfg.maxExtraCost)
      modifies tracked, lost, grid
      ensures grid.Valid() && unconfirmed == [] && |leftHigh| <= |high|
      ensures Grew(grid.cfg.enabled, old(grid.log), grid.log, f.streamId, |high| - |leftHigh|)
      ensures HighFates(kalman, tracked, old(Shots(tracked)), Shots(tracked), old(Shots(high)), source, frameId)
      ensures HighFates(kalman, lost, old(Shots(lost)), Shots(lost), old(Shots(high)), source, frameId)
      ensures FirstLists(tracked, lost, activated, refound, source)
      ensures NoRepeats(remaining) && Unmatched(remaining, tracked, source) && AllTracked(remaining)
      ensures StageSources(source, tracked + lost, |high|, leftAt) && ListAt(high, leftHigh, leftAt)
      ensures BestMatched(tracked + lost, MovedOn(kalman, old(Shots(tracked)) + old(Shots(lost))), old(Shots(high)), source,
                          c.matchIou, c.fuseScore, Surcharge(f))
    {
      hide SceneGrid.Valid, Grew, SentinelHolds, HighFates, BestMatched, MovedOn, NoRepeats, Apart, ListedBySource, LeftBySource, StageSources,
        ListAt, FirstLists, Unmatched, AllTracked, InState, ListsByState;
      var pool;
      pool, unconfirmed := JoinLists();
      ListsInState(tracked, lost);
      ghost var wasTracked, wasLost, seen := Shots(tracked), Shots(lost), Shots(high);
      var left;
      activated, refound, left, leftHigh, leftAt, source := FollowHigh(pool, high, f, all);
      ListedMembers(tracked, lost, wasTracked + wasLost, source, activated, refound);
      remaining := StillTracked(left);
      RemainingAre(kalman, tracked, lost, wasTracked + wasLost, seen, source, left, remaining, frameId);
      ShotsJoin(tracked, lost);
      FatesByList(kalman, tracked, lost, wasTracked, wasLost, Shots(tracked), Shots(lost), seen, source, frameId);
    }

    /** The second stage, leaving the matched and the lost tracks alone. */
    method FollowRest(remaining: seq<Track>, low: seq<Track>, f: FrameInfo, ghost all: nat, ghost matched: map<Track, nat>)
      returns (activated: seq<Track>, newlyLost: seq<Track>, ghost source: map<Track, nat>)
      requires NoRepeats(remaining) && NoRepeats(low) && Apart(tracked + lost, low) && NoRepeats(tracked + lost) && grid.Valid()
      requires Unmatched(remaining, tracked, matched) && AllTracked(remaining)
      requires |low| <= all && SentinelHolds(all, grid.cfg.maxExtraCost)
      modifies tracked, lost, grid
      ensures grid.Valid() && Grew(grid.cfg.enabled, old(grid.log), grid.log, f.streamId, |low|)
      ensures LowFates(kalman, remaining, old(Shots(remaining)), Shots(remaining), old(Shots(low)), source, frameId)
      ensures forall t :: t in activated <==> t in source
      ensures LeftBySource(remaining, source, newlyLost) && SourcesIn(source, tracked, |low|)
      ensures Shots(lost) == old(Shots(lost))
      ensures KeptWhere(tracked, matched, old(Shots(tracked)), Shots(tracked))
      ensures forall t :: t in source ==> t in remaining
      ensures BestMatched(remaining, old(Shots(remaining)), old(Shots(low)), source, c.lowMatchIou, c.fuseScore, Surcharge(f))
    {
      hide SceneGrid.Valid, Grew, SentinelHolds, LowFates, BestMatched, AllTracked, LeftBySource, KeptWhere, NoRepeats;
      RemainingApart(tracked, lost, remaining, matched, low);
      hide Apart, Unmatched;
      ghost var was := Shots(tracked);
      activated, newlyLost, source := FollowLow(remaining, low, f, all);
      SourcesOfPart(source, remaining, tracked, |low|);
      hide SourcesIn;
      SameAreKept(tracked, remaining, matched, was, Shots(tracked));
    }

    /** The first two stages. */
    method Follow(high: seq<Track>, low: seq<Track>, f: FrameInfo, ghost all: nat)
      returns (activated: seq<Track>, refound: seq<Track>, newlyLost: seq<Track>, unconfirmed: seq<Track>, leftHigh: seq<Track>,
               ghost leftAt: seq<nat>, ghost highSource: map<Track, nat>, ghost lowSource: map<Track, nat>,
               ghost second: seq<Track>, ghost left: seq<Shot>)
      requires Listed() && grid.Valid()
      requires NoRepeats(high) && NoRepeats(low) && Apart(tracked + lost, high) && Apart(tracked + lost, low)
      requires |high| <= all && |low| <= all && SentinelHolds(all, grid.cfg.maxExtraCost)
      modifies tracked, lost, grid
      ensures grid.Valid() && unconfirmed == [] && |leftHigh| <= |high|
      ensures Grew(grid.cfg.enabled, old(grid.log), grid.log, f.streamId, |high| - |leftHigh| + |low|)
      ensures BestMatched(tracked + lost, MovedOn(kalman, old(Shots(tracked)) + old(Shots(lost))), old(Shots(high)), highSource,
                          c.matchIou, c.fuseScore, Surcharge(f))
      ensures LowStage(kalman, tracked, old(Shots(tracked)), second, left, old(Shots(low)), highSource, lowSource,
                       c.lowMatchIou, c.fuseScore, Surcharge(f))
      ensures TrackedFates(kalman, tracked, old(Shots(tracked)), Shots(tracked), old(Shots(high)), highSource, old(Shots(low)), lowSource, frameId)
      ensures HighFates(kalman, lost, old(Shots(lost)), Shots(lost), old(Shots(high)), highSource, frameId)
      ensures StageLists(tracked, lost, activated, refound, newlyLost, highSource, lowSource)
      ensures StageSources(highSource, tracked + lost, |high|, leftAt) && ListAt(high, leftHigh, leftAt)
      ensures SourcesIn(lowSource, tracked, |low|) && forall t :: t in lowSource ==> t !in highSource
    {
      hide SceneGrid.Valid, Grew, SentinelHolds, HighFates, LowFates, TrackedFates, StageSources, SourcesIn, ListAt, BestMatched, MovedOn,
        NoRepeats, Apart, FirstLists, StageLists, Unmatched, AllTracked, LeftBySource, LeftMoved, SameShots, KeptWhere, InState, ListsByState,
        Shots, Track.Now;
      ListsInState(tracked, lost);
      ghost var was, wasLost, lowShots, highShots, log := Shots(tracked), Shots(lost), Shots(low), Shots(high), grid.log;
      FirstInState(was, wasLost);
      ApartFromBoth(tracked, lost, low);
      var remaining, more, matched;
      matched, refound, remaining, unconfirmed, leftHigh, leftAt, highSource := FollowAll(high, f, all);
      ghost var mid, midLeft, grown := Shots(tracked), Shots(remaining), grid.log;
      assert Shots(low) == lowShots;
      second, left := remaining, midLeft;
      ShotsAgree(tracked, remaining);
      LeftAreMoved(kalman, tracked, was, mid, remaining, midLeft, highShots, highSource, frameId);
      more, newlyLost, lowSource := FollowRest(remaining, low, f, all, highSource);
      GrewMore(grid.cfg.enabled, log, grown, grid.log, f.streamId, |high| - |leftHigh|, |low|);
      ShotsAgree(tracked, remaining);
      StagesCombine(kalman, tracked, remaining, was, mid, Shots(tracked), midLeft, Shots(remaining), highShots, highSource, lowShots, lowSource, frameId);
      activated := matched + more;
      ListsCombine(tracked, lost, remaining, matched, refound, more, newlyLost, highSource, lowSource);
    }

    /** A detection becomes a track; the others stay as they are. */
    method StartTrack(det: Track, f: FrameInfo, ghost dets: seq<Track>, ghost i: nat, ghost started: seq<Track>)
      requires grid.Valid() && i < |dets| && dets[i] == det
      requires forall j :: 0 <= j < |started| ==> started[j] != det
      requires forall j :: 0 <= j < |dets| && j != i ==> dets[j] != det
      modifies det, grid, this`nextTrackId
      ensures Grew(grid.cfg.enabled, old(grid.log), grid.log, f.streamId, 1)
      ensures grid.Valid() && nextTrackId == old(nextTrackId) + 1
      ensures Shots(dets) == old(Shots(dets))[i := Activated(kalman, old(det.Now()), frameId, old(nextTrackId))]
      ensures Shots(started + [det]) == old(Shots(started)) + [Activated(kalman, old(det.Now()), frameId, old(nextTrackId))]
    {
      hide SceneGrid.Valid, Grew, Activated;
      det.Activate(kalman, frameId, nextTrackId);
      nextTrackId := nextTrackId + 1;
      grid.Observe(f.streamId, f.width, f.height, det.box);
      assert forall j :: 0 <= j < |started| ==> Shots(started + [det])[j] == old(started[j].Now());
    }

    /** Detections nobody took and that score high enough become tracks, under the next ids. */
    method StartTracks(dets: seq<Track>, f: FrameInfo) returns (started: seq<Track>)
      requires NoRepeats(dets) && grid.Valid()
      modifies dets, grid, this`nextTrackId
      ensures Grew(grid.cfg.enabled, old(grid.log), grid.log, f.streamId, |dets|)
      ensures grid.Valid() && NoRepeats(started) && nextTrackId == old(nextTrackId) + |started|
      ensures StartedAmong(kalman, started, Shots(started), dets, old(Shots(dets)), frameId, old(nextTrackId), c.newTrackThresh)
    {
      hide SceneGrid.Valid, Grew, Activated, NoRepeats, StartedSoFar, StartedAmong, Shots;
      started := [];
      ghost var was, id, on, log := Shots(dets), nextTrackId, grid.cfg.enabled, grid.log;
      NotGrown(on, log, f.streamId);
      NothingStarted(kalman, dets, was, frameId, id, c.newTrackThresh);
      for i := 0 to |dets|
        invariant Grew(on, log, grid.log, f.streamId, i)
        invariant grid.Valid() && nextTrackId == id + |started|
        invariant StartedSoFar(kalman, started, Shots(started), dets, was, Shots(dets), i, frameId, id, c.newTrackThresh)
      {
        var det := dets[i];
        ghost var now, all := Shots(started), Shots(dets);
        NotYetStarted(kalman, started, now, dets, was, all, i, frameId, id, c.newTrackThresh);
        NextStarted(kalman, started, now, dets, was, all, i, frameId, id, c.newTrackThresh);
        ghost var grown := grid.log;
        GrewAtMost(on, log, grown, f.streamId, i, i + 1);
        if det.score < c.newTrackThresh {
          continue;
        }
        StartTrack(det, f, dets, i, started);
        GrewMore(on, log, grown, grid.log, f.streamId, i, 1);
        started := started + [det];
      }
      AllStarted(kalman, started, Shots(started), dets, was, Shots(dets), frameId, id, c.newTrackThresh);
    }

    /** Lost tracks that have not been matched for longer than the buffer are removed. */
    method RemoveOld(ghost others: seq<Track>) returns (removed: seq<Track>)
      requires NoRepeats(lost) && forall i :: 0 <= i < |others| ==> others[i] !in lost
      modifies lost
      ensures OldRemoved(old(Shots(lost)), Shots(lost), frameId, c.trackBuffer)
      ensures ListsOld(lost, removed, old(Shots(lost)), frameId, c.trackBuffer)
      ensures Shots(others) == old(Shots(others))
    {
      removed := [];
      for i := 0 to |lost|
        invariant Shots(others) == old(Shots(others))
        invariant forall j :: 0 <= j < i ==>
          lost[j].Now() == if frameId - old(lost[j].frameId) > c.trackBuffer then old(lost[j].Now()).(state := Removed) else old(lost[j].Now())
        invariant forall j :: i <= j < |lost| ==> lost[j].Now() == old(lost[j].Now())
        invariant forall t :: t in removed <==> t in lost[..i] && frameId - old(t.frameId) > c.trackBuffer
      {
        assert lost[..i + 1] == lost[..i] + [lost[i]];
        if frameId - lost[i].frameId > c.trackBuffer {
          lost[i].SetState(Removed);
          removed := removed + [lost[i]];
        }
      }
      assert lost[..|lost|] == lost;
    }

    /** The tracked list of the next frame: whoever was matched, started or found again. */
    method MergeTracked(activated: seq<Track>, refound: seq<Track>, ghost all: seq<Track>) returns (out: seq<Track>)
      requires OneTrackPerId(all) && Part(tracked, all) && Part(activated, all) && Part(refound, all)
      requires forall t :: t in tracked && t.state == Tracked ==> t in activated
      ensures DistinctIds(out) && forall t :: t in out <==> t in activated || t in refound
    {
      var kept := StillTracked(tracked);
      var withActivated := JointTracks(kept, activated);
      OneTrackPerPart(all, kept, activated);
      JointHoldsAll(kept, activated, withActivated);
      out := JointTracks(withActivated, refound);
      OneTrackPerPart(all, withActivated, refound);
      JointHoldsAll(withActivated, refound, out);
    }

    /** The lost list of the next frame. */
    method MergeLost(trackedNext: seq<Track>, newlyLost: seq<Track>, removed: seq<Track>, ghost all: seq<Track>) returns (out: seq<Track>)
      requires OneTrackPerId(all) && Part(tracked, all) && Part(lost, all) && Part(trackedNext, all)
      requires NoRepeats(tracked + lost) && NoRepeats(newlyLost) && Part(newlyLost, tracked)
      requires forall t :: t in trackedNext ==> t.state == Tracked
      requires forall t :: t in newlyLost ==> t.state == Lost
      requires forall t :: t in lost && t.state == Tracked ==> t in trackedNext
      requires forall t :: t in removed <==> t in lost && t.state == Removed
      ensures DistinctIds(out) && forall t :: t in out <==> (t in lost && t.state == Lost) || t in newlyLost
    {
      var someLost := SubTracks(lost, trackedNext);
      SomeLostDistinct(all, tracked, lost, someLost, newlyLost);
      out := SubTracks(someLost + newlyLost, removed);
      LostAre(all, lost, trackedNext, newlyLost, removed, someLost, out);
    }

    /** The lists after the stages, by state. */
    method MergeLists(activated: seq<Track>, refound: seq<Track>, newlyLost: seq<Track>, removed: seq<Track>)
      requires CanSettle(tracked, lost, activated, refound, newlyLost, removed)
      modifies this`tracked, this`lost
      ensures DistinctIds(tracked + lost)
      ensures Merged(tracked, lost, old(lost), activated, refound, newlyLost)
    {
      ghost var all := tracked + lost + activated;
      assert Part(tracked, all) && Part(lost, all) && Part(activated, all) && Part(refound, all) && Part(newlyLost, all);
      DistinctIdsDoNotRepeat(tracked + lost);
      hide OneTrackPerId, NoRepeats;
      var trackedNext := MergeTracked(activated, refound, all);
      var lostNext := MergeLost(trackedNext, newlyLost, removed, all);
      NextDistinct(all, trackedNext, lostNext);
      tracked, lost := trackedNext, lostNext;
    }

    /** The third stage. Its list of unconfirmed tracks is empty, so it leaves every detection. */
    method MatchUnconfirmed(unconfirmed: seq<Track>, leftHigh: seq<Track>, f: FrameInfo, ghost all: nat) returns (leftDets: seq<Track>)
      requires unconfirmed == [] && NoRepeats(leftHigh) && grid.Valid()
      requires |leftHigh| <= all && SentinelHolds(all, grid.cfg.maxExtraCost)
      modifies grid
      ensures grid.Valid() && NoRepeats(leftDets) && |leftDets| <= |leftHigh|
      ensures Grew(grid.cfg.enabled, old(grid.log), grid.log, f.streamId, |leftHigh| - |leftDets|)
      ensures forall t :: t in leftDets <==> t in leftHigh
    {
      hide SceneGrid.Valid, Grew, SentinelHolds, StageOutcome, ListedBySource;
      var activated, refound, leftTracks;
      ghost var leftAt, source;
      activated, refound, leftTracks, leftDets, leftAt, source :=
        RunStage(Stage.Unconfirmed, c.unconfirmedMatchIou, unconfirmed, leftHigh, f, all);
      NothingTaken(leftHigh, leftDets, leftAt, source);
    }

    /** The third stage and the new tracks. */
    method StartUnmatched(unconfirmed: seq<Track>, leftHigh: seq<Track>, ghost high: seq<Track>, f: FrameInfo, ghost all: nat)
      returns (started: seq<Track>, ghost leftDets: seq<Track>, ghost wasLeft: seq<Shot>)
      requires unconfirmed == [] && NoRepeats(leftHigh) && grid.Valid() && forall t :: t in leftHigh ==> t in high
      requires |leftHigh| <= all && SentinelHolds(all, grid.cfg.maxExtraCost)
      modifies high, grid, this`nextTrackId
      ensures Grew(grid.cfg.enabled, old(grid.log), grid.log, f.streamId, |leftHigh|)
      ensures grid.Valid() && nextTrackId == old(nextTrackId) + |started| && |wasLeft| == |leftDets|
      ensures StartedAmong(kalman, started, Shots(started), leftDets, wasLeft, frameId, old(nextTrackId), c.newTrackThresh)
      ensures forall t :: t in leftDets <==> t in leftHigh
      ensures forall i, j :: 0 <= i < |leftDets| && 0 <= j < |high| && leftDets[i] == high[j] ==> wasLeft[i] == old(Shots(high))[j]
    {
      hide SceneGrid.Valid, Grew, SentinelHolds, StartedAmong, NoRepeats;
      ghost var was, log := Shots(high), grid.log;
      var left := MatchUnconfirmed(unconfirmed, leftHigh, f, all);
      leftDets, wasLeft := left, Shots(left);
      ghost var grown := grid.log;
      assert Shots(high) == was;
      LeftAgree(high, left);
      assert forall i :: 0 <= i < |left| ==> left[i] in left && left[i] in high;
      started := StartTracks(left, f);
      GrewMore(grid.cfg.enabled, log, grown, grid.log, f.streamId, |leftHigh| - |left|, |left|);
    }

    /** The third stage and the new tracks, leaving the tracks in the lists alone. */
    method StartLeft(unconfirmed: seq<Track>, leftHigh: seq<Track>, high: seq<Track>, f: FrameInfo, ghost all: nat,
                     ghost leftAt: seq<nat>, ghost source: map<Track, nat>) returns (started: seq<Track>)
      requires unconfirmed == [] && NoRepeats(high) && Apart(tracked + lost, high) && grid.Valid()
      requires StageSources(source, tracked + lost, |high|, leftAt) && ListAt(high, leftHigh, leftAt)
      requires |high| <= all && SentinelHolds(all, grid.cfg.maxExtraCost)
      modifies high, grid, this`nextTrackId
      ensures Grew(grid.cfg.enabled, old(grid.log), grid.log, f.streamId, |leftHigh|)
      ensures grid.Valid() && nextTrackId == old(nextTrackId) + |started|
      ensures StartedFrom(kalman, started, Shots(started), high, old(Shots(high)), source, frameId, old(nextTrackId), c.newTrackThresh)
      ensures Shots(tracked) == old(Shots(tracked)) && Shots(lost) == old(Shots(lost))
      ensures forall i :: 0 <= i < |started| ==> started[i] !in tracked && started[i] !in lost
    {
      hide SceneGrid.Valid, Grew, SentinelHolds, SourcesIn, StartedFrom, StartedAmong;
      AscendingShort(leftAt, |high|, |leftAt|);
      ListNoRepeats(high, leftHigh, leftAt);
      ApartFromBoth(tracked, lost, high);
      LeftMembers(high, leftHigh, leftAt, source, tracked + lost);
      ghost var was := Shots(high);
      hide Apart, StageSources, ListAt, IsTaken, NoRepeats;
      ghost var leftDets, wasLeft;
      started, leftDets, wasLeft := StartUnmatched(unconfirmed, leftHigh, high, f, all);
      StartedMeans(kalman, started, Shots(started), leftDets, wasLeft, high, was, source, frameId, old(nextTrackId), c.newTrackThresh);
      StartedApart(kalman, tracked, lost, high, started, Shots(started), was, source, frameId, old(nextTrackId), c.newTrackThresh);
    }

    /** The stages after matching: new tracks start, and old lost ones are removed. */
    method EndStages(unconfirmed: seq<Track>, leftHigh: seq<Track>, high: seq<Track>, f: FrameInfo, ghost all: nat,
                     ghost leftAt: seq<nat>, ghost source: map<Track, nat>) returns (started: seq<Track>, removed: seq<Track>)
      requires unconfirmed == [] && NoRepeats(high) && NoRepeats(tracked + lost) && Apart(tracked + lost, high) && grid.Valid()
      requires StageSources(source, tracked + lost, |high|, leftAt) && ListAt(high, leftHigh, leftAt)
      requires |high| <= all && SentinelHolds(all, grid.cfg.maxExtraCost)
      modifies lost, high, grid, this`nextTrackId
      ensures Grew(grid.cfg.enabled, old(grid.log), grid.log, f.streamId, |leftHigh|)
      ensures grid.Valid() && nextTrackId == old(nextTrackId) + |started|
      ensures StartedFrom(kalman, started, Shots(started), high, old(Shots(high)), source, frameId, old(nextTrackId), c.newTrackThresh)
      ensures forall i :: 0 <= i < |started| ==> started[i] !in tracked && started[i] !in lost
      ensures Shots(tracked) == old(Shots(tracked))
      ensures OldRemoved(old(Shots(lost)), Shots(lost), frameId, c.trackBuffer)
      ensures ListsOld(lost, removed, old(Shots(lost)), frameId, c.trackBuffer)
    {
      hide SceneGrid.Valid, Grew, SentinelHolds, StageSources, ListAt, StartedFrom, OldRemoved, ListsOld, Apart;
      LostDoNotRepeat(tracked, lost);
      started := StartLeft(unconfirmed, leftHigh, high, f, all, leftAt, source);
      ghost var others, mid := tracked + started, Shots(lost);
      ghost var trackedMid, startedMid := Shots(tracked), Shots(started);
      assert Shots(others) == trackedMid + startedMid;
      removed := RemoveOld(others);
      OthersKept(tracked, started, trackedMid, startedMid);
      hide NoRepeats;
    }

    /** All stages: tracks are matched, lost, found again, started and removed; the lists are not touched yet. */
    method Advance(high: seq<Track>, low: seq<Track>, f: FrameInfo, ghost all: nat, ghost highAt: seq<nat>, ghost lowAt: seq<nat>)
      returns (activated: seq<Track>, refound: seq<Track>, newlyLost: seq<Track>, removed: seq<Track>, ghost s: Story)
      requires Listed() && grid.Valid()
      requires NoRepeats(high) && NoRepeats(low) && Apart(tracked + lost, high) && Apart(tracked + lost, low) && Apart(high, low)
      requires |high| == |highAt| <= all && |low| <= all && SentinelHolds(all, grid.cfg.maxExtraCost) && c.trackBuffer >= 0
      modifies tracked, lost, high, grid, this`nextTrackId
      ensures grid.Valid() && Grew(grid.cfg.enabled, old(grid.log), grid.log, f.streamId, |high| + |low|)
      ensures Told(kalman, c, s, Surcharge(f), frameId, old(nextTrackId))
      ensures s.tracked == tracked && s.lost == lost && s.wasTracked == old(Shots(tracked)) && s.wasLost == old(Shots(lost)) && s.Ends()
      ensures s.high == high && s.highShots == old(Shots(high)) && s.highAt == highAt && s.lowShots == old(Shots(low)) && s.lowAt == lowAt
      ensures Lists(s, activated, refound, newlyLost, removed)
      ensures NoRepeats(newlyLost)
      ensures nextTrackId == old(nextTrackId) + |s.started|
    {
      hide SceneGrid.Valid, Grew, SentinelHolds, TrackedFates, HighFates, FatesOfLost, StageSources, SourcesIn, ListAt, StartedFrom,
        BestMatched, LowStage, MovedOn, StageLists, OldRemoved, ListsOld, RemovedIfOld, Lists, InState, ListsByState, NoRepeats, Apart,
        Surcharge, Told, Story.Ends, Shots, Track.Now;
      ListsInState(tracked, lost);
      ApartFromBoth(tracked, lost, high);
      ghost var highShots, lowShots, wasTracked, was, log := Shots(high), Shots(low), Shots(tracked), Shots(lost), grid.log;
      FirstInState(wasTracked, was);
      var unconfirmed, leftHigh, matched;
      ghost var leftAt, highSource, lowSource, second, left;
      matched, refound, newlyLost, unconfirmed, leftHigh, leftAt, highSource, lowSource, second, left := Follow(high, low, f, all);
      SourcesOfStage(highSource, tracked + lost, |high|, leftAt);
      assert Shots(high) == highShots;
      ghost var mid, grown := Shots(lost), grid.log;
      var started;
      started, removed := EndStages(unconfirmed, leftHigh, high, f, all, leftAt, highSource);
      GrewMore(grid.cfg.enabled, log, grown, grid.log, f.streamId, |high| - |leftHigh| + |low|, |leftHigh|);
      LostFates(kalman, lost, was, mid, Shots(lost), highShots, highSource, frameId, c.trackBuffer);
      RemovedAre(lost, removed, mid, frameId, c.trackBuffer);
      s := StoryOf(kalman, c, tracked, lost, wasTracked, was, high, highShots, highAt, highSource, lowShots, lowAt, lowSource, second, left,
                   started, Surcharge(f), frameId, old(nextTrackId), matched, refound, newlyLost, removed);
      activated := matched + started;
    }

    /** The lists of the next frame: merged, then without tracked and lost tracks that are the same person. */
    method Settle(activated: seq<Track>, refound: seq<Track>, newlyLost: seq<Track>, removed: seq<Track>)
      returns (ghost trackedAll: seq<Track>, ghost lostAll: seq<Track>)
      requires CanSettle(tracked, lost, activated, refound, newlyLost, removed)
      modifies this`tracked, this`lost
      ensures DistinctIds(tracked + lost)
      ensures Merged(trackedAll, lostAll, old(lost), activated, refound, newlyLost)
      ensures Deduplicated(tracked, lost, trackedAll, lostAll, c.duplicateIou)
    {
      hide CanSettle, Merged, NoRepeats, YieldsToOne, BeatenByOne;
      MergeLists(activated, refound, newlyLost, removed);
      trackedAll, lostAll := tracked, lost;
      BothDistinct(tracked, lost);
      var trackedOut, lostOut := RemoveDuplicateTracks(tracked, lost, c.duplicateIou);
      PartsDistinct(tracked, lost, trackedOut, lostOut);
      forall t, u | t in trackedOut && u in lostOut
        ensures BoxIou(t.box, u.box) < Clamp(c.duplicateIou, 0.0, MAX_DUPLICATE_IOU)
      {
        NoDuplicateSurvives(tracked, lost, c.duplicateIou, t, u);
      }
      tracked, lost := trackedOut, lostOut;
    }

    /**
      Between frames: ids lie in 1 .. nextTrackId - 1 and none is used twice; every tracked track was
      followed in the last frame; and every lost one is activated and lost.
    */
    ghost predicate Valid()
      reads this`frameId, this`nextTrackId, this`tracked, this`lost, grid, tracked, lost
    {
      && c.WellFormed()
      && grid.Valid()
      && nextTrackId >= 1
      && IdsOf(Shots(tracked + lost), nextTrackId)
      && (forall i :: 0 <= i < |tracked| ==> Followed(kalman, tracked[i].Now(), frameId))
      && (forall i :: 0 <= i < |lost| ==> lost[i].state == Lost && lost[i].isActivated)
    }

    /** A frame begins: the grid decays, and detections become tracks that are in no list yet. */
    method Begin(f: FrameInfo, dets: seq<Box>) returns (high: seq<Track>, low: seq<Track>, ghost highAt: seq<nat>, ghost lowAt: seq<nat>)
      requires c.WellFormed() && grid.Valid()
      modifies grid
      ensures grid.Valid()
      ensures grid.log == if grid.cfg.enabled then old(grid.log)[f.streamId := Of(old(grid.log), f.streamId).Begun()] else old(grid.log)
      ensures fresh(high) && NoRepeats(high) && NoRepeats(low) && Apart(high, low) && Apart(tracked + lost, high) && Apart(tracked + lost, low)
      ensures AreDetections(Shots(high), highAt, dets) && AreDetections(Shots(low), lowAt, dets)
      ensures |highAt| == |high| && |lowAt| == |low| && |high| + |low| <= |dets| && SplitByScore(c, dets, highAt, lowAt)
    {
      hide SceneGrid.Valid, AreDetections, SplitByScore, History.Begun, Decayed, NoRepeats;
      grid.BeginFrame(f.streamId);
      high, low, highAt, lowAt := TakeDetections(c, dets);
    }

    /** Detections become tracks and all stages run; the lists stay as they are. */
    method Observe(f: FrameInfo, dets: seq<Box>)
      returns (activated: seq<Track>, refound: seq<Track>, newlyLost: seq<Track>, removed: seq<Track>, ghost s: Story)
      requires Listed() && c.WellFormed() && grid.Valid() && SentinelHolds(|dets|, grid.cfg.maxExtraCost)
      modifies tracked, lost, grid, this`nextTrackId
      ensures AddsAtMost(old(grid.log), grid.log, |dets|)
      ensures grid.Valid() && nextTrackId == old(nextTrackId) + |s.started| && NoRepeats(newlyLost)
      ensures Told(kalman, c, s, Surcharge(f), frameId, old(nextTrackId)) && About(c, s, dets)
      ensures s.tracked == tracked && s.lost == lost && s.wasTracked == old(Shots(tracked)) && s.wasLost == old(Shots(lost)) && s.Ends()
      ensures fresh(s.high)
      ensures Lists(s, activated, refound, newlyLost, removed)
    {
      hide SceneGrid.Valid, Grew, AddsAtMost, SentinelHolds, AreDetections, SplitByScore, Told, Lists, NoRepeats, Apart, ListsByState,
        Story.Ends, History.Begun;
      ghost var wasTracked, wasLost, log := Shots(tracked), Shots(lost), grid.log;
      var high, low;
      ghost var highAt, lowAt;
      high, low, highAt, lowAt := Begin(f, dets);
      ghost var begun := grid.log;
      assert Shots(tracked) == wasTracked && Shots(lost) == wasLost;
      activated, refound, newlyLost, removed, s := Advance(high, low, f, |dets|, highAt, lowAt);
      GrewAtMost(grid.cfg.enabled, begun, grid.log, f.streamId, |high| + |low|, |dets|);
      FrameAddsAtMost(grid.cfg.enabled, log, begun, grid.log, f.streamId, |dets|);
    }

    /** The stages of a frame, told by the lists they hand on and by where everything comes from. */
    method ObserveLists(f: FrameInfo, dets: seq<Box>)
      returns (activated: seq<Track>, refound: seq<Track>, newlyLost: seq<Track>, removed: seq<Track>, ghost s: Story)
      requires Listed() && c.WellFormed() && grid.Valid() && SentinelHolds(|dets|, grid.cfg.maxExtraCost)
      modifies tracked, lost, grid, this`nextTrackId
      ensures AddsAtMost(old(grid.log), grid.log, |dets|)
      ensures grid.Valid() && nextTrackId == old(nextTrackId) + |s.started| && NoRepeats(newlyLost)
      ensures Told(kalman, c, s, Surcharge(f), frameId, old(nextTrackId)) && About(c, s, dets)
      ensures s.tracked == tracked && s.lost == lost && s.wasTracked == old(Shots(tracked)) && s.wasLost == old(Shots(lost)) && s.Ends()
      ensures fresh(s.high)
      ensures Lists(s, activated, refound, newlyLost, removed)
      ensures StagesDone(kalman, tracked, lost, activated, refound, newlyLost, removed, s.started, old(Shots(tracked)), old(Shots(lost)),
                         frameId, c.trackBuffer, old(nextTrackId))
      ensures EveryoneAfter(kalman, s, frameId, c.trackBuffer, old(nextTrackId))
      ensures Sources(kalman, activated, refound, s.started, s.high, s.highAt, s.highSource, s.lowAt, s.lowSource, dets)
    {
      hide SceneGrid.Valid, AddsAtMost, SentinelHolds, DistinctIds, StagesDone, AreDetections, SplitByScore, Told, Lists, EveryoneAfter,
        Sources, StartedFrom, SourcesIn, Sourced, NoRepeats;
      ghost var wasTracked, wasLost := Shots(tracked), Shots(lost);
      activated, refound, newlyLost, removed, s := Observe(f, dets);
      EveryoneMeans(kalman, c, s, Surcharge(f), frameId, old(nextTrackId));
      StoryDone(kalman, s, frameId, c.trackBuffer, old(nextTrackId), activated, refound, newlyLost, removed);
      StorySourced(kalman, s, frameId, c.trackBuffer, old(nextTrackId), activated, refound, newlyLost, removed);
      StoryOrigins(kalman, c, s, Surcharge(f), frameId, old(nextTrackId), dets, activated, refound);
    }

    /** The boxes of the tracked tracks, and for each the detection it stands for. */
    method Report(ghost activated: seq<Track>, ghost refound: seq<Track>, ghost s: Story, ghost dets: seq<Box>)
      returns (out: seq<Box>, ghost source: seq<nat>)
      requires Sources(kalman, activated, refound, s.started, s.high, s.highAt, s.highSource, s.lowAt, s.lowSource, dets)
      requires SplitByScore(c, dets, s.highAt, s.lowAt) && DistinctIds(tracked)
      requires forall t :: t in tracked ==> t in activated || t in refound
      requires forall i :: 0 <= i < |tracked| ==> Followed(kalman, tracked[i].Now(), frameId)
      ensures |out| == |source| == |tracked|
      ensures forall i :: 0 <= i < |out| ==> out[i] == Reported(tracked[i].Now())
      ensures forall i :: 0 <= i < |out| ==>
        source[i] < |dets| && (c.High(dets[source[i]]) || c.Low(dets[source[i]])) && out[i].score == dets[source[i]].score
      ensures |s.high| == |s.highAt|
      ensures forall i :: 0 <= i < |out| ==> out[i].id == tracked[i].id && !out[i].occluded
      ensures forall i :: 0 <= i < |out| ==> Origin(tracked[i], source[i], s.high, s.highAt, s.highSource, s.lowAt, s.lowSource)
      ensures forall i, j :: 0 <= i < j < |source| ==> source[i] != source[j]
    {
      out, source := [], [];
      hide Settings.SizeValid, SplitByScore, Injective, NotTaken, Shot.Framed, Origin;
      DistinctIdsDoNotRepeat(tracked);
      for i := 0 to |tracked|
        invariant |out| == |source| == i
        invariant forall j :: 0 <= j < i ==> out[j] == Reported(tracked[j].Now())
        invariant forall j :: 0 <= j < i ==>
          source[j] < |dets| && out[j].score == dets[source[j]].score
          && Origin(tracked[j], source[j], s.high, s.highAt, s.highSource, s.lowAt, s.lowSource)
      {
        var t := tracked[i];
        assert t in tracked && t in activated + refound;
        // Every track in the list is activated and tracked, so none is passed over here.
        if !t.isActivated || t.state != Tracked {
          assert false;
        }
        out := out + [Reported(t.Now())];
        ghost var d: nat :| d < |dets| && Origin(t, d, s.high, s.highAt, s.highSource, s.lowAt, s.lowSource) && t.score == dets[d].score;
        source := source + [d];
      }
      forall i | 0 <= i < |source|
        ensures c.High(dets[source[i]]) || c.Low(dets[source[i]])
      {
        OriginIsDetection(c, dets, s.high, s.highAt, s.highSource, s.lowAt, s.lowSource, tracked[i], source[i]);
      }
      forall i, j | 0 <= i < j < |source|
        ensures source[i] != source[j]
      {
        assert tracked[i] in activated + refound && tracked[j] in activated + refound;
        if source[i] == source[j] {
          OriginsDiffer(c, dets, s.high, s.highAt, s.highSource, s.lowAt, s.lowSource, tracked[i], tracked[j], source[i]);
        }
      }
    }

    /** The stages of a frame; every track they leave goes on, and the lists are ready to be merged. */
    method RunStages(f: FrameInfo, dets: seq<Box>, ghost before: int)
      returns (activated: seq<Track>, refound: seq<Track>, newlyLost: seq<Track>, removed: seq<Track>, ghost s: Story)
      requires Listed() && c.WellFormed() && grid.Valid() && SentinelHolds(|dets|, grid.cfg.maxExtraCost) && nextTrackId >= 1
      requires IdsOf(Shots(tracked) + Shots(lost), nextTrackId)
      requires AllAt(Shots(tracked), before)
      modifies tracked, lost, grid, this`nextTrackId
      ensures AddsAtMost(old(grid.log), grid.log, |dets|)
      ensures grid.Valid() && nextTrackId == old(nextTrackId) + |s.started|
      ensures Told(kalman, c, s, Surcharge(f), frameId, old(nextTrackId)) && About(c, s, dets)
      ensures s.tracked == tracked && s.lost == lost && s.wasTracked == old(Shots(tracked)) && s.wasLost == old(Shots(lost)) && s.Ends()
      ensures fresh(s.high)
      ensures Lists(s, activated, refound, newlyLost, removed) && EveryoneAfter(kalman, s, frameId, c.trackBuffer, old(nextTrackId))
      ensures Sources(kalman, activated, refound, s.started, s.high, s.highAt, s.highSource, s.lowAt, s.lowSource, dets)
      ensures CanSettle(tracked, lost, activated, refound, newlyLost, removed) && Part(activated, tracked + lost + s.started)
      ensures AllGoOn(kalman, tracked + lost + s.started, old(Shots(tracked)) + old(Shots(lost)), old(nextTrackId), nextTrackId, frameId, before,
                      c.trackBuffer)
    {
      hide SceneGrid.Valid, AddsAtMost, SentinelHolds, About, Told, Lists, EveryoneAfter, Sources, StagesDone, IdsOf, CanSettle, AllGoOn, Part,
        ListsByState, NoRepeats;
      ghost var wasTracked, wasLost := Shots(tracked), Shots(lost);
      activated, refound, newlyLost, removed, s := ObserveLists(f, dets);
      ReadyToSettle(kalman, tracked, lost, activated, refound, newlyLost, removed, s.started, wasTracked, wasLost, frameId, c.trackBuffer, old(nextTrackId));
      EveryoneGoesOn(kalman, tracked, lost, activated, refound, newlyLost, removed, s.started, wasTracked, wasLost, frameId, before,
                     c.trackBuffer, old(nextTrackId));
    }

    /** The stages and the new lists of a frame, keeping the life cycle of every track. */
    method NextLists(f: FrameInfo, dets: seq<Box>, ghost before: int)
      returns (ghost activated: seq<Track>, ghost refound: seq<Track>, ghost s: Story, ghost followed: seq<Track>, ghost waiting: seq<Track>)
      requires Listed() && c.WellFormed() && grid.Valid() && SentinelHolds(|dets|, grid.cfg.maxExtraCost) && nextTrackId >= 1
      requires IdsOf(Shots(tracked) + Shots(lost), nextTrackId)
      requires AllAt(Shots(tracked), before)
      modifies tracked, lost, grid, this`nextTrackId, this`tracked, this`lost
      ensures AddsAtMost(old(grid.log), grid.log, |dets|)
      ensures grid.Valid() && nextTrackId == old(nextTrackId) + |s.started| && DistinctIds(tracked + lost)
      ensures Told(kalman, c, s, Surcharge(f), frameId, old(nextTrackId)) && About(c, s, dets)
      ensures s.tracked == old(tracked) && s.lost == old(lost) && s.wasTracked == old(Shots(tracked)) && s.wasLost == old(Shots(lost)) && s.Ends()
      ensures fresh(s.high)
      ensures Sources(kalman, activated, refound, s.started, s.high, s.highAt, s.highSource, s.lowAt, s.lowSource, dets)
      ensures forall t :: t in tracked ==> t in activated || t in refound
      ensures ListedBy(s, followed, waiting, frameId, c.trackBuffer) && Deduplicated(tracked, lost, followed, waiting, c.duplicateIou)
      ensures SettledIn(kalman, tracked, Tracked, old(Shots(tracked)) + old(Shots(lost)), old(nextTrackId), nextTrackId, frameId, before, c.trackBuffer)
      ensures SettledIn(kalman, lost, Lost, old(Shots(tracked)) + old(Shots(lost)), old(nextTrackId), nextTrackId, frameId, before, c.trackBuffer)
    {
      hide SceneGrid.Valid, AddsAtMost, SentinelHolds, About, Told, Sources, IdsOf, DistinctIds, Lists, EveryoneAfter, ListedBy, Story.Ends,
        CanSettle, AllGoOn, Part, Merged, Deduplicated, SettledIn, ListsByState;
      ghost var was := Shots(tracked) + Shots(lost);
      var go, again, newlyLost, removed;
      go, again, newlyLost, removed, s := RunStages(f, dets, before);
      activated, refound := go, again;
      followed, waiting := Settle(go, again, newlyLost, removed);
      StoryLists(kalman, s, frameId, c.trackBuffer, old(nextTrackId), go, again, newlyLost, removed, followed, waiting);
      SettledGoOn(kalman, old(tracked), old(lost), s.started, go, again, newlyLost, removed, followed, waiting, tracked, lost, c.duplicateIou,
                  was, old(nextTrackId), nextTrackId, frameId, before, c.trackBuffer);
      FollowedWere(followed, waiting, old(lost), go, again, newlyLost, tracked);
    }

    /** The life cycle of a frame, without its report. */
    method UpdateLists(f: FrameInfo, dets: seq<Box>)
      returns (ghost activated: seq<Track>, ghost refound: seq<Track>, ghost s: Story, ghost followed: seq<Track>, ghost waiting: seq<Track>)
      requires Valid() && SentinelHolds(|dets|, grid.cfg.maxExtraCost)
      modifies this`frameId, this`nextTrackId, this`tracked, this`lost, grid, tracked, lost
      ensures Valid()
      ensures frameId == if f.frameId > 0 then f.frameId else old(frameId) + 1
      ensures nextTrackId == old(nextTrackId) + |s.started|
      ensures RetiredIds(old(Shots(tracked + lost)), old(nextTrackId)) <= RetiredIds(Shots(tracked + lost), nextTrackId)
      ensures Told(kalman, c, s, Surcharge(f), frameId, old(nextTrackId)) && About(c, s, dets)
      ensures s.tracked == old(tracked) && s.lost == old(lost) && s.wasTracked == old(Shots(tracked)) && s.wasLost == old(Shots(lost)) && s.Ends()
      ensures fresh(s.high)
      ensures ListedBy(s, followed, waiting, frameId, c.trackBuffer)
      ensures Deduplicated(tracked, lost, followed, waiting, c.duplicateIou)
      ensures forall i :: 0 <= i < |lost| ==> frameId - lost[i].frameId <= c.trackBuffer || lost[i].frameId == old(frameId)
      ensures frameId - old(frameId) <= c.trackBuffer || old(tracked) == [] ==> InTime(lost, frameId, c.trackBuffer)
      ensures dets == [] ==> (InTime(lost, frameId, c.trackBuffer) <==> frameId - old(frameId) <= c.trackBuffer || old(tracked) == [])
      ensures AddsAtMost(old(grid.log), grid.log, |dets|)
      ensures DistinctIds(tracked)
      ensures Sources(kalman, activated, refound, s.started, s.high, s.highAt, s.highSource, s.lowAt, s.lowSource, dets)
      ensures forall t :: t in tracked ==> t in activated || t in refound
    {
      hide SceneGrid.Valid, AddsAtMost, SentinelHolds, About, Told, Sources, Settings.WellFormed, ListedBy, Story.Ends, Deduplicated,
        SettledIn, IdsOf, RetiredIds, Followed, DistinctIds, ListsByState, NoRepeats, Leads, InTime;
      ghost var was := Shots(tracked) + Shots(lost);
      ShotsJoin(tracked, lost);
      FollowedAreListed(kalman, tracked, lost, frameId, nextTrackId);
      ListedOnce(tracked, lost);
      ghost var before, id := frameId, nextTrackId;
      frameId := if f.frameId > 0 then f.frameId else frameId + 1;
      activated, refound, s, followed, waiting := NextLists(f, dets, before);
      NextIds(kalman, tracked, lost, was, id, nextTrackId, frameId, before, c.trackBuffer);
      SettledAre(kalman, tracked, lost, was, id, nextTrackId, frameId, before, c.trackBuffer);
      BothDistinct(tracked, lost);
      Leading(kalman, c, s, Surcharge(f), before, frameId, id, followed, waiting, tracked, lost);
      InTimeWhateverDetected(kalman, c, s, Surcharge(f), before, frameId, id, dets, followed, waiting, tracked, lost);
    }

    /**
      One frame. What happens is told by a story of the stages, and the new lists are those followed
      and those lost in it, less the duplicates. Afterwards the life cycle invariant holds again; ids
      that had left both lists stay away; no tracked and lost track overlap beyond the clamped duplicate
      threshold; a lost track was last matched at most trackBuffer frames ago, or in the frame before;
      it is in time whatever is detected exactly if the number does not jump by more than the buffer or
      nobody was tracked; the grid learned at most as many observations as there were detections; and
      the boxes reported are those of the tracked tracks, each standing for a detection of its own, of
      valid size and scoring at least the low threshold, in its place if the filter believes its
      measurements, and all of them anonymized.
    */
    method Update(f: FrameInfo, dets: seq<Box>)
      returns (out: seq<Box>, ghost source: seq<nat>, ghost s: Story, ghost followed: seq<Track>, ghost waiting: seq<Track>)
      requires Valid() && SentinelHolds(|dets|, grid.cfg.maxExtraCost)
      modifies this`frameId, this`nextTrackId, this`tracked, this`lost, grid, tracked, lost
      ensures Valid()
      ensures frameId == if f.frameId > 0 then f.frameId else old(frameId) + 1
      ensures nextTrackId == old(nextTrackId) + |s.started|
      ensures RetiredIds(old(Shots(tracked + lost)), old(nextTrackId)) <= RetiredIds(Shots(tracked + lost), nextTrackId)
      ensures Told(kalman, c, s, Surcharge(f), frameId, old(nextTrackId)) && About(c, s, dets)
      ensures s.tracked == old(tracked) && s.lost == old(lost) && s.wasTracked == old(Shots(tracked)) && s.wasLost == old(Shots(lost)) && s.Ends()
      ensures fresh(s.high)
      ensures ListedBy(s, followed, waiting, frameId, c.trackBuffer)
      ensures Deduplicated(tracked, lost, followed, waiting, c.duplicateIou)
      ensures forall i :: 0 <= i < |lost| ==> frameId - lost[i].frameId <= c.trackBuffer || lost[i].frameId == old(frameId)
      ensures frameId - old(frameId) <= c.trackBuffer || old(tracked) == [] ==> InTime(lost, frameId, c.trackBuffer)
      ensures dets == [] ==> (InTime(lost, frameId, c.trackBuffer) <==> frameId - old(frameId) <= c.trackBuffer || old(tracked) == [])
      ensures AddsAtMost(old(grid.log), grid.log, |dets|)
      ensures |out| == |source| == |tracked|
      ensures forall i :: 0 <= i < |out| ==> out[i] == Reported(tracked[i].Now())
      ensures forall i :: 0 <= i < |out| ==>
        source[i] < |dets| && (c.High(dets[source[i]]) || c.Low(dets[source[i]])) && out[i].score == dets[source[i]].score
      ensures |s.high| == |s.highAt|
      ensures forall i :: 0 <= i < |out| ==> out[i].id == tracked[i].id && !out[i].occluded
      ensures forall i :: 0 <= i < |out| ==> Origin(tracked[i], source[i], s.high, s.highAt, s.highSource, s.lowAt, s.lowSource)
      ensures forall i, j :: 0 <= i < j < |source| ==> source[i] != source[j]
      ensures Exact(kalman) ==> forall i :: 0 <= i < |out| ==> SamePlace(out[i], dets[source[i]])
      ensures AllAnonymized(out)
      ensures forall i :: 0 <= i < |out| ==> out[i].identityKey == "" && out[i].w >= 1.0 && out[i].h >= 1.0
    {
      hide SceneGrid.Valid, AddsAtMost, SentinelHolds, SplitByScore, AreDetections, Told, Sources, Settings.SizeValid, Settings.WellFormed,
        BoxIou, BoxOf, DistinctIds, IdsOf, RetiredIds, Followed, Deduplicated, ListedBy, Origin, Story.Ends, InTime, Exact;
      ghost var activated, refound;
      activated, refound, s, followed, waiting := UpdateLists(f, dets);
      out, source := Report(activated, refound, s, dets);
      ReportedAtDetections(kalman, c, s, Surcharge(f), frameId, old(nextTrackId), dets, followed, waiting, tracked, lost, source);
      forall i | 0 <= i < |out|
        ensures out[i].privacyAction == ANONYMIZE && out[i].identityKey == "" && out[i].w >= 1.0 && out[i].h >= 1.0
      {
        FollowedIsAnonymized(kalman, tracked[i].Now(), frameId);
      }
    }
  }

  /**
    Two frames in which a track is kept as lost for too long: a strong detection is seen by a new
    tracker, and then nothing in a frame whose number is further on than the buffer.
  */
  method KeepTooLong(settings: Settings, kalman: Kalman, gridConfig: Config, squareRoot: real -> real, f: FrameInfo, det: Box, g: FrameInfo)
    returns (tracker: ByteTracker)
    requires SentinelHolds(1, gridConfig.Clamped().maxExtraCost)
    requires settings.Clamped().High(det) && det.score >= settings.Clamped().newTrackThresh
    requires g.frameId > MaxInt(f.frameId, 1) + settings.Clamped().trackBuffer
    ensures fresh(tracker) && tracker.Valid()
    ensures !InTime(tracker.lost, tracker.frameId, tracker.c.trackBuffer)
  {
    hide ByteTracker.Valid, Settings.High, Told, About, ListedBy, Deduplicated, InTime;
    tracker := new ByteTracker(settings, kalman, gridConfig, squareRoot);
    ghost var id := tracker.nextTrackId;
    ghost var source, s, followed, waiting;
    var out;
    out, source, s, followed, waiting := tracker.Update(f, [det]);
    FirstSeen(kalman, tracker.c, s, tracker.Surcharge(f), tracker.frameId, id, det, followed, waiting, tracker.tracked, tracker.lost);
    forall i | 0 <= i < |tracker.tracked|
      ensures fresh(tracker.tracked[i])
    {
      assert tracker.tracked[i] in s.high;
    }
    out, source, s, followed, waiting := tracker.Update(g, []);
  }
}
