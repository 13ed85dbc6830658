/**
  For how long the two-stage tracker of core/src/tracking/bytetrack_tracker.cpp keeps a track that is
  no longer matched, and in which list every track of a frame ends up.
*/
module ByteLimits {
  import opened Numbers
  import opened Types
  import opened ByteTracks
  import opened ByteStages

  /** No track of the list was last matched longer ago than the buffer. */
  ghost predicate InTime(lost: seq<Track>, frame: int, buffer: int)
    reads lost
  {
    forall t :: t in lost ==> frame - t.frameId <= buffer
  }

  /** The new lists are those of the story of this frame, whose tracked tracks were all last matched in the frame before. */
  ghost predicate Leads(k: Kalman, c: Settings, s: Story, extra: real, before: int, frame: int, id: int,
                        followed: seq<Track>, waiting: seq<Track>, tracked: seq<Track>, lost: seq<Track>)
    reads s.tracked, s.lost, s.started, followed, waiting, tracked, lost
  {
    && Told(k, c, s, extra, frame, id)
    && s.Ends()
    && AllAt(s.wasTracked, before)
    && ListedBy(s, followed, waiting, frame, c.trackBuffer)
    && Deduplicated(tracked, lost, followed, waiting, c.duplicateIou)
  }

  lemma Leading(k: Kalman, c: Settings, s: Story, extra: real, before: int, frame: int, id: int,
                followed: seq<Track>, waiting: seq<Track>, tracked: seq<Track>, lost: seq<Track>)
    requires Told(k, c, s, extra, frame, id) && s.Ends() && AllAt(s.wasTracked, before)
    requires ListedBy(s, followed, waiting, frame, c.trackBuffer) && Deduplicated(tracked, lost, followed, waiting, c.duplicateIou)
    ensures Leads(k, c, s, extra, before, frame, id, followed, waiting, tracked, lost)
  {
    hide Told, Story.Ends, AllAt, ListedBy, Deduplicated;
  }

  lemma ListedOnce(tracked: seq<Track>, lost: seq<Track>)
    requires ListsByState(tracked, lost)
    ensures NoRepeats(tracked + lost)
  {
    hide DistinctIds, NoRepeats;
    DistinctIdsDoNotRepeat(tracked + lost);
  }

  // ---------------------------------------------------------------- without detections

  lemma NoPositions(at: seq<nat>)
    requires Ascending(at, 0)
    ensures at == []
  {
    AscendingShort(at, 0, |at|);
  }

  lemma FirstIsMember(ts: seq<Track>)
    requires ts != []
    ensures exists t :: t in ts
  {
    assert ts[0] in ts;
  }

  /** Without detections nobody is matched and nothing starts. */
  lemma NoSource(k: Kalman, c: Settings, s: Story, extra: real, frame: int, id: int)
    requires Told(k, c, s, extra, frame, id) && About(c, s, [])
    ensures s.highSource == map[] && s.lowSource == map[] && s.started == []
  {
    hide BestMatched, LowStage, AllTrackedFates, AllLostFates, Injective, MovedOn;
    NoPositions(s.highAt);
    NoPositions(s.lowAt);
    assert s.high == [] && s.lowShots == [];
    if s.started != [] {
      FirstIsMember(s.started);
    }
  }

  /** A frame without detections loses every tracked track, and none of them is dropped as a duplicate. */
  lemma NobodySeen(k: Kalman, c: Settings, s: Story, extra: real, before: int, frame: int, id: int,
                   followed: seq<Track>, waiting: seq<Track>, tracked: seq<Track>, lost: seq<Track>)
    requires Leads(k, c, s, extra, before, frame, id, followed, waiting, tracked, lost) && About(c, s, [])
    ensures forall t :: t in s.tracked ==> t in lost && t.frameId == before
  {
    NoSource(k, c, s, extra, frame, id);
    if followed != [] {
      FirstIsMember(followed);
    }
    forall t | t in s.tracked
      ensures t in lost && t.frameId == before
    {
      assert t in s.tracked + s.lost && s.IsLost(t, frame, c.trackBuffer);
      assert t in waiting && !BeatenByOne(t, followed, c.duplicateIou);
      LostNow(k, c, s, extra, before, frame, id, t);
    }
  }

  // ---------------------------------------------------------------- when the limit holds

  lemma LostNow(k: Kalman, c: Settings, s: Story, extra: real, before: int, frame: int, id: int, t: Track)
    requires Told(k, c, s, extra, frame, id) && s.Ends() && AllAt(s.wasTracked, before)
    requires t in s.tracked && t !in s.highSource && t !in s.lowSource
    ensures t.frameId == before && t.state == Lost
  {
    hide BestMatched, LowStage, AllLostFates, StartedFrom, SourcesIn, MovedOn;
    var i :| 0 <= i < |s.tracked| && s.tracked[i] == t;
    assert TrackedFate(k, t, s.wasTracked[i], s.nowTracked[i], s.highShots, s.highSource, s.lowShots, s.lowSource, frame);
    assert s.nowTracked[i] == t.Now();
  }

  lemma LostStill(k: Kalman, c: Settings, s: Story, extra: real, frame: int, id: int, i: nat)
    requires Told(k, c, s, extra, frame, id) && s.Ends() && i < |s.lost| && s.lost[i] !in s.highSource
    ensures |s.wasLost| == |s.lost| && s.lost[i].frameId == s.wasLost[i].frameId
    ensures s.lost[i].state == if frame - s.wasLost[i].frameId > c.trackBuffer then Removed else Lost
  {
    hide BestMatched, LowStage, AllTrackedFates, StartedFrom, SourcesIn, MovedOn;
    assert LostFate(k, s.lost[i], s.wasLost[i], s.nowLost[i], s.highShots, s.highSource, frame, c.trackBuffer);
    assert s.nowLost[i] == s.lost[i].Now();
  }

  /** Whoever waits was matched recently enough, or was tracked in the frame before. */
  lemma WaitingInTime(k: Kalman, c: Settings, s: Story, extra: real, before: int, frame: int, id: int, waiting: seq<Track>,
                      followed: seq<Track>, t: Track)
    requires Told(k, c, s, extra, frame, id) && s.Ends() && AllAt(s.wasTracked, before)
    requires ListedBy(s, followed, waiting, frame, c.trackBuffer) && t in waiting
    ensures t.state == Lost
    ensures frame - t.frameId <= c.trackBuffer || (t in s.tracked && t.frameId == before)
  {
    hide Told, Story.Ends, AllAt;
    assert s.IsLost(t, frame, c.trackBuffer);
    if t in s.tracked && t !in s.highSource && t !in s.lowSource {
      LostNow(k, c, s, extra, before, frame, id, t);
    } else {
      var i :| 0 <= i < |s.lost| && s.lost[i] == t && t !in s.highSource && frame - s.wasLost[i].frameId <= c.trackBuffer;
      LostStill(k, c, s, extra, frame, id, i);
    }
  }

  /**
    Exactly when the limit holds after a frame: its number does not jump by more than the buffer, or
    no track that was tracked before it is lost after it.
  */
  lemma InTimeIff(k: Kalman, c: Settings, s: Story, extra: real, before: int, frame: int, id: int,
                  followed: seq<Track>, waiting: seq<Track>, tracked: seq<Track>, lost: seq<Track>)
    requires Leads(k, c, s, extra, before, frame, id, followed, waiting, tracked, lost)
    requires NoRepeats(s.tracked + s.lost)
    ensures InTime(lost, frame, c.trackBuffer)
       <==> frame - before <= c.trackBuffer || forall t :: t in s.tracked ==> t !in lost
  {
    hide Told, Story.Ends, AllAt, ListedBy, YieldsToOne, BeatenByOne, NoRepeats;
    forall t | t in lost
      ensures frame - t.frameId <= c.trackBuffer || (t in s.tracked && t.frameId == before)
      ensures t in s.tracked ==> t.frameId == before
    {
      WaitingInTime(k, c, s, extra, before, frame, id, waiting, followed, t);
      if t in s.tracked {
        WaitingWasTracked(k, c, s, extra, before, frame, id, waiting, followed, t);
      }
    }
  }

  lemma WaitingWasTracked(k: Kalman, c: Settings, s: Story, extra: real, before: int, frame: int, id: int, waiting: seq<Track>,
                          followed: seq<Track>, t: Track)
    requires Told(k, c, s, extra, frame, id) && s.Ends() && AllAt(s.wasTracked, before) && NoRepeats(s.tracked + s.lost)
    requires ListedBy(s, followed, waiting, frame, c.trackBuffer) && t in waiting && t in s.tracked
    ensures t.frameId == before
  {
    hide Told, Story.Ends, AllAt;
    InOneList(s.tracked, s.lost, t);
    hide NoRepeats;
    assert s.IsLost(t, frame, c.trackBuffer);
    LostNow(k, c, s, extra, before, frame, id, t);
  }

  /**
    What a caller can check before the frame: without a jump, or with nobody tracked, the limit holds
    whatever is detected; otherwise it fails if nothing is.
  */
  lemma InTimeWhateverDetected(k: Kalman, c: Settings, s: Story, extra: real, before: int, frame: int, id: int, dets: seq<Box>,
                               followed: seq<Track>, waiting: seq<Track>, tracked: seq<Track>, lost: seq<Track>)
    requires Leads(k, c, s, extra, before, frame, id, followed, waiting, tracked, lost) && About(c, s, dets)
    requires NoRepeats(s.tracked + s.lost)
    ensures frame - before <= c.trackBuffer || s.tracked == [] ==> InTime(lost, frame, c.trackBuffer)
    ensures dets == [] ==> (InTime(lost, frame, c.trackBuffer) <==> frame - before <= c.trackBuffer || s.tracked == [])
  {
    InTimeIff(k, c, s, extra, before, frame, id, followed, waiting, tracked, lost);
    if dets == [] {
      NobodySeen(k, c, s, extra, before, frame, id, followed, waiting, tracked, lost);
      hide Leads;
      if s.tracked != [] {
        FirstIsMember(s.tracked);
      }
    }
    hide Leads, InTime, NoRepeats;
  }

  lemma StartedAreHigh(k: Kalman, c: Settings, s: Story, extra: real, frame: int, id: int)
    requires Told(k, c, s, extra, frame, id)
    ensures forall t :: t in s.started ==> t in s.high
  {
    hide BestMatched, LowStage, AllTrackedFates, AllLostFates, MovedOn, SourcesIn;
  }

  /** A strong detection in front of empty lists is tracked afterwards. */
  lemma FirstSeen(k: Kalman, c: Settings, s: Story, extra: real, frame: int, id: int, det: Box,
                  followed: seq<Track>, waiting: seq<Track>, tracked: seq<Track>, lost: seq<Track>)
    requires Told(k, c, s, extra, frame, id) && About(c, s, [det]) && s.tracked == [] && s.lost == []
    requires c.High(det) && det.score >= c.newTrackThresh
    requires ListedBy(s, followed, waiting, frame, c.trackBuffer) && Deduplicated(tracked, lost, followed, waiting, c.duplicateIou)
    ensures tracked != [] && lost == [] && forall t :: t in tracked ==> t in s.high
  {
    hide Told, About, Settings.High, BeatenByOne;
    var t := StrongDetectionIsFollowed(k, c, s, extra, frame, id, [det], 0);
    assert t in s.started;
    assert t in followed;
    if waiting != [] {
      FirstIsMember(waiting);
    }
    if lost != [] {
      FirstIsMember(lost);
    }
    assert !YieldsToOne(t, waiting, c.duplicateIou);
    StartedAreHigh(k, c, s, extra, frame, id);
  }

  // ---------------------------------------------------------------- in which list everyone ends up

  lemma FollowedIsTracked(k: Kalman, c: Settings, s: Story, extra: real, frame: int, id: int, t: Track)
    requires Told(k, c, s, extra, frame, id) && s.Ends() && s.IsFollowed(t) && t !in s.started
    ensures t.state == Tracked && t.frameId == frame
  {
    hide BestMatched, LowStage, StartedFrom, SourcesIn, MovedOn;
    if t in s.tracked && (t in s.highSource || t in s.lowSource) {
      var i :| 0 <= i < |s.tracked| && s.tracked[i] == t;
      assert TrackedFate(k, t, s.wasTracked[i], s.nowTracked[i], s.highShots, s.highSource, s.lowShots, s.lowSource, frame);
      assert s.nowTracked[i] == t.Now();
    } else {
      var i :| 0 <= i < |s.lost| && s.lost[i] == t;
      assert LostFate(k, t, s.wasLost[i], s.nowLost[i], s.highShots, s.highSource, frame, c.trackBuffer);
      assert s.nowLost[i] == t.Now();
    }
  }

  /**
    Nobody vanishes: every track of the lists is among those followed, among those waiting, or removed
    and in neither of the next lists, and only one of these; its state says which.
  */
  lemma EveryoneIsListed(k: Kalman, c: Settings, s: Story, extra: real, before: int, frame: int, id: int,
                         followed: seq<Track>, waiting: seq<Track>, tracked: seq<Track>, lost: seq<Track>, t: Track)
    requires Leads(k, c, s, extra, before, frame, id, followed, waiting, tracked, lost)
    requires NoRepeats(s.tracked + s.lost) && (t in s.tracked || t in s.lost)
    ensures t in followed <==> t.state == Tracked
    ensures t in waiting <==> t.state == Lost
    ensures t.state == Removed ==> t !in tracked && t !in lost
    ensures t in followed ==> t.frameId == frame
  {
    hide Told, Story.Ends, AllAt, NoRepeats, YieldsToOne, BeatenByOne;
    EveryoneIsAccountedFor(k, c, s, extra, frame, id, t);
    NotStarted(k, c, s, extra, frame, id, t);
    assert t in s.tracked + s.lost + s.started;
    if s.IsFollowed(t) {
      FollowedIsTracked(k, c, s, extra, frame, id, t);
    } else if s.IsLost(t, frame, c.trackBuffer) {
      assert t in s.tracked + s.lost;
      WaitingInTime(k, c, s, extra, before, frame, id, waiting, followed, t);
    } else {
      var i :| 0 <= i < |s.lost| && s.lost[i] == t && t !in s.highSource && frame - s.wasLost[i].frameId > c.trackBuffer;
      LostStill(k, c, s, extra, frame, id, i);
    }
  }

  lemma NotStarted(k: Kalman, c: Settings, s: Story, extra: real, frame: int, id: int, t: Track)
    requires Told(k, c, s, extra, frame, id) && (t in s.tracked || t in s.lost)
    ensures t !in s.started
  {
    hide BestMatched, LowStage, AllTrackedFates, AllLostFates, StartedFrom, SourcesIn, MovedOn;
  }
}
