/**
  Where the box of a track of core/src/tracking/bytetrack_tracker.cpp comes from: every step of the
  filter, and the place of a track that was detected or is lost.
*/
module ByteBoxes {
  import opened Numbers
  import opened Types
  import opened ByteTracks
  import opened ByteStages
  import opened Association

  /** A filter that believes its measurements. */
  ghost predicate Exact(k: Kalman)
  {
    && (forall m: Motion, z: Measurement :: k.project(k.update(m, z)) == z)
    && (forall z: Measurement :: k.project(k.initiate(z)) == z)
  }

  /** A filter that keeps a track without velocity in its place. */
  ghost predicate Steady(k: Kalman)
  {
    forall m: Motion :: k.project(k.predict(m, true)) == k.project(m)
  }

  predicate SamePlace(a: Box, b: Box)
  {
    a.x == b.x && a.y == b.y && a.w == b.w && a.h == b.h
  }

  // ---------------------------------------------------------------- measurements

  lemma QuotientTimes(x: real, y: real)
    requires y > 0.0
    ensures x / y * y == x
  {
  }

  /** A box of at least one pixel a side is where its measurement says. */
  lemma MeasuredBack(k: Kalman, m: Motion, det: Box)
    requires k.project(m) == Measured(det) && det.w >= 1.0 && det.h >= 1.0
    ensures SamePlace(BoxOf(k, m), det)
  {
    QuotientTimes(det.w, det.h);
  }

  // ---------------------------------------------------------------- the filter's steps

  /** The detection a story's track stands for. */
  ghost predicate StandsFor(s: Story, t: Track, n: nat)
  {
    |s.high| == |s.highAt| && Origin(t, n, s.high, s.highAt, s.highSource, s.lowAt, s.lowSource)
  }

  /** The motion of the i-th tracked track: carried on with its velocity, and corrected by its detection if it has one. */
  lemma TrackedMotion(k: Kalman, c: Settings, s: Story, extra: real, frame: int, id: int, dets: seq<Box>, i: nat, n: nat)
    requires Told(k, c, s, extra, frame, id) && About(c, s, dets) && i < |s.tracked| && s.wasTracked[i].state == Tracked
    ensures var t, before, after := s.tracked[i], s.wasTracked[i], s.nowTracked[i];
      && after.box == BoxOf(k, after.motion) && after.startFrame == before.startFrame
      && (t !in s.highSource && t !in s.lowSource ==> after.motion == k.predict(before.motion, false))
      && ((t in s.highSource || t in s.lowSource) && StandsFor(s, t, n) ==>
            && n < |dets| && after.motion == k.update(k.predict(before.motion, false), Measured(dets[n]))
            && after.score == dets[n].score && after.trackletLen == before.trackletLen + 1)
  {
    hide BestMatched, LowStage, AllLostFates, StartedFrom, MovedOn, SplitByScore, BoxOf, Measured, Injective;
    assert TrackedFate(k, s.tracked[i], s.wasTracked[i], s.nowTracked[i], s.highShots, s.highSource, s.lowShots, s.lowSource, frame);
  }

  /** The motion of the i-th lost track: carried on without velocity, and corrected by its detection if it has one. */
  lemma LostMotion(k: Kalman, c: Settings, s: Story, extra: real, frame: int, id: int, dets: seq<Box>, i: nat, n: nat)
    requires Told(k, c, s, extra, frame, id) && About(c, s, dets) && i < |s.lost| && s.wasLost[i].state == Lost
    ensures var t, before, after := s.lost[i], s.wasLost[i], s.nowLost[i];
      && after.box == BoxOf(k, after.motion) && after.startFrame == before.startFrame
      && (t !in s.highSource ==> after.motion == k.predict(before.motion, true))
      && (t in s.highSource && StandsFor(s, t, n) ==>
            && n < |dets| && after.motion == k.update(k.predict(before.motion, true), Measured(dets[n]))
            && after.score == dets[n].score && after.trackletLen == before.trackletLen + 1)
  {
    hide BestMatched, LowStage, AllTrackedFates, StartedFrom, MovedOn, SplitByScore, BoxOf, Measured, Injective;
    assert LostFate(k, s.lost[i], s.wasLost[i], s.nowLost[i], s.highShots, s.highSource, frame, c.trackBuffer);
  }

  /** The motion of the i-th new track: that of its detection. */
  lemma StartedMotion(k: Kalman, c: Settings, s: Story, extra: real, frame: int, id: int, dets: seq<Box>, i: nat, n: nat)
    requires Told(k, c, s, extra, frame, id) && About(c, s, dets) && i < |s.started|
    requires s.started[i] !in s.highSource && s.started[i] !in s.lowSource && StandsFor(s, s.started[i], n)
    ensures n < |dets| && s.nowStarted[i].motion == k.initiate(Measured(dets[n]))
    ensures s.nowStarted[i].box == BoxOf(k, s.nowStarted[i].motion) && s.nowStarted[i].startFrame == frame
    ensures s.nowStarted[i].score == dets[n].score && s.nowStarted[i].trackletLen == 0
  {
    hide BestMatched, LowStage, AllTrackedFates, AllLostFates, MovedOn, SplitByScore, BoxOf, Measured, Injective;
    var j :| 0 <= j < |s.high| && s.high[j] == s.started[i] && n == s.highAt[j];
    assert IsStarted(k, s.nowStarted[i], s.highShots[j], frame, id + i);
  }

  // ---------------------------------------------------------------- where tracks are

  /** A track that was matched or started is where its detection is, as far as the filter believes it. */
  lemma FollowedIsAtItsDetection(k: Kalman, c: Settings, s: Story, extra: real, frame: int, id: int, dets: seq<Box>, t: Track, n: nat)
    requires Told(k, c, s, extra, frame, id) && About(c, s, dets) && s.Ends() && s.IsFollowed(t) && StandsFor(s, t, n)
    requires n < |dets| && dets[n].w >= 1.0 && dets[n].h >= 1.0 && Exact(k)
    ensures SamePlace(t.box, dets[n])
  {
    hide BestMatched, LowStage, MovedOn, SplitByScore, BoxOf, Measured, SamePlace, Exact, Injective;
    if t in s.tracked && (t in s.highSource || t in s.lowSource) {
      var i :| 0 <= i < |s.tracked| && s.tracked[i] == t;
      assert TrackedFate(k, t, s.wasTracked[i], s.nowTracked[i], s.highShots, s.highSource, s.lowShots, s.lowSource, frame);
      UpdatedIsThere(k, Predicted(k, s.wasTracked[i]), NewShot(dets[n]), dets[n], frame);
      assert s.nowTracked[i] == t.Now();
    } else if t in s.lost && t in s.highSource {
      var i :| 0 <= i < |s.lost| && s.lost[i] == t;
      assert LostFate(k, t, s.wasLost[i], s.nowLost[i], s.highShots, s.highSource, frame, c.trackBuffer);
      UpdatedIsThere(k, Predicted(k, s.wasLost[i]), NewShot(dets[n]), dets[n], frame);
      assert s.nowLost[i] == t.Now();
    } else {
      var i :| 0 <= i < |s.started| && s.started[i] == t;
      NeverMatched(k, c, s, extra, frame, id, t);
      StartedMotion(k, c, s, extra, frame, id, dets, i, n);
      InitiatedIsThere(k, s.nowStarted[i], dets[n]);
      assert s.nowStarted[i] == t.Now();
    }
  }

  lemma UpdatedIsThere(k: Kalman, before: Shot, seen: Shot, det: Box, frame: int)
    requires Exact(k) && seen.box == det && det.w >= 1.0 && det.h >= 1.0
    ensures SamePlace(Updated(k, before, seen, frame).box, det)
  {
    MeasuredBack(k, Updated(k, before, seen, frame).motion, det);
    hide Measured, BoxOf;
  }

  lemma InitiatedIsThere(k: Kalman, now: Shot, det: Box)
    requires Exact(k) && now.motion == k.initiate(Measured(det)) && now.box == BoxOf(k, now.motion) && det.w >= 1.0 && det.h >= 1.0
    ensures SamePlace(now.box, det)
  {
    MeasuredBack(k, now.motion, det);
  }

  lemma NeverMatched(k: Kalman, c: Settings, s: Story, extra: real, frame: int, id: int, t: Track)
    requires Told(k, c, s, extra, frame, id) && t in s.started
    ensures t !in s.highSource && t !in s.lowSource
  {
    hide BestMatched, LowStage, AllTrackedFates, AllLostFates, StartedFrom, MovedOn, Injective;
    var i :| 0 <= i < |s.started| && s.started[i] == t;
  }

  /** A lost track that is not found stays where it is, as far as the filter lets it. */
  lemma LostStandsStill(k: Kalman, c: Settings, s: Story, extra: real, frame: int, id: int, dets: seq<Box>, i: nat)
    requires Told(k, c, s, extra, frame, id) && About(c, s, dets) && s.Ends() && i < |s.lost| && s.lost[i] !in s.highSource
    requires s.wasLost[i].state == Lost && s.wasLost[i].Framed(k) && Steady(k)
    ensures s.lost[i].box == s.wasLost[i].box
  {
    hide BestMatched, LowStage, AllTrackedFates, AllLostFates, StartedFrom, MovedOn, About, SourcesIn, BoxOf;
    LostMotion(k, c, s, extra, frame, id, dets, i, 0);
    var m := s.wasLost[i].motion;
    assert k.project(k.predict(m, true)) == k.project(m);
    assert s.nowLost[i] == s.lost[i].Now();
    SameProjection(k, k.predict(m, true), m);
  }

  lemma SameProjection(k: Kalman, m: Motion, n: Motion)
    requires k.project(m) == k.project(n)
    ensures BoxOf(k, m) == BoxOf(k, n)
  {
  }

  /** The boxes a frame reports are where their detections are, as far as the filter believes them. */
  lemma ReportedAtDetections(k: Kalman, c: Settings, s: Story, extra: real, frame: int, id: int, dets: seq<Box>,
                             followed: seq<Track>, waiting: seq<Track>, tracked: seq<Track>, lost: seq<Track>, source: seq<nat>)
    requires Told(k, c, s, extra, frame, id) && About(c, s, dets) && s.Ends() && |source| == |tracked| && |s.high| == |s.highAt|
    requires ListedBy(s, followed, waiting, frame, c.trackBuffer) && Deduplicated(tracked, lost, followed, waiting, c.duplicateIou)
    requires forall i :: 0 <= i < |tracked| ==>
      && source[i] < |dets| && (c.High(dets[source[i]]) || c.Low(dets[source[i]]))
      && Origin(tracked[i], source[i], s.high, s.highAt, s.highSource, s.lowAt, s.lowSource)
    ensures Exact(k) ==> forall i :: 0 <= i < |tracked| ==> SamePlace(tracked[i].box, dets[source[i]])
  {
    hide Told, About, Origin, Story.Ends, Exact, SamePlace, YieldsToOne, BeatenByOne;
    if Exact(k) {
      forall i | 0 <= i < |tracked|
        ensures SamePlace(tracked[i].box, dets[source[i]])
      {
        assert tracked[i] in tracked && tracked[i] in followed && s.IsFollowed(tracked[i]);
        FollowedIsAtItsDetection(k, c, s, extra, frame, id, dets, tracked[i], source[i]);
      }
    }
  }

  // ---------------------------------------------------------------- of two tracks of one person

  /** Of a followed and a waiting track that overlap beyond the threshold, the one that was followed for longer outlives the other. */
  lemma LongerFollowedStays(tracked: seq<Track>, lost: seq<Track>, followed: seq<Track>, waiting: seq<Track>, threshold: real, t: Track, u: Track)
    requires Deduplicated(tracked, lost, followed, waiting, threshold) && t in followed && u in waiting
    requires BoxIou(t.box, u.box) >= Clamp(threshold, 0.0, MAX_DUPLICATE_IOU)
    ensures t.frameId - t.startFrame > u.frameId - u.startFrame ==> u !in lost
    ensures t.frameId - t.startFrame <= u.frameId - u.startFrame ==> t !in tracked
  {
    hide BoxIou;
    var i :| 0 <= i < |followed| && followed[i] == t;
    var j :| 0 <= j < |waiting| && waiting[j] == u;
    assert Length(t) > Length(u) ==> Beats(followed[i], u, threshold);
    assert Length(t) <= Length(u) ==> Yields(t, waiting[j], threshold);
  }

  /** A track that overlaps none of the other list beyond the threshold stays. */
  lemma OneOfAKindStays(tracked: seq<Track>, lost: seq<Track>, followed: seq<Track>, waiting: seq<Track>, threshold: real)
    requires Deduplicated(tracked, lost, followed, waiting, threshold)
    ensures forall t :: t in followed && (forall u :: u in waiting ==> BoxIou(t.box, u.box) < Clamp(threshold, 0.0, MAX_DUPLICATE_IOU)) ==> t in tracked
    ensures forall u :: u in waiting && (forall t :: t in followed ==> BoxIou(t.box, u.box) < Clamp(threshold, 0.0, MAX_DUPLICATE_IOU)) ==> u in lost
  {
    hide BoxIou, Clamp;
  }
}
