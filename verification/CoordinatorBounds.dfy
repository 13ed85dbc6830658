/**
  What is left pending after a drain spans at most the reorder window, so that trimming never evicts
  a waiting frame, a frame waiting for faces, or a waiting answer when the limit exceeds the window.
*/
module CoordinatorBounds {
  import opened Sets
  import opened Types
  import opened Coordinator
  import opened CoordinatorSafety
  import opened CoordinatorProbes

  /** All keys lie within `width` of each other. */
  ghost predicate Spans(keys: set<int>, width: nat)
  {
    forall j, k :: j in keys && k in keys ==> j - k <= width
  }

  /** All keys lie in lo..lo + width. */
  ghost predicate Within(keys: set<int>, lo: int, width: nat)
  {
    forall k :: k in keys ==> lo <= k <= lo + width
  }

  ghost function Interval(lo: int, count: nat): (s: set<int>)
    ensures |s| == count
    ensures forall k :: k in s <==> lo <= k < lo + count
  {
    if count == 0 then {} else Interval(lo, count - 1) + {lo + count - 1}
  }

  lemma WithinSize(keys: set<int>, lo: int, width: nat)
    requires Within(keys, lo, width)
    ensures |keys| <= width + 1
  {
    SubsetSize(keys, Interval(lo, width + 1));
  }

  lemma SpansSize(keys: set<int>, width: nat)
    requires Spans(keys, width)
    ensures |keys| <= width + 1
  {
    if keys != {} {
      WithinSize(keys, Least(keys), width);
    }
  }

  // ---------------------------------------------------------------- frames

  lemma {:induction false} TrackLoopStops(c: Config, s: State)
    ensures !TrackBusy(c, TrackLoop(c, s))
    ensures s.nextTracker >= 0 ==> TrackLoop(c, s).nextTracker >= 0
    decreases |s.frames|, Gap(s)
  {
    if TrackBusy(c, s) {
      TrackStepShrinks(c, s);
      assert TrackStep(c, s).nextTracker >= 0 by {
        hide ProcessFrame;
        var least := s.frames.Keys != {} && Least(s.frames.Keys) > s.nextTracker;
      }
      hide TrackBusy, TrackStep, Gap;
      TrackLoopStops(c, TrackStep(c, s));
    }
  }

  lemma WaitingFramesSpan(c: Config, s: State, pushed: set<int>)
    requires Inv(s, pushed) && !TrackBusy(c, s) && (s.frames.Keys != {} ==> s.nextTracker >= 0)
    ensures Spans(s.frames.Keys, c.window)
  {
    if s.frames.Keys != {} {
      var least := Least(s.frames.Keys);
      assert s.nextTracker in s.frames;
      assert Greatest(s.frames.Keys) <= s.nextTracker + c.window;
    }
  }

  lemma FramesAfterTracking(c: Config, s: State, pushed: set<int>)
    requires Inv(s, pushed)
    ensures Spans(DrainTracking(c, s).frames.Keys, c.window)
  {
    hide TrackLoop, TrackBusy, SeedTracker, Inv;
    var s1 := SeedTracker(s);
    SeedKeepsInv(s, pushed);
    TrackLoopStops(c, s1);
    TrackLoopKeeps(c, s1, pushed);
    TrackLoopShrinks(c, s1);
    WaitingFramesSpan(c, TrackLoop(c, s1), pushed);
  }

  lemma SeedKeepsInv(s: State, pushed: set<int>)
    requires Inv(s, pushed)
    ensures Inv(SeedTracker(s), pushed)
    ensures SeedTracker(s).frames == s.frames
    ensures s.frames.Keys != {} ==> SeedTracker(s).nextTracker >= 0
  {
    if s.nextTracker < 0 && s.frames.Keys != {} {
    } else {
    }
  }

  lemma TrackStepFrames(c: Config, s: State)
    requires TrackBusy(c, s)
    ensures TrackStep(c, s).frames.Keys <= s.frames.Keys
  {
    hide ProcessFrame, TrackBusy;
    if s.nextTracker in s.frames {
    } else {
    }
  }

  lemma {:induction false} TrackLoopShrinks(c: Config, s: State)
    ensures TrackLoop(c, s).frames.Keys <= s.frames.Keys
    decreases |s.frames|, Gap(s)
  {
    hide TrackBusy, TrackStep, Gap;
    if TrackBusy(c, s) {
      TrackStepShrinks(c, s);
      TrackStepFrames(c, s);
      TrackLoopShrinks(c, TrackStep(c, s));
    }
  }

  // ---------------------------------------------------------------- frames waiting for faces

  /** The frame is neither ready for recognition nor timed out. */
  ghost predicate Settled(c: Config, s: State, k: int)
  {
    k in s.faceFrames ==> !s.faceFrames[k].queued && s.faceFrames[k].probes != {} && !FaceTimedOut(c, s, k)
  }

  lemma DrainFaceSettles(c: Config, s: State, id: int)
    requires id in s.faceFrames
    ensures Settled(c, DrainFace(c, s, id), id)
    ensures DrainFace(c, s, id).latestFace == s.latestFace
    ensures DrainFace(c, s, id).faceFrames - {id} == s.faceFrames - {id}
  {
    DrainFaceEffect(c, s, id);
    hide DrainFace;
  }

  lemma {:induction false} DrainFacesSettles(c: Config, s: State, todo: set<int>)
    requires todo <= s.faceFrames.Keys
    requires forall k :: k in s.faceFrames && k !in todo ==> Settled(c, s, k)
    ensures var r := DrainFaces(c, s, todo);
      r.latestFace == s.latestFace && forall k :: k in r.faceFrames ==> Settled(c, r, k)
    decreases |todo|
  {
    if todo != {} {
      var id := Least(todo);
      var r := DrainFace(c, s, id);
      DrainFaceSettles(c, s, id);
      hide DrainFace;
      forall k | k in r.faceFrames && k !in todo - {id}
        ensures Settled(c, r, k)
      {
        if k != id {
          assert k in s.faceFrames - {id} && (s.faceFrames - {id})[k] == (r.faceFrames - {id})[k];
        }
      }
      DrainFacesSettles(c, r, todo - {id});
    }
  }

  lemma FaceFramesSpan(c: Config, s: State, pushed: set<int>)
    requires Inv(s, pushed) && forall k :: k in s.faceFrames ==> Settled(c, s, k)
    ensures Spans(s.faceFrames.Keys, c.window)
  {
    forall j, k | j in s.faceFrames && k in s.faceFrames
      ensures j - k <= c.window
    {
      assert j <= s.latestFace;
      CallIdsIndex(s.trackerCalls, j);
      assert Settled(c, s, k);
    }
  }

  // ---------------------------------------------------------------- answers

  lemma {:induction false} RecognitionLoopStops(c: Config, s: State)
    ensures var r := RecognitionLoop(c, s);
      && !RecognitionBusy(c, r)
      && r.nextRecognition >= s.nextRecognition
      && r.recognitions.Keys <= s.recognitions.Keys
      && r.faceFrames == s.faceFrames
      && r.latestFace == s.latestFace
    decreases RecognitionMeasure(s)
  {
    if RecognitionBusy(c, s) {
      RecognitionStepShrinks(c, s);
      RecognitionLoopStops(c, RecognitionStep(s));
    }
  }

  lemma HeldRecognitions(c: Config, s: State, pushed: set<int>)
    requires Inv(s, pushed)
    ensures var r := DrainRecognition(c, s);
      && Within(r.recognitions.Keys, r.nextRecognition, c.window)
      && r.faceFrames == s.faceFrames
      && r.latestFace == s.latestFace
  {
    var s1 := SeedRecognition(s);
    RecognitionSeedKeeps(s, pushed);
    var r := RecognitionLoop(c, s1);
    RecognitionLoopStops(c, s1);
    RecognitionLoopKeeps(c, s1, pushed);
    hide RecognitionLoop;
    forall k | k in DropBelow(r.recognitions, r.nextRecognition)
      ensures r.nextRecognition <= k <= r.nextRecognition + c.window
    {
      assert k in r.recognitions && k in s1.recognitions;
      assert s1.nextRecognition >= 0 by { AnsweredIdsNatural(s.recognitions, s.recognitionTasks, s, pushed); }
      TaskIdsIndex(r.recognitionTasks, k);
      assert k <= r.latestRecognition;
      AnsweredIdsNatural(r.recognitions, r.recognitionTasks, r, pushed);
    }
  }

  /** The commit stage leaves what the earlier stages hold. */
  predicate SameBeforeCommit(s: State, r: State)
  {
    && r.faceFrames == s.faceFrames
    && r.latestFace == s.latestFace
    && r.recognitions == s.recognitions
    && r.nextRecognition == s.nextRecognition
  }

  lemma CommitStepAdvances(c: Config, s: State)
    requires CommitBusy(c, s)
    ensures var r := CommitStep(s);
      SameBeforeCommit(s, r) && r.nextCommit >= s.nextCommit
  {
  }

  lemma {:induction false} CommitLoopStops(c: Config, s: State)
    ensures var r := CommitLoop(c, s);
      && !CommitBusy(c, r)
      && r.nextCommit >= s.nextCommit
      && SameBeforeCommit(s, r)
    decreases CommitMeasure(s)
  {
    hide CommitBusy, CommitStep, CommitMeasure;
    if CommitBusy(c, s) {
      CommitStepShrinks(c, s);
      CommitStepAdvances(c, s);
      CommitLoopStops(c, CommitStep(s));
    }
  }

  lemma HeldIdentities(c: Config, s: State, pushed: set<int>)
    requires Inv(s, pushed)
    ensures var r := DrainCommit(c, s);
      && Within(r.identities.Keys, r.nextCommit, c.window)
      && SameBeforeCommit(s, r)
  {
    CommitCursorSet(s, pushed);
    var r := CommitLoop(c, s);
    CommitLoopStops(c, s);
    CommitLoopKeeps(c, s, pushed);
    CommitCursorSet(r, pushed);
    hide CommitLoop;
    forall k | k in DropBelow(r.identities, r.nextCommit)
      ensures r.nextCommit <= k <= r.nextCommit + c.window
    {
      assert k in r.identities;
      TaskIdsIndex(r.identityTasks, k);
      assert k <= r.latestIdentity;
      AnsweredIdsNatural(r.identities, r.identityTasks, r, pushed);
    }
  }

  // ---------------------------------------------------------------- after a whole drain

  ghost predicate WindowBound(c: Config, s: State)
  {
    && Spans(s.frames.Keys, c.window)
    && Spans(s.faceFrames.Keys, c.window)
    && Within(s.recognitions.Keys, s.nextRecognition, c.window)
    && Within(s.identities.Keys, s.nextCommit, c.window)
  }

  lemma DrainedWithinWindow(c: Config, s: State, pushed: set<int>)
    requires Inv(s, pushed)
    ensures WindowBound(c, Drained(c, s))
  {
    hide Inv;
    var s1 := DrainProbes(c, s);
    ProbeEarlyAllKeeps(s, s.frames.Keys, pushed);
    var s2 := DrainTracking(c, s1);
    FramesAfterTracking(c, s1, pushed);
    DrainTrackingKeeps(c, s1, pushed);
    hide DrainProbes, DrainTracking, ProbeEarlyAll;
    var s3 := DrainFaces(c, s2, s2.faceFrames.Keys);
    DrainFacesSettles(c, s2, s2.faceFrames.Keys);
    DrainFacesSameProbing(c, s2, s2.faceFrames.Keys);
    DrainFacesKeeps(c, s2, s2.faceFrames.Keys, pushed);
    hide DrainFaces;
    FaceFramesSpan(c, s3, pushed);
    hide Settled;
    var s4 := DrainRecognition(c, s3);
    HeldRecognitions(c, s3, pushed);
    AnswersSameProbing(c, s3);
    DrainRecognitionKeeps(c, s3, pushed);
    HeldIdentities(c, s4, pushed);
    AnswersSameProbing(c, s4);
    hide DrainRecognition, DrainCommit;
  }

  /**
    After any run, a drain leaves at most one window's worth of frames, of frames waiting for faces
    and of held answers; with a limit above the window, trimming changes none of them.
  */
  lemma DrainBoundsPending(c: Config, run: seq<Event>)
    requires Legal(c, run)
    ensures var s := Drained(c, After(c, run));
      && WindowBound(c, s)
      && (c.limit > c.window ==>
            Trim(c, s) == s.(detections := Trimmed(s.detections, c.limit),
                             queuedProbes := Trimmed(s.queuedProbes, c.limit),
                             earlyFaces := Trimmed(s.earlyFaces, c.limit)))
  {
    hide Inv, Drained, After;
    RunKeepsInv(c, run);
    var s := Drained(c, After(c, run));
    DrainedWithinWindow(c, After(c, run), PushedIds(run));
    if c.limit > c.window {
      SpansSize(s.frames.Keys, c.window);
      SpansSize(s.faceFrames.Keys, c.window);
      WithinSize(s.recognitions.Keys, s.nextRecognition, c.window);
      WithinSize(s.identities.Keys, s.nextCommit, c.window);
      assert |s.frames| == |s.frames.Keys| && |s.faceFrames| == |s.faceFrames.Keys|;
      assert |s.recognitions| == |s.recognitions.Keys| && |s.identities| == |s.identities.Keys|;
    }
  }
}
