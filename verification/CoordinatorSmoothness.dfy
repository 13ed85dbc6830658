/**
  What a drain does after a loss-free run, loop by loop: every round of tracking joins a frame with
  its detections, no frame gives up on its faces, and recognition and commit take their answers one
  after the other without skipping a frame.
*/
module CoordinatorSmoothness {
  import opened Types
  import opened Coordinator
  import opened CoordinatorSafety
  import opened CoordinatorBounds
  import opened CoordinatorTransparency

  // ---------------------------------------------------------------- what the loops of a drain do

  /** Every round of the tracking loop joins the frame at the cursor with its detections. */
  ghost predicate JoinsOnly(c: Config, s: State)
    decreases |s.frames|, Gap(s)
  {
    TrackBusy(c, s) ==>
      && s.nextTracker in s.frames
      && s.nextTracker in s.detections
      && (TrackStepShrinks(c, s); JoinsOnly(c, TrackStep(c, s)))
  }

  /** No frame goes to recognition because its probes took too long. */
  ghost predicate NobodyTimesOut(c: Config, s: State, todo: set<int>)
    requires todo <= s.faceFrames.Keys
    decreases |todo|
  {
    todo != {} ==>
      var id := Least(todo);
      && (s.faceFrames[id].queued || !FaceTimedOut(c, s, id))
      && NobodyTimesOut(c, DrainFace(c, s, id), todo - {id})
  }

  /** Every round of the recognition loop hands on the answer at the cursor. */
  ghost predicate HandsOnOnly(c: Config, s: State)
    decreases RecognitionMeasure(s)
  {
    RecognitionBusy(c, s) ==>
      s.nextRecognition in s.recognitions && (RecognitionStepShrinks(c, s); HandsOnOnly(c, RecognitionStep(s)))
  }

  /** Every round of the commit loop commits the answer at the cursor. */
  ghost predicate CommitsOnly(c: Config, s: State)
    decreases CommitMeasure(s)
  {
    CommitBusy(c, s) ==>
      s.nextCommit in s.identities && (CommitStepShrinks(c, s); CommitsOnly(c, CommitStep(s)))
  }

  /** No loop of a drain jumps, gives up or skips, and nothing is trimmed at the end. */
  ghost predicate SmoothDrain(c: Config, s: State)
  {
    var s1 := DrainProbes(c, s);
    var s2 := DrainTracking(c, s1);
    var s3 := DrainFaces(c, s2, s2.faceFrames.Keys);
    var s4 := DrainRecognition(c, s3);
    && JoinsOnly(c, SeedTracker(s1))
    && NobodyTimesOut(c, s2, s2.faceFrames.Keys)
    && HandsOnOnly(c, SeedRecognition(s3))
    && CommitsOnly(c, SeedCommit(s4))
    && Trim(c, DrainCommit(c, s4)) == DrainCommit(c, s4)
  }

  // ---------------------------------------------------------------- loop by loop

  lemma {:induction false} TrackLoopJoins(c: Config, first: int, detect: int -> seq<Box>, n: Counts, s: State, q: nat)
    requires !c.EarlyProbes() && first >= 0 && InPipeline(c, first, detect, n, s, q)
    ensures JoinsOnly(c, s)
    decreases |s.frames|, Gap(s)
  {
    hide InPipeline, TrackBusy, TrackStep, Gap;
    if TrackBusy(c, s) {
      TrackStepShrinks(c, s);
      CursorHasFrame(c, first, detect, n, s, q);
      TrackStepInOrder(c, first, detect, n, s, q);
      TrackLoopJoins(c, first, detect, n, TrackStep(c, s), q);
    }
  }

  lemma WaitingIsInTime(c: Config, first: int, detect: int -> seq<Box>, n: Counts, s: State, q: nat, id: int)
    requires first >= 0 && InPipeline(c, first, detect, n, s, q) && id in s.faceFrames
    ensures s.faceFrames[id].queued || !FaceTimedOut(c, s, id)
  {
    assert s.latestFace < first + |s.trackerCalls| <= first + n.pushed <= first + |s.commits| + c.window + 1;
    assert !s.faceFrames[id].queued ==> id >= first + |s.recognitionTasks| >= first + |s.commits|;
  }

  lemma {:induction false} UnansweredInTime(c: Config, first: int, detect: int -> seq<Box>, n: Counts, s: State, q: nat, todo: set<int>)
    requires first >= 0 && InPipeline(c, first, detect, n, s, q)
    requires q >= |s.recognitionTasks| && q >= n.faces && todo <= s.faceFrames.Keys
    ensures NobodyTimesOut(c, s, todo)
    decreases |todo|
  {
    hide InPipeline, DrainFace, FaceTimedOut;
    if todo != {} {
      WaitingIsInTime(c, first, detect, n, s, q, Least(todo));
      UnansweredStays(c, first, detect, n, s, q, Least(todo));
      UnansweredInTime(c, first, detect, n, s, q, todo - {Least(todo)});
    }
  }

  lemma {:induction false} FacesInTime(c: Config, first: int, detect: int -> seq<Box>, n: Counts, s: State, q: nat)
    requires first >= 0 && InPipeline(c, first, detect, n, s, q)
    ensures NobodyTimesOut(c, s, s.faceFrames.Keys)
    decreases |s.trackerCalls| - q
  {
    hide InPipeline, DrainFace, DrainFaces, FaceTimedOut, Covers;
    QueueBounds(c, first, detect, n, s, q);
    if q < |s.recognitionTasks| || (c.faceEnabled && q < n.faces) {
      OldestMovesOn(c, first, detect, n, s, q);
      var r := DrainFace(c, s, first + q);
      QueueBounds(c, first, detect, n, r, q + 1);
      CoversTail(s.faceFrames.Keys, r.faceFrames.Keys, first + q, first + |s.trackerCalls|);
      WaitingIsInTime(c, first, detect, n, s, q, first + q);
      FacesInTime(c, first, detect, n, r, q + 1);
    } else {
      UnansweredInTime(c, first, detect, n, s, q, s.faceFrames.Keys);
    }
  }

  lemma {:induction false} RecognitionLoopHandsOn(c: Config, first: int, detect: int -> seq<Box>, n: Counts, s: State, q: nat)
    requires first >= 0 && InPipeline(c, first, detect, n, s, q)
    ensures HandsOnOnly(c, s)
    decreases RecognitionMeasure(s)
  {
    hide InPipeline, RecognitionBusy, RecognitionStep, RecognitionMeasure;
    if RecognitionBusy(c, s) {
      RecognitionStepShrinks(c, s);
      RecognitionStepInOrder(c, first, detect, n, s, q);
      RecognitionLoopHandsOn(c, first, detect, n, RecognitionStep(s), q);
    }
  }

  lemma {:induction false} CommitLoopCommits(c: Config, first: int, detect: int -> seq<Box>, n: Counts, s: State, q: nat)
    requires first >= 0 && InPipeline(c, first, detect, n, s, q)
    ensures CommitsOnly(c, s)
    decreases CommitMeasure(s)
  {
    hide InPipeline, CommitBusy, CommitStep, CommitMeasure;
    if CommitBusy(c, s) {
      CommitStepShrinks(c, s);
      CommitStepInOrder(c, first, detect, n, s, q);
      CommitLoopCommits(c, first, detect, n, CommitStep(s), q);
    }
  }

  lemma CommitSeedInOrder(c: Config, first: int, detect: int -> seq<Box>, n: Counts, s: State, q: nat)
    requires first >= 0 && InPipeline(c, first, detect, n, s, q)
    ensures SeedCommit(s) == s
  {
    CoversLeast(s.identities.Keys, first + |s.commits|, first + n.decided);
    assert s.nextCommit < 0 ==> s.identities.Keys == {};
  }

  // ---------------------------------------------------------------- over every loss-free run

  lemma DrainIsSmooth(c: Config, first: int, detect: int -> seq<Box>, n: Counts, s: State)
    requires TransparentConfig(c) && first >= 0
    requires InPipeline(c, first, detect, n, s, |s.recognitionTasks|)
    ensures SmoothDrain(c, s)
  {
    hide InPipeline, DrainTracking, DrainFaces, DrainRecognition, DrainCommit, Trim, SeedTracker, SeedRecognition, SeedCommit,
      JoinsOnly, NobodyTimesOut, HandsOnOnly, CommitsOnly;
    var q := |s.recognitionTasks|;
    assert DrainProbes(c, s) == s;
    SeedInOrder(c, first, detect, n, s, q);
    TrackLoopJoins(c, first, detect, n, SeedTracker(s), q);
    TrackingInOrder(c, first, detect, n, s);
    var s2 := DrainTracking(c, s);
    FacesInTime(c, first, detect, n, s2, q);
    DrainFacesInOrder(c, first, detect, n, s2, q);
    var s3 := DrainFaces(c, s2, s2.faceFrames.Keys);
    var p := |s3.recognitionTasks|;
    RecognitionSeedInOrder(c, first, detect, n, s3, p);
    RecognitionLoopHandsOn(c, first, detect, n, SeedRecognition(s3), p);
    RecognitionInOrder(c, first, detect, n, s3, p);
    var s4 := DrainRecognition(c, s3);
    CommitSeedInOrder(c, first, detect, n, s4, p);
    CommitLoopCommits(c, first, detect, n, s4, p);
    NothingIsTrimmed(c, first, detect, n, s);
  }

  lemma NothingIsTrimmed(c: Config, first: int, detect: int -> seq<Box>, n: Counts, s: State)
    requires TransparentConfig(c) && first >= 0
    requires InPipeline(c, first, detect, n, s, |s.recognitionTasks|)
    ensures Trim(c, Drained(c, s)) == Drained(c, s)
  {
    hide InPipeline, DrainTracking, DrainFaces, DrainRecognition, DrainCommit, Trim;
    assert DrainProbes(c, s) == s;
    TrackingInOrder(c, first, detect, n, s);
    StagesInOrder(c, first, detect, n, DrainTracking(c, s), |s.recognitionTasks|);
    NothingToTrim(c, first, detect, n, Drained(c, s));
  }

  /**
    Whatever loss-free run came before, the next drain takes no shortcut: no jump of the tracking
    cursor, no frame given up on by tracking or by its faces, no skip in recognition or commit, and
    nothing trimmed.
  */
  lemma LossFreeRunIsSmooth(c: Config, first: int, detect: int -> seq<Box>, run: seq<Event>)
    requires TransparentConfig(c) && first >= 0 && LossFreeRun(c, first, detect, run)
    ensures SmoothDrain(c, After(c, run))
  {
    hide After, LossFreeRun, InPipeline, SmoothDrain, Count;
    RunInOrder(c, first, detect, run);
    DrainIsSmooth(c, first, detect, Count(run), After(c, run));
  }
}
