/**
  The tracker is called in frame order whatever is pushed: repeated or negative frame ids, forged
  results, anything. This needs no assumption on the environment at all.
*/
module CoordinatorOrder {
  import opened Types
  import opened Coordinator
  import opened CoordinatorSafety

  /** What a tracker may be called with over time. */
  ghost predicate Realizable(calls: seq<TrackerCall>)
  {
    AscendingCalls(calls) && forall i :: 0 <= i < |calls| ==> calls[i].frameId >= 0
  }

  /** Frames wait under their own ids, at or after the cursor; the cursor has passed every call. */
  ghost predicate Ordered(s: State)
  {
    && (forall k :: k in s.frames ==> s.frames[k].id == k && (s.nextTracker >= 0 ==> k >= s.nextTracker))
    && (s.nextTracker < 0 ==> s.trackerCalls == [])
    && Realizable(s.trackerCalls)
    && (forall i :: 0 <= i < |s.trackerCalls| ==> s.trackerCalls[i].frameId < s.nextTracker)
  }

  /** Nothing the order depends on is touched, except that frames may be dropped. */
  ghost predicate SameOrder(s: State, r: State)
  {
    IsPart(r.frames, s.frames) && r.nextTracker == s.nextTracker && r.trackerCalls == s.trackerCalls
  }

  lemma SameOrderKeeps(s: State, r: State)
    requires Ordered(s) && SameOrder(s, r)
    ensures Ordered(r)
  {
  }

  lemma NextCallRealizable(s: State, boxes: seq<Box>)
    requires Ordered(s) && s.nextTracker >= 0 && s.nextTracker in s.frames
    ensures Realizable(s.trackerCalls + [TrackerCall(s.frames[s.nextTracker].id, boxes)])
  {
  }

  lemma TrackStepOrdered(c: Config, s: State)
    requires Ordered(s) && TrackBusy(c, s)
    ensures Ordered(TrackStep(c, s))
  {
    var id := s.nextTracker;
    if id in s.frames {
      var boxes := if id in s.detections then s.detections[id] else [];
      ProcessEffect(c, s, s.frames[id], boxes);
      NextCallRealizable(s, boxes);
      hide ProcessFrame, AscendingCalls;
    }
  }

  lemma {:induction false} TrackLoopOrdered(c: Config, s: State)
    requires Ordered(s)
    ensures Ordered(TrackLoop(c, s))
    decreases |s.frames|, Gap(s)
  {
    hide Ordered, TrackStep, Gap, TrackBusy;
    if TrackBusy(c, s) {
      TrackStepShrinks(c, s);
      TrackStepOrdered(c, s);
      TrackLoopOrdered(c, TrackStep(c, s));
    }
  }

  lemma {:induction false} ProbeEarlyAllSameOrder(s: State, todo: set<int>)
    requires todo <= s.frames.Keys
    ensures SameOrder(s, ProbeEarlyAll(s, todo)) && ProbeEarlyAll(s, todo).frames == s.frames
    decreases |todo|
  {
    if todo != {} {
      var id := Least(todo);
      assert ProbeEarly(s, id).frames == s.frames;
      ProbeEarlyAllSameOrder(ProbeEarly(s, id), todo - {id});
    }
  }

  lemma {:induction false} DrainFacesSameOrder(c: Config, s: State, todo: set<int>)
    requires todo <= s.faceFrames.Keys
    ensures SameOrder(s, DrainFaces(c, s, todo)) && DrainFaces(c, s, todo).frames == s.frames
    decreases |todo|
  {
    if todo != {} {
      var id := Least(todo);
      DrainFaceEffect(c, s, id);
      hide DrainFace;
      DrainFacesSameOrder(c, DrainFace(c, s, id), todo - {id});
    }
  }

  /** Everything up to recognition is untouched. */
  predicate SameFront(s: State, r: State)
  {
    && r.nextTracker == s.nextTracker
    && r.latestFace == s.latestFace
    && r.latestRecognition == s.latestRecognition
    && r.frames == s.frames
    && r.detections == s.detections
    && r.queuedProbes == s.queuedProbes
    && r.earlyFaces == s.earlyFaces
    && r.faceFrames == s.faceFrames
    && r.trackerCalls == s.trackerCalls
    && r.faceTasks == s.faceTasks
    && r.recognitionTasks == s.recognitionTasks
  }

  /** The recognition drain touches only its own fields. */
  predicate OnlyRecognition(s: State, r: State)
  {
    && SameFront(s, r)
    && r.identities == s.identities
    && r.nextCommit == s.nextCommit
    && r.commits == s.commits
  }

  lemma HandOnEffect(s: State, a: Answer)
    ensures OnlyRecognition(s, QueueIdentity(s, a))
  {
    if a.frame == None {
    } else {
    }
  }

  lemma RecognitionStepEffect(s: State)
    ensures OnlyRecognition(s, RecognitionStep(s))
  {
    if s.nextRecognition in s.recognitions {
      HandOnEffect(s, s.recognitions[s.nextRecognition]);
      hide QueueIdentity;
    }
  }

  lemma RecognitionSteps(s: State, mid: State, r: State)
    requires OnlyRecognition(s, mid) && OnlyRecognition(mid, r)
    ensures OnlyRecognition(s, r)
  {
  }

  lemma {:induction false} RecognitionLoopEffect(c: Config, s: State)
    ensures OnlyRecognition(s, RecognitionLoop(c, s))
    decreases RecognitionMeasure(s)
  {
    if RecognitionBusy(c, s) {
      RecognitionStepShrinks(c, s);
      RecognitionStepEffect(s);
      hide OnlyRecognition, RecognitionStep, RecognitionMeasure, RecognitionBusy;
      RecognitionLoopEffect(c, RecognitionStep(s));
      RecognitionSteps(s, RecognitionStep(s), RecognitionLoop(c, s));
    }
  }

  /** The commit drain touches only its own fields. */
  predicate OnlyCommit(s: State, r: State)
  {
    && SameFront(s, r)
    && r.recognitions == s.recognitions
    && r.nextRecognition == s.nextRecognition
    && r.latestIdentity == s.latestIdentity
    && r.identityTasks == s.identityTasks
  }

  lemma CommitAnswerEffect(s: State, a: Answer)
    ensures OnlyCommit(s, CommitAnswer(s, a))
  {
    if a.frame == None {
    } else {
    }
  }

  lemma CommitStepEffect(s: State)
    ensures OnlyCommit(s, CommitStep(s))
  {
    if s.nextCommit in s.identities {
      CommitAnswerEffect(s, s.identities[s.nextCommit]);
      hide CommitAnswer;
    }
  }

  lemma CommitSteps(s: State, mid: State, r: State)
    requires OnlyCommit(s, mid) && OnlyCommit(mid, r)
    ensures OnlyCommit(s, r)
  {
  }

  lemma {:induction false} CommitLoopEffect(c: Config, s: State)
    ensures OnlyCommit(s, CommitLoop(c, s))
    decreases CommitMeasure(s)
  {
    if CommitBusy(c, s) {
      CommitStepShrinks(c, s);
      CommitStepEffect(s);
      hide OnlyCommit, CommitStep, CommitMeasure, CommitBusy;
      CommitLoopEffect(c, CommitStep(s));
      CommitSteps(s, CommitStep(s), CommitLoop(c, s));
    }
  }

  lemma AnswersSameOrder(c: Config, s: State)
    ensures SameOrder(s, DrainRecognition(c, s))
    ensures SameOrder(s, DrainCommit(c, s))
  {
    RecognitionLoopEffect(c, SeedRecognition(s));
    CommitLoopEffect(c, SeedCommit(s));
    hide RecognitionLoop, CommitLoop;
  }

  lemma TrimSameOrder(c: Config, s: State)
    ensures SameOrder(s, Trim(c, s))
  {
    TrimmedIsPart(s.frames, c.limit);
    var s1 := s.(frames := Trimmed(s.frames, c.limit),
                 detections := Trimmed(s.detections, c.limit),
                 queuedProbes := Trimmed(s.queuedProbes, c.limit),
                 earlyFaces := Trimmed(s.earlyFaces, c.limit));
    TrimFacesChanges(s1, c.limit);
    hide Trimmed, TrimFaces;
  }

  lemma DrainTrackingOrdered(c: Config, s: State)
    requires Ordered(s)
    ensures Ordered(SeedTracker(s)) && Ordered(DrainTracking(c, s))
  {
    var s1 := SeedTracker(s);
    assert Ordered(s1);
    TrackLoopOrdered(c, s1);
    hide TrackLoop;
  }

  lemma DrainProbesOrdered(c: Config, s: State)
    requires Ordered(s)
    ensures Ordered(DrainProbes(c, s))
  {
    ProbeEarlyAllSameOrder(s, s.frames.Keys);
    hide ProbeEarlyAll, Realizable;
  }

  lemma DrainReadyOrdered(c: Config, s: State)
    requires Ordered(s)
    ensures Ordered(DrainReady(c, s))
  {
    hide Ordered, SameOrder, DrainProbes, DrainTracking, DrainFaces, DrainRecognition, DrainCommit, Trim;
    DrainProbesOrdered(c, s);
    var s2 := DrainTracking(c, DrainProbes(c, s));
    DrainTrackingOrdered(c, DrainProbes(c, s));
    var s3 := DrainFaces(c, s2, s2.faceFrames.Keys);
    DrainFacesSameOrder(c, s2, s2.faceFrames.Keys);
    SameOrderKeeps(s2, s3);
    var s4 := DrainRecognition(c, s3);
    AnswersSameOrder(c, s3);
    SameOrderKeeps(s3, s4);
    AnswersSameOrder(c, s4);
    SameOrderKeeps(s4, DrainCommit(c, s4));
    TrimSameOrder(c, Drained(c, s));
    SameOrderKeeps(Drained(c, s), Trim(c, Drained(c, s)));
  }

  lemma PushOrdered(c: Config, s: State, e: Event)
    requires Ordered(s) && !e.DrainCalled?
    ensures Ordered(Step(c, s, e))
  {
    hide Realizable, Received;
  }

  lemma StepOrdered(c: Config, s: State, e: Event)
    requires Ordered(s)
    ensures Ordered(Step(c, s, e))
  {
    hide Ordered, DrainReady, PushFrame, PushDetection, PushFace, PushRecognition, PushIdentity;
    if e.DrainCalled? {
      DrainReadyOrdered(c, s);
    } else {
      PushOrdered(c, s, e);
    }
  }

  /** On every run at all, the tracker sees natural frame ids in strictly increasing order. */
  lemma {:induction false} EveryRunCallsInOrder(c: Config, run: seq<Event>)
    ensures Ordered(After(c, run)) && Realizable(After(c, run).trackerCalls)
  {
    if run != [] {
      EveryRunCallsInOrder(c, run[..|run| - 1]);
      hide Ordered, Step;
      StepOrdered(c, After(c, run[..|run| - 1]), run[|run| - 1]);
    }
  }
}
