/**
  From the tracker to the commit: whatever the workers do and in whatever order their results
  arrive, a committed box that is not anonymized carries an identity that a gallery match earned.
*/
module PrivacyChain {
  import opened Types
  import opened Coordinator
  import Safety = CoordinatorSafety
  import Order = CoordinatorOrder
  import Face = FacePolicy
  import R = RecognitionCache
  import W = RecognitionWorkers
  import I = IdentityDecider

  // ---------------------------------------------------------------- evidence

  /** The recognizer's configuration, the stream, the identity decider in use, and the judgements made so far. */
  datatype Evidence = Evidence(r: R.Config, stream: string, decider: I.Kind, log: set<W.Judgement>)

  /** The best gallery match behind this judgement reached the threshold for this key and confidence. */
  ghost predicate Earned(e: Evidence, j: W.Judgement, key: string, confidence: real)
  {
    && R.Fits(j.gallery, |j.embedding|)
    && j.gallery != []
    && R.BestMatch(j.embedding, j.gallery) == R.GalleryMatch(key, confidence)
    && confidence >= e.r.unknownThreshold
  }

  /** Some logged judgement of the same track earned the identity; a box without a track id needs one of its own frame. */
  ghost predicate Justified(e: Evidence, frame: int, id: int, key: string, confidence: real)
  {
    exists j :: j in e.log && j.key == R.Key(e.stream, id) && (id < 0 ==> j.frame == frame) && Earned(e, j, key, confidence)
  }

  predicate Harmless(b: Box)
  {
    b.privacyAction == ANONYMIZE || b.identityKey == ""
  }

  ghost predicate Fine(e: Evidence, frame: int, b: Box)
  {
    Harmless(b) || Justified(e, frame, b.id, b.identityKey, b.identityConfidence)
  }

  /** What may be shown. */
  ghost predicate Showable(e: Evidence, frame: int, b: Box)
  {
    b.privacyAction == ANONYMIZE ||
    (e.decider == I.Passthrough && b.identityKey != "" && Justified(e, frame, b.id, b.identityKey, b.identityConfidence))
  }

  predicate AllHarmless(tracks: seq<Box>)
  {
    forall i :: 0 <= i < |tracks| ==> Harmless(tracks[i])
  }

  ghost predicate AllFine(e: Evidence, frame: int, tracks: seq<Box>)
  {
    forall i :: 0 <= i < |tracks| ==> Fine(e, frame, tracks[i])
  }

  ghost predicate AllShowable(e: Evidence, frame: int, tracks: seq<Box>)
  {
    forall i :: 0 <= i < |tracks| ==> Showable(e, frame, tracks[i])
  }

  // ---------------------------------------------------------------- the coordinator on harmless tracks

  /** Tracks on the way to recognition. */
  ghost predicate Unopened(s: State)
  {
    && (forall k :: k in s.faceFrames ==> AllHarmless(s.faceFrames[k].tracks))
    && (forall i :: 0 <= i < |s.recognitionTasks| ==>
          AllHarmless(s.recognitionTasks[i].tracks) && s.recognitionTasks[i].frame.id == s.recognitionTasks[i].frameId)
  }

  ghost predicate FineAnswer(e: Evidence, a: Answer)
  {
    a.frame.Some? && a.frame.value.id == a.frameId && AllFine(e, a.frameId, a.tracks)
  }

  ghost predicate ShowableAnswer(e: Evidence, a: Answer)
  {
    a.frame.Some? && a.frame.value.id == a.frameId && AllShowable(e, a.frameId, a.tracks)
  }

  /** Tracks that came back from recognition. */
  ghost predicate Opened(e: Evidence, s: State)
  {
    && (forall k :: k in s.recognitions ==> FineAnswer(e, s.recognitions[k]))
    && (forall i :: 0 <= i < |s.identityTasks| ==>
          && s.identityTasks[i].frame.id == s.identityTasks[i].frameId
          && AllFine(e, s.identityTasks[i].frameId, s.identityTasks[i].tracks))
    && (forall k :: k in s.identities ==> ShowableAnswer(e, s.identities[k]))
    && (forall i :: 0 <= i < |s.commits| ==> AllShowable(e, s.commits[i].frame.id, s.commits[i].tracks))
  }

  ghost predicate Guarded(e: Evidence, s: State)
  {
    Unopened(s) && Opened(e, s)
  }

  /** Nothing the opened part reads has changed. */
  predicate SameAnswers(s: State, r: State)
  {
    && r.recognitions == s.recognitions
    && r.identityTasks == s.identityTasks
    && r.identities == s.identities
    && r.commits == s.commits
  }

  predicate SameTracks(s: State, r: State)
  {
    r.faceFrames == s.faceFrames && r.recognitionTasks == s.recognitionTasks
  }

  /** The tracker hands out boxes that are anonymized or carry no identity, as far as the planner does not reset them. */
  ghost predicate ClosedTracker(c: Config)
  {
    c.EarlyProbes() ==> forall calls: seq<TrackerCall> :: calls != [] && Order.Realizable(calls) ==> AllHarmless(c.tracker(calls))
  }

  /** A tracker that anonymizes every box it answers with is closed. */
  lemma AnonymizingTrackerIsClosed(c: Config)
    requires forall calls: seq<TrackerCall> :: calls != [] && Order.Realizable(calls) ==> AllAnonymized(c.tracker(calls))
    ensures ClosedTracker(c)
  {
    forall calls: seq<TrackerCall> | calls != [] && Order.Realizable(calls)
      ensures AllHarmless(c.tracker(calls))
    {
      assert AllAnonymized(c.tracker(calls));
    }
  }

  lemma {:induction false} PlacedHarmless(c: Face.Config, tracks: seq<Box>, faces: seq<FaceObservation>, frameId: int, k: nat)
    requires k <= |faces| && AllHarmless(tracks)
    ensures AllHarmless(Face.Placed(c, tracks, faces, frameId, k))
  {
    if k > 0 {
      PlacedHarmless(c, tracks, faces, frameId, k - 1);
      hide Face.Choice, Face.PeopleOf, Face.Stamped;
    }
  }

  lemma {:induction false} AppliedHarmless(c: Face.Config, tracks: seq<Box>, results: seq<seq<FaceObservation>>, frameId: int)
    requires AllHarmless(tracks)
    ensures AllHarmless(Face.Applied(c, tracks, results, frameId))
  {
    if results != [] {
      var k := |results| - 1;
      AppliedHarmless(c, tracks, results[..k], frameId);
      hide AllHarmless, Face.Placed, Face.Sorted;
      PlacedHarmless(c, Face.Applied(c, tracks, results[..k], frameId), Face.Sorted(results[k]), frameId, |Face.Sorted(results[k])|);
    }
  }

  lemma QueueKeeps(c: Config, e: Evidence, s: State, id: int)
    requires Guarded(e, s) && id in s.faceFrames
    ensures Guarded(e, QueueRecognition(c, s, id))
  {
    hide AllHarmless, Face.Applied, Opened;
    var pending := s.faceFrames[id];
    if pending.queued {
    } else {
      AppliedHarmless(c.Face(), pending.tracks, pending.results, pending.frame.id);
      var tracks := Face.Applied(c.Face(), pending.tracks, pending.results, pending.frame.id);
      var r := QueueRecognition(c, s, id);
      UnopenedMore(s, r, id, pending.(tracks := tracks, queued := true), Task(pending.frame.id, pending.frame, tracks));
      OpenedSame(e, s, r);
    }
  }

  lemma UnopenedMore(s: State, r: State, id: int, pending: FaceFrame, task: Task)
    requires Unopened(s) && AllHarmless(pending.tracks) && AllHarmless(task.tracks) && task.frame.id == task.frameId
    requires r.faceFrames == s.faceFrames[id := pending] && r.recognitionTasks == s.recognitionTasks + [task]
    ensures Unopened(r)
  {
    hide AllHarmless;
  }

  lemma OpenedSame(e: Evidence, s: State, r: State)
    requires Opened(e, s) && SameAnswers(s, r)
    ensures Opened(e, r)
  {
    hide FineAnswer, ShowableAnswer, AllFine, AllShowable;
  }

  lemma StartKeeps(c: Config, e: Evidence, s: State, pending: FaceFrame, tasks: seq<FaceTask>)
    requires Guarded(e, s) && AllHarmless(pending.tracks)
    ensures Guarded(e, StartFaces(c, s, pending, tasks))
  {
    hide AllHarmless, QueueRecognition;
    var id := pending.frame.id;
    var s1 := s.(faceFrames := s.faceFrames[id := pending]);
    assert Guarded(e, s1);
    if tasks == [] && pending.probes == {} {
      QueueKeeps(c, e, s1, id);
    }
  }

  lemma TrackedKeeps(c: Config, e: Evidence, s: State, frame: Frame, boxes: seq<Box>)
    requires Guarded(e, s) && ClosedTracker(c) && Order.Realizable(s.trackerCalls + [TrackerCall(frame.id, boxes)])
    ensures var (r, pending, tasks) := Tracked(c, s, frame, boxes);
      Guarded(e, r) && AllHarmless(pending.tracks)
  {
    hide Order.Realizable;
  }

  lemma ProcessKeeps(c: Config, e: Evidence, s: State, frame: Frame, boxes: seq<Box>)
    requires Guarded(e, s) && ClosedTracker(c) && Order.Realizable(s.trackerCalls + [TrackerCall(frame.id, boxes)])
    ensures Guarded(e, ProcessFrame(c, s, frame, boxes))
  {
    hide Order.Realizable, AllHarmless, StartFaces, Tracked, ReceivedEarly;
    TrackedKeeps(c, e, s, frame, boxes);
    var (s1, pending, tasks) := Tracked(c, s, frame, boxes);
    var early := if frame.id in s.earlyFaces then s.earlyFaces[frame.id] else [];
    Safety.ReceivedEarlyKeeps(pending, early);
    StartKeeps(c, e, s1.(earlyFaces := s1.earlyFaces - {frame.id}), ReceivedEarly(pending, early), tasks);
  }

  lemma TrackStepKeeps(c: Config, e: Evidence, s: State)
    requires Guarded(e, s) && Order.Ordered(s) && ClosedTracker(c) && TrackBusy(c, s)
    ensures Guarded(e, TrackStep(c, s))
  {
    hide Guarded, ProcessFrame, Order.Ordered, Order.Realizable;
    var id := s.nextTracker;
    if id in s.frames {
      var boxes := if id in s.detections then s.detections[id] else [];
      Order.NextCallRealizable(s, boxes);
      ProcessKeeps(c, e, s, s.frames[id], boxes);
      PartKeeps(e, ProcessFrame(c, s, s.frames[id], boxes), TrackStep(c, s));
    } else {
      PartKeeps(e, s, TrackStep(c, s));
    }
  }

  lemma {:induction false} TrackLoopKeeps(c: Config, e: Evidence, s: State)
    requires Guarded(e, s) && Order.Ordered(s) && ClosedTracker(c)
    ensures Guarded(e, TrackLoop(c, s))
    decreases |s.frames|, Gap(s)
  {
    hide Order.Ordered;
    if TrackBusy(c, s) {
      TrackStepShrinks(c, s);
      TrackStepKeeps(c, e, s);
      Order.TrackStepOrdered(c, s);
      hide Guarded, TrackStep, TrackBusy, Gap;
      TrackLoopKeeps(c, e, TrackStep(c, s));
    }
  }

  lemma DrainFaceKeeps(c: Config, e: Evidence, s: State, id: int)
    requires Guarded(e, s) && id in s.faceFrames
    ensures Guarded(e, DrainFace(c, s, id))
  {
    hide AllHarmless, QueueRecognition;
    var s0 := s.(faceFrames := s.faceFrames[id := s.faceFrames[id].(probes := {})]);
    assert Guarded(e, s0);
    QueueKeeps(c, e, s0, id);
  }

  lemma {:induction false} DrainFacesKeeps(c: Config, e: Evidence, s: State, todo: set<int>)
    requires Guarded(e, s) && todo <= s.faceFrames.Keys
    ensures Guarded(e, DrainFaces(c, s, todo))
    decreases |todo|
  {
    if todo != {} {
      var id := Least(todo);
      Safety.DrainFaceEffect(c, s, id);
      DrainFaceKeeps(c, e, s, id);
      hide Guarded, DrainFace;
      DrainFacesKeeps(c, e, DrainFace(c, s, id), todo - {id});
    }
  }

  lemma HandedOnKeeps(e: Evidence, s: State, a: Answer)
    requires Guarded(e, s) && FineAnswer(e, a)
    ensures Guarded(e, QueueIdentity(s, a))
  {
    hide AllFine, AllHarmless, ShowableAnswer, AllShowable;
  }

  lemma RecognitionStepKeeps(c: Config, e: Evidence, s: State)
    requires Guarded(e, s) && RecognitionBusy(c, s)
    ensures Guarded(e, RecognitionStep(s))
  {
    var id := s.nextRecognition;
    if id in s.recognitions {
      var a := s.recognitions[id];
      HandedOnKeeps(e, s, a);
      hide Guarded, FineAnswer;
      PartKeeps(e, QueueIdentity(s, a), RecognitionStep(s));
    } else {
      PartKeeps(e, s, RecognitionStep(s));
    }
  }

  lemma {:induction false} RecognitionLoopKeeps(c: Config, e: Evidence, s: State)
    requires Guarded(e, s)
    ensures Guarded(e, RecognitionLoop(c, s))
    decreases RecognitionMeasure(s)
  {
    if RecognitionBusy(c, s) {
      RecognitionStepShrinks(c, s);
      RecognitionStepKeeps(c, e, s);
      hide Guarded, RecognitionStep, RecognitionBusy, RecognitionMeasure;
      RecognitionLoopKeeps(c, e, RecognitionStep(s));
    }
  }

  lemma CommitStepKeeps(c: Config, e: Evidence, s: State)
    requires Guarded(e, s) && CommitBusy(c, s)
    ensures Guarded(e, CommitStep(s))
  {
    hide AllShowable, AllHarmless, FineAnswer, AllFine;
    if s.nextCommit in s.identities {
      if s.identities[s.nextCommit].frame == None {
      } else {
      }
    } else {
    }
  }

  lemma {:induction false} CommitLoopKeeps(c: Config, e: Evidence, s: State)
    requires Guarded(e, s)
    ensures Guarded(e, CommitLoop(c, s))
    decreases CommitMeasure(s)
  {
    if CommitBusy(c, s) {
      CommitStepShrinks(c, s);
      CommitStepKeeps(c, e, s);
      hide Guarded, CommitStep, CommitBusy, CommitMeasure;
      CommitLoopKeeps(c, e, CommitStep(s));
    }
  }

  lemma {:induction false} TrimFacesKeeps(e: Evidence, s: State, limit: nat)
    requires Guarded(e, s)
    ensures Guarded(e, TrimFaces(s, limit))
    decreases |s.faceFrames|
  {
    if |s.faceFrames| > limit {
      assert s.faceFrames.Keys != {};
      hide AllHarmless, Opened;
      assert Guarded(e, TrimFaceStep(s)) by {
        assert SameAnswers(s, TrimFaceStep(s));
        AnswersOnly(e, s, TrimFaceStep(s));
      }
      hide Guarded, TrimFaceStep;
      TrimFacesKeeps(e, TrimFaceStep(s), limit);
    }
  }

  lemma AnswersOnly(e: Evidence, s: State, r: State)
    requires Opened(e, s) && SameAnswers(s, r)
    ensures Opened(e, r)
  {
  }

  /** Dropping entries keeps what the rest satisfies. */
  lemma PartKeeps(e: Evidence, s: State, r: State)
    requires Guarded(e, s) && SameTracks(s, r)
    requires r.identityTasks == s.identityTasks && r.commits == s.commits
    requires Safety.IsPart(r.recognitions, s.recognitions) && Safety.IsPart(r.identities, s.identities)
    ensures Guarded(e, r)
  {
    hide FineAnswer, ShowableAnswer, AllHarmless, AllFine, AllShowable;
  }

  lemma {:induction false} ProbeEarlyAllKeeps(e: Evidence, s: State, todo: set<int>)
    requires Guarded(e, s) && todo <= s.frames.Keys
    ensures Guarded(e, ProbeEarlyAll(s, todo))
    decreases |todo|
  {
    if todo != {} {
      var id := Least(todo);
      assert ProbeEarly(s, id).frames == s.frames;
      PartKeeps(e, s, ProbeEarly(s, id));
      hide Guarded, ProbeEarly;
      ProbeEarlyAllKeeps(e, ProbeEarly(s, id), todo - {id});
    }
  }

  lemma SeedTrackerKeeps(e: Evidence, s: State)
    requires Guarded(e, s)
    ensures Guarded(e, SeedTracker(s))
  {
    hide Guarded;
    if s.nextTracker < 0 && s.frames.Keys != {} {
      PartKeeps(e, s, SeedTracker(s));
    }
  }

  lemma SeedRecognitionKeeps(e: Evidence, s: State)
    requires Guarded(e, s)
    ensures Guarded(e, SeedRecognition(s))
  {
    hide Guarded;
    if s.nextRecognition < 0 && s.recognitions.Keys != {} {
      PartKeeps(e, s, SeedRecognition(s));
    }
  }

  lemma SeedCommitKeeps(e: Evidence, s: State)
    requires Guarded(e, s)
    ensures Guarded(e, SeedCommit(s))
  {
    hide Guarded;
    if s.nextCommit < 0 && s.identities.Keys != {} {
      PartKeeps(e, s, SeedCommit(s));
    }
  }

  lemma DrainTrackingKeeps(c: Config, e: Evidence, s: State)
    requires Guarded(e, s) && Order.Ordered(s) && ClosedTracker(c)
    ensures Guarded(e, DrainTracking(c, s))
  {
    Order.DrainTrackingOrdered(c, s);
    hide TrackLoop, Guarded, Order.Ordered, SeedTracker;
    var s1 := SeedTracker(s);
    SeedTrackerKeeps(e, s);
    TrackLoopKeeps(c, e, s1);
    var s2 := TrackLoop(c, s1);
    PartKeeps(e, s2, s2.(detections := DropBelow(s2.detections, s2.nextTracker)));
  }

  lemma DrainRecognitionKeeps(c: Config, e: Evidence, s: State)
    requires Guarded(e, s)
    ensures Guarded(e, DrainRecognition(c, s))
  {
    hide RecognitionLoop, Guarded, SeedRecognition;
    var s1 := SeedRecognition(s);
    SeedRecognitionKeeps(e, s);
    RecognitionLoopKeeps(c, e, s1);
    var s2 := RecognitionLoop(c, s1);
    PartKeeps(e, s2, s2.(recognitions := DropBelow(s2.recognitions, s2.nextRecognition)));
  }

  lemma DrainCommitKeeps(c: Config, e: Evidence, s: State)
    requires Guarded(e, s)
    ensures Guarded(e, DrainCommit(c, s))
  {
    hide CommitLoop, Guarded, SeedCommit;
    var s1 := SeedCommit(s);
    SeedCommitKeeps(e, s);
    CommitLoopKeeps(c, e, s1);
    PartKeeps(e, CommitLoop(c, s1), DrainCommit(c, s));
  }

  lemma TrimKeeps(c: Config, e: Evidence, s: State)
    requires Guarded(e, s)
    ensures Guarded(e, Trim(c, s))
  {
    hide Guarded, Trimmed, TrimFaces;
    var s1 := s.(frames := Trimmed(s.frames, c.limit),
                 detections := Trimmed(s.detections, c.limit),
                 queuedProbes := Trimmed(s.queuedProbes, c.limit),
                 earlyFaces := Trimmed(s.earlyFaces, c.limit));
    PartKeeps(e, s, s1);
    TrimFacesKeeps(e, s1, c.limit);
    var s2 := TrimFaces(s1, c.limit);
    Safety.TrimmedIsPart(s2.recognitions, c.limit);
    Safety.TrimmedIsPart(s2.identities, c.limit);
    PartKeeps(e, s2, Trim(c, s));
  }

  lemma DrainReadyKeeps(c: Config, e: Evidence, s: State)
    requires Guarded(e, s) && Order.Ordered(s) && ClosedTracker(c)
    ensures Guarded(e, DrainReady(c, s))
  {
    hide Order.Ordered;
    Order.DrainProbesOrdered(c, s);
    var s1 := DrainProbes(c, s);
    ProbeEarlyAllKeeps(e, s, s.frames.Keys);
    assert Guarded(e, s1);
    hide Guarded, DrainProbes, DrainTracking, DrainFaces, DrainRecognition, DrainCommit, Trim;
    DrainTrackingKeeps(c, e, s1);
    var s2 := DrainTracking(c, s1);
    DrainFacesKeeps(c, e, s2, s2.faceFrames.Keys);
    var s3 := DrainFaces(c, s2, s2.faceFrames.Keys);
    DrainRecognitionKeeps(c, e, s3);
    DrainCommitKeeps(c, e, DrainRecognition(c, s3));
    TrimKeeps(c, e, Drained(c, s));
  }

  lemma PushKeeps(c: Config, e: Evidence, s: State, x: Safety.Event)
    requires Guarded(e, s) && !x.DrainCalled?
    requires x.RecognitionPushed? ==> FineAnswer(e, x.answer)
    requires x.IdentityPushed? ==> ShowableAnswer(e, x.answer)
    ensures Guarded(e, Safety.Step(c, s, x))
  {
    hide AllHarmless, AllFine, AllShowable, FineAnswer, ShowableAnswer;
    match x
    case FacePushed(f) => PushFaceKeeps(c, e, s, f);
    case _ => hide PushFace;
  }

  lemma PushFaceKeeps(c: Config, e: Evidence, s: State, f: FaceResult)
    requires Guarded(e, s)
    ensures Guarded(e, PushFace(c, s, f))
  {
    hide AllHarmless, AllFine, AllShowable, FineAnswer, ShowableAnswer;
  }
}
