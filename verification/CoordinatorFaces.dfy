/**
  Face detection around the coordinator (core/src/pipeline/stream_coordinator.cpp): no frame with an
  image is recognised without its faces having been asked for, and what is answered to a probe reaches
  the recognition task.
*/
module CoordinatorFaces {
  import opened Types
  import opened Coordinator
  import opened CoordinatorSafety
  import Order = CoordinatorOrder
  import Face = FacePolicy

  // ---------------------------------------------------------------- every frame is asked for its faces

  /** The face detector was given the full frame. */
  ghost predicate IsProbed(tasks: seq<FaceTask>, id: int)
  {
    exists i :: 0 <= i < |tasks| && tasks[i].frameId == id && tasks[i].probe == FullProbe(id)
  }

  ghost predicate AskedFor(c: Config, faceTasks: seq<FaceTask>, frame: Frame)
  {
    c.faceEnabled && !frame.infEmpty ==> IsProbed(faceTasks, frame.id)
  }

  ghost predicate Asked(c: Config, s: State)
  {
    && (forall k :: k in s.faceFrames ==> AskedFor(c, s.faceTasks, s.faceFrames[k].frame))
    && (forall i :: 0 <= i < |s.recognitionTasks| ==> AskedFor(c, s.faceTasks, s.recognitionTasks[i].frame))
    && (forall k :: k in s.queuedProbes ==> IsProbed(s.faceTasks, k))
  }

  /** More is asked for, some work is dropped, and nothing else of what matters here changes. */
  ghost predicate AskedMore(s: State, r: State)
  {
    && s.faceTasks <= r.faceTasks
    && IsPart(r.faceFrames, s.faceFrames)
    && r.recognitionTasks == s.recognitionTasks
    && IsPart(r.queuedProbes, s.queuedProbes)
  }

  lemma ProbedMore(tasks: seq<FaceTask>, more: seq<FaceTask>, id: int)
    requires IsProbed(tasks, id) && tasks <= more
    ensures IsProbed(more, id)
  {
    var i :| 0 <= i < |tasks| && tasks[i].frameId == id && tasks[i].probe == FullProbe(id);
    assert more[i] == tasks[i];
  }

  lemma AskedMoreKeeps(c: Config, s: State, r: State)
    requires Asked(c, s) && AskedMore(s, r)
    ensures Asked(c, r)
  {
    hide IsProbed;
    forall id | IsProbed(s.faceTasks, id)
      ensures IsProbed(r.faceTasks, id)
    {
      ProbedMore(s.faceTasks, r.faceTasks, id);
    }
  }

  lemma PlannedIsProbed(tasks: seq<FaceTask>, frame: Frame)
    requires !frame.infEmpty
    ensures Planned(frame) != [] && IsProbed(tasks + Planned(frame), frame.id)
  {
    assert (tasks + Planned(frame))[|tasks|] == Planned(frame)[0];
  }

  /** A tracked frame with an image has been asked for its faces, now or ahead of tracking. */
  lemma ProcessAsks(c: Config, s: State, frame: Frame, boxes: seq<Box>)
    requires frame.id in s.queuedProbes ==> IsProbed(s.faceTasks, frame.id)
    ensures var r := ProcessFrame(c, s, frame, boxes);
      && s.faceTasks <= r.faceTasks
      && AskedFor(c, r.faceTasks, frame)
      && IsPart(r.queuedProbes, s.queuedProbes)
  {
    var (s1, pending, tasks) := Tracked(c, s, frame, boxes);
    TrackedEffect(c, s, frame, boxes);
    var early := if frame.id in s.earlyFaces then s.earlyFaces[frame.id] else [];
    ReceivedEarlyKeeps(pending, early);
    var s2 := s1.(earlyFaces := s1.earlyFaces - {frame.id});
    StartAsks(c, s2, ReceivedEarly(pending, early), tasks);
    if !frame.infEmpty {
      PlannedIsProbed(s.faceTasks, frame);
    }
    hide ReceivedEarly, StartFaces, IsProbed, Face.Reset, Planned;
  }

  lemma StartAsks(c: Config, s: State, pending: FaceFrame, tasks: seq<FaceTask>)
    ensures var r := StartFaces(c, s, pending, tasks);
      r.faceTasks == s.faceTasks + tasks && r.queuedProbes == s.queuedProbes
  {
    hide Face.Applied, QueueRecognition, ProbeIds;
    if tasks == [] {
      var s1 := s.(faceFrames := s.faceFrames[pending.frame.id := pending]);
      QueueAsks(c, s1, pending.frame.id);
    } else {
    }
  }

  lemma QueueAsks(c: Config, s: State, id: int)
    requires id in s.faceFrames
    ensures var r := QueueRecognition(c, s, id); r.faceTasks == s.faceTasks && r.queuedProbes == s.queuedProbes
  {
    hide Face.Applied;
    if s.faceFrames[id].queued {
    } else {
    }
  }

  lemma TrackingAsks(c: Config, s: State, r: State, frame: Frame, boxes: seq<Box>)
    requires Asked(c, s) && Processed(s, r, frame, boxes) && AskedFor(c, r.faceTasks, frame)
    requires s.faceTasks <= r.faceTasks && IsPart(r.queuedProbes, s.queuedProbes)
    ensures Asked(c, r)
  {
    hide IsProbed;
    forall id | IsProbed(s.faceTasks, id)
      ensures IsProbed(r.faceTasks, id)
    {
      ProbedMore(s.faceTasks, r.faceTasks, id);
    }
  }

  lemma QueuedIsProbed(c: Config, s: State, id: int)
    requires Asked(c, s)
    ensures id in s.queuedProbes ==> IsProbed(s.faceTasks, id)
  {
  }

  lemma ProcessedAsks(c: Config, s: State, frame: Frame, boxes: seq<Box>)
    requires Asked(c, s)
    ensures Asked(c, ProcessFrame(c, s, frame, boxes))
  {
    hide *;
    QueuedIsProbed(c, s, frame.id);
    ProcessEffect(c, s, frame, boxes);
    ProcessAsks(c, s, frame, boxes);
    TrackingAsks(c, s, ProcessFrame(c, s, frame, boxes), frame, boxes);
  }

  lemma CursorMovesOn(r: State, id: int)
    ensures AskedMore(r, r.(frames := r.frames - {id}, detections := r.detections - {id}, nextTracker := id + 1))
    ensures AskedMore(r, r.(nextTracker := id))
  {
  }

  lemma TrackStepAsks(c: Config, s: State)
    requires Asked(c, s) && TrackBusy(c, s)
    ensures Asked(c, TrackStep(c, s))
  {
    hide Asked, ProcessFrame, AskedMore, TrackBusy;
    var id := s.nextTracker;
    if id in s.frames {
      var boxes := if id in s.detections then s.detections[id] else [];
      ProcessedAsks(c, s, s.frames[id], boxes);
      CursorMovesOn(ProcessFrame(c, s, s.frames[id], boxes), id);
      AskedMoreKeeps(c, ProcessFrame(c, s, s.frames[id], boxes), TrackStep(c, s));
    } else {
      assert s.frames.Keys != {} by {
        assert TrackBusy(c, s);
        WaitingFrames(c, s);
      }
      CursorMovesOn(s, Least(s.frames.Keys));
      AskedMoreKeeps(c, s, TrackStep(c, s));
    }
  }

  lemma WaitingFrames(c: Config, s: State)
    requires TrackBusy(c, s)
    ensures s.nextTracker !in s.frames ==> s.frames.Keys != {}
  {
  }

  lemma {:induction false} TrackLoopAsks(c: Config, s: State)
    requires Asked(c, s)
    ensures Asked(c, TrackLoop(c, s))
    decreases |s.frames|, Gap(s)
  {
    hide Asked, TrackStep, TrackBusy, Gap;
    if TrackBusy(c, s) {
      TrackStepShrinks(c, s);
      TrackStepAsks(c, s);
      TrackLoopAsks(c, TrackStep(c, s));
    }
  }

  lemma DrainTrackingAsks(c: Config, s: State)
    requires Asked(c, s)
    ensures Asked(c, DrainTracking(c, s))
  {
    hide Asked, TrackLoop;
    AskedMoreKeeps(c, s, SeedTracker(s));
    TrackLoopAsks(c, SeedTracker(s));
    AskedMoreKeeps(c, TrackLoop(c, SeedTracker(s)), DrainTracking(c, s));
  }

  lemma FaceDrainedAsks(c: Config, s: State, r: State, id: int)
    requires Asked(c, s) && FaceDrained(s, r, id)
    ensures Asked(c, r)
  {
    hide IsProbed, AskedFor;
    if r.recognitionTasks == s.recognitionTasks {
    } else {
      assert r.faceTasks == s.faceTasks && r.queuedProbes == s.queuedProbes && r.faceFrames == s.faceFrames - {id};
      assert AskedFor(c, s.faceTasks, s.faceFrames[id].frame);
    }
  }

  lemma DrainFaceAsks(c: Config, s: State, id: int)
    requires Asked(c, s) && id in s.faceFrames
    ensures Asked(c, DrainFace(c, s, id))
  {
    hide *;
    DrainFaceEffect(c, s, id);
    FaceDrainedAsks(c, s, DrainFace(c, s, id), id);
  }

  lemma {:induction false} DrainFacesAsks(c: Config, s: State, todo: set<int>)
    requires Asked(c, s) && todo <= s.faceFrames.Keys
    ensures Asked(c, DrainFaces(c, s, todo))
    decreases |todo|
  {
    if todo != {} {
      var id := Least(todo);
      DrainFaceEffect(c, s, id);
      hide Asked, DrainFace;
      DrainFaceAsks(c, s, id);
      DrainFacesAsks(c, DrainFace(c, s, id), todo - {id});
    }
  }

  lemma SameFrontAsks(c: Config, s: State, r: State)
    requires Asked(c, s) && Order.SameFront(s, r)
    ensures Asked(c, r)
  {
    hide AskedFor, IsProbed;
  }

  lemma AnswersSameFront(c: Config, s: State)
    ensures Order.SameFront(s, DrainRecognition(c, s))
    ensures Order.SameFront(s, DrainCommit(c, s))
  {
    hide RecognitionLoop, CommitLoop, DropBelow;
    Order.RecognitionLoopEffect(c, SeedRecognition(s));
    Order.CommitLoopEffect(c, SeedCommit(s));
    SeedsSameFront(s);
    var a, b := RecognitionLoop(c, SeedRecognition(s)), CommitLoop(c, SeedCommit(s));
    hide SeedRecognition, SeedCommit;
    DropsSameFront(s, a);
    DropsSameFront(s, b);
  }

  lemma SeedsSameFront(s: State)
    ensures Order.SameFront(s, SeedRecognition(s)) && Order.SameFront(s, SeedCommit(s))
  {
    if s.nextRecognition < 0 && s.recognitions.Keys != {} {
    } else {
    }
    if s.nextCommit < 0 && s.identities.Keys != {} {
    } else {
    }
  }

  lemma DropsSameFront(s: State, r: State)
    requires Order.SameFront(s, r)
    ensures Order.SameFront(s, r.(recognitions := DropBelow(r.recognitions, r.nextRecognition)))
    ensures Order.SameFront(s, r.(identities := DropBelow(r.identities, r.nextCommit)))
  {
    hide DropBelow;
  }

  lemma AnswersAsk(c: Config, s: State)
    requires Asked(c, s)
    ensures Asked(c, DrainRecognition(c, s)) && Asked(c, DrainCommit(c, s))
  {
    hide *;
    AnswersSameFront(c, s);
    SameFrontAsks(c, s, DrainRecognition(c, s));
    SameFrontAsks(c, s, DrainCommit(c, s));
  }

  lemma {:induction false} TrimFacesAsks(s: State, limit: nat)
    ensures IsPart(TrimFaces(s, limit).faceFrames, s.faceFrames)
    decreases |s.faceFrames|
  {
    if |s.faceFrames| > limit {
      assert s.faceFrames.Keys != {};
      TrimFacesAsks(TrimFaceStep(s), limit);
    }
  }

  lemma TrimAsks(c: Config, s: State)
    requires Asked(c, s)
    ensures Asked(c, Trim(c, s))
  {
    hide Asked, Trimmed, TrimFaces;
    var s1 := s.(frames := Trimmed(s.frames, c.limit),
                 detections := Trimmed(s.detections, c.limit),
                 queuedProbes := Trimmed(s.queuedProbes, c.limit),
                 earlyFaces := Trimmed(s.earlyFaces, c.limit));
    TrimmedIsPart(s.queuedProbes, c.limit);
    TrimFacesChanges(s1, c.limit);
    TrimFacesAsks(s1, c.limit);
    AskedMoreKeeps(c, s, Trim(c, s));
  }

  lemma ProbeEarlyAsks(c: Config, s: State, id: int)
    requires Asked(c, s) && id in s.frames && s.frames[id].id == id
    ensures Asked(c, ProbeEarly(s, id))
  {
    if !s.frames[id].infEmpty {
      PlannedIsProbed(s.faceTasks, s.frames[id]);
    }
    var r := ProbeEarly(s, id);
    assert s.faceTasks <= r.faceTasks;
    forall k | IsProbed(s.faceTasks, k)
      ensures IsProbed(r.faceTasks, k)
    {
      ProbedMore(s.faceTasks, r.faceTasks, k);
    }
    hide IsProbed, ProbeIds;
  }

  lemma {:induction false} ProbeEarlyAllAsks(c: Config, s: State, todo: set<int>)
    requires Asked(c, s) && todo <= s.frames.Keys && forall k :: k in s.frames ==> s.frames[k].id == k
    ensures Asked(c, ProbeEarlyAll(s, todo))
    decreases |todo|
  {
    if todo != {} {
      var id := Least(todo);
      assert ProbeEarly(s, id).frames == s.frames;
      ProbeEarlyAsks(c, s, id);
      hide Asked, ProbeEarly;
      ProbeEarlyAllAsks(c, ProbeEarly(s, id), todo - {id});
    }
  }

  lemma DrainReadyAsks(c: Config, s: State)
    requires Asked(c, s) && Order.Ordered(s)
    ensures Asked(c, DrainReady(c, s))
  {
    var s1 := DrainProbes(c, s);
    ProbeEarlyAllAsks(c, s, s.frames.Keys);
    assert Asked(c, s1);
    hide Asked, DrainProbes, DrainTracking, DrainFaces, DrainRecognition, DrainCommit, Trim, Order.Ordered;
    DrainTrackingAsks(c, s1);
    var s2 := DrainTracking(c, s1);
    DrainFacesAsks(c, s2, s2.faceFrames.Keys);
    var s3 := DrainFaces(c, s2, s2.faceFrames.Keys);
    AnswersAsk(c, s3);
    AnswersAsk(c, DrainRecognition(c, s3));
    TrimAsks(c, Drained(c, s));
  }

  lemma PushFaceAsks(c: Config, s: State, r: FaceResult)
    requires Asked(c, s)
    ensures Asked(c, PushFace(c, s, r))
  {
    hide IsProbed;
  }

  lemma StepAsks(c: Config, s: State, e: Event)
    requires Asked(c, s) && Order.Ordered(s)
    ensures Asked(c, Step(c, s, e))
  {
    hide Asked, DrainReady, PushFace, Order.Ordered, AskedMore;
    match e
    case FacePushed(r) => PushFaceAsks(c, s, r);
    case DrainCalled => DrainReadyAsks(c, s);
    case _ =>
      hide PushFace, DrainReady;
      PushAsksNothing(c, s, e);
      AskedMoreKeeps(c, s, Step(c, s, e));
  }

  lemma PushAsksNothing(c: Config, s: State, e: Event)
    requires !e.FacePushed? && !e.DrainCalled?
    ensures AskedMore(s, Step(c, s, e))
  {
    hide PushFace, DrainReady;
    match e
    case FramePushed(frame) => FrameAsksNothing(s, frame);
    case DetectionPushed(id, boxes) => DetectionAsksNothing(s, id, boxes);
    case RecognitionPushed(a) => RecognitionAsksNothing(s, a);
    case IdentityPushed(a) => IdentityAsksNothing(s, a);
  }

  lemma FrameAsksNothing(s: State, frame: Frame)
    ensures AskedMore(s, PushFrame(s, frame))
  {
    if s.nextTracker >= 0 && frame.id < s.nextTracker {
    } else {
    }
  }

  lemma DetectionAsksNothing(s: State, id: int, boxes: seq<Box>)
    ensures AskedMore(s, PushDetection(s, id, boxes))
  {
    if s.nextTracker >= 0 && id < s.nextTracker {
    } else {
    }
  }

  lemma RecognitionAsksNothing(s: State, a: Answer)
    ensures AskedMore(s, PushRecognition(s, a))
  {
    if s.nextRecognition >= 0 && a.frameId < s.nextRecognition {
    } else {
    }
  }

  lemma IdentityAsksNothing(s: State, a: Answer)
    ensures AskedMore(s, PushIdentity(s, a))
  {
    if s.nextCommit >= 0 && a.frameId < s.nextCommit {
    } else {
    }
  }

  /** On every run at all, whatever frame with an image goes on to recognition was given to the face detector, if faces are on. */
  lemma {:induction false} EveryRecognisedFrameIsProbed(c: Config, run: seq<Event>)
    ensures Asked(c, After(c, run))
    ensures forall t :: t in After(c, run).recognitionTasks ==> AskedFor(c, After(c, run).faceTasks, t.frame)
  {
    if run != [] {
      EveryRecognisedFrameIsProbed(c, run[..|run| - 1]);
      Order.EveryRunCallsInOrder(c, run[..|run| - 1]);
      hide Asked, Step, Order.Ordered;
      StepAsks(c, After(c, run[..|run| - 1]), run[|run| - 1]);
    }
    AskedTasks(c, After(c, run));
    hide Asked, AskedFor;
  }

  lemma AskedTasks(c: Config, s: State)
    requires Asked(c, s)
    ensures forall t :: t in s.recognitionTasks ==> AskedFor(c, s.faceTasks, t.frame)
  {
    hide AskedFor;
  }

  // ---------------------------------------------------------------- answers reach the recognition task

  /** Handing a frame over, some box of its task carries a face of that frame if any face answered fits any of them. */
  lemma HandedOverWithFaces(c: Config, s: State, id: int)
    requires id in s.faceFrames && !s.faceFrames[id].queued && s.faceFrames[id].probes == {}
    requires Face.AnyPlausible(c.Face(), Face.PeopleOf(s.faceFrames[id].tracks), s.faceFrames[id].results)
    ensures var r := DrainFace(c, s, id); var n := |s.recognitionTasks|;
      && |r.recognitionTasks| == n + 1 && r.recognitionTasks[n].frameId == s.faceFrames[id].frame.id
      && Face.SomeFresh(r.recognitionTasks[n].tracks, s.faceFrames[id].frame.id)
  {
    var p := s.faceFrames[id];
    Face.AppliedSeats(c.Face(), p.tracks, p.results, p.frame.id);
    hide Face.AnyPlausible, Face.SomeFresh, Face.Applied;
    var s0 := s.(faceFrames := s.faceFrames[id := p.(probes := {})]);
    assert s0 == s;
  }

  /** The answer to a frame's last probe counts: once it is in, the frame is handed over with a face of this answer that fits. */
  lemma FaceReachesRecognition(c: Config, s: State, r: FaceResult)
    requires r.frameId in s.faceFrames && !s.faceFrames[r.frameId].queued && s.faceFrames[r.frameId].probes == {r.probe}
    requires Face.AnyPlausible(c.Face(), Face.PeopleOf(s.faceFrames[r.frameId].tracks), [r.faces])
    ensures var z := DrainFace(c, PushFace(c, s, r), r.frameId); var n := |s.recognitionTasks|;
      && |z.recognitionTasks| == n + 1 && z.recognitionTasks[n].frameId == s.faceFrames[r.frameId].frame.id
      && Face.SomeFresh(z.recognitionTasks[n].tracks, s.faceFrames[r.frameId].frame.id)
  {
    var people, before := Face.PeopleOf(s.faceFrames[r.frameId].tracks), s.faceFrames[r.frameId].results;
    hide Face.PeopleOf, Face.Plausible, Face.SomeFresh, DrainFace;
    var k, f, i :| 0 <= k < |[r.faces]| && 0 <= f < |[r.faces][k]| && 0 <= i < |people| && Face.Plausible(c.Face(), [r.faces][k][f], people[i]);
    assert (before + [r.faces])[|before|] == r.faces;
    assert Face.AnyPlausible(c.Face(), people, before + [r.faces]);
    HandedOverWithFaces(c, PushFace(c, s, r), r.frameId);
  }

  /** An answer that came before its frame was tracked counts as well. */
  lemma EarlyFaceIsUsed(c: Config, s: State, r: FaceResult, frame: Frame, boxes: seq<Box>)
    requires c.EarlyProbes() && frame.id == r.frameId && r.frameId !in s.faceFrames && r.frameId !in s.earlyFaces
    requires s.nextCommit < 0 || r.frameId >= s.nextCommit
    requires frame.id in s.queuedProbes && s.queuedProbes[frame.id] == {r.probe}
    requires Face.AnyPlausible(c.Face(), Face.PeopleOf(c.tracker(s.trackerCalls + [TrackerCall(frame.id, boxes)])), [r.faces])
    ensures var z := ProcessFrame(c, PushFace(c, s, r), frame, boxes); var n := |s.recognitionTasks|;
      && |z.recognitionTasks| == n + 1 && z.recognitionTasks[n].frameId == frame.id
      && Face.SomeFresh(z.recognitionTasks[n].tracks, frame.id)
  {
    var tracks := c.tracker(s.trackerCalls + [TrackerCall(frame.id, boxes)]);
    Face.AppliedSeats(c.Face(), tracks, [r.faces], frame.id);
    hide Face.AnyPlausible, Face.SomeFresh, Face.Applied, Face.PeopleOf;
    var s1 := PushFace(c, s, r);
    assert s1.earlyFaces[frame.id] == [r];
    var (s2, pending, tasks) := Tracked(c, s1, frame, boxes);
    assert pending == FaceFrame(frame, tracks, {r.probe}, [], false) && tasks == [];
    assert ReceivedEarly(pending, [r]) == FaceFrame(frame, tracks, {}, [r.faces], false) by {
      assert [r][..0] == [];
      assert ReceivedEarly(pending, []) == pending;
    }
  }
}
