/**
  Which boxes go through the coordinator (core/src/pipeline/stream_coordinator.cpp): whatever the
  tracker answered for a frame stays with that frame, box by box, on its way to the commit.
*/
module CoordinatorBoxes {
  import opened Types
  import opened Coordinator
  import opened CoordinatorSafety
  import Order = CoordinatorOrder
  import Face = FacePolicy

  // ---------------------------------------------------------------- boxes that stay the same

  /** The same box but for what recognition, identity and faces say about it. */
  predicate SamePerson(a: Box, b: Box)
  {
    a == b.(identityKey := a.identityKey, identityConfidence := a.identityConfidence, privacyAction := a.privacyAction,
            recognitionState := a.recognitionState, face := a.face)
  }

  /** All boxes are there, in order; unless faces are looked for on their own, there are no others. */
  ghost predicate Keeps(c: Config, boxes: seq<Box>, tracks: seq<Box>)
  {
    && |boxes| <= |tracks|
    && (!c.EarlyProbes() ==> |tracks| == |boxes|)
    && forall i :: 0 <= i < |boxes| ==> SamePerson(tracks[i], boxes[i])
  }

  /** Anonymized, and without a face from another frame. */
  predicate Closed(id: int, tracks: seq<Box>)
  {
    forall i :: 0 <= i < |tracks| ==> tracks[i].privacyAction == ANONYMIZE && (tracks[i].face.Some? ==> Face.FreshIn(tracks[i], id))
  }

  /** Closed, unless faces are looked for on their own. */
  ghost predicate Clean(c: Config, id: int, tracks: seq<Box>)
  {
    !c.EarlyProbes() ==> Closed(id, tracks)
  }

  /** The tracks are those the tracker answered to its i-th call, which was about this frame. */
  ghost predicate ShowsAt(c: Config, calls: seq<TrackerCall>, i: int, id: int, tracks: seq<Box>)
  {
    0 <= i < |calls| && calls[i].frameId == id && Keeps(c, c.tracker(calls[..i + 1]), tracks)
  }

  ghost predicate Shows(c: Config, calls: seq<TrackerCall>, id: int, tracks: seq<Box>)
  {
    exists i :: ShowsAt(c, calls, i, id, tracks)
  }

  lemma ShowsLater(c: Config, calls: seq<TrackerCall>, more: seq<TrackerCall>, id: int, tracks: seq<Box>)
    requires Shows(c, calls, id, tracks) && calls <= more
    ensures Shows(c, more, id, tracks)
  {
    var i :| ShowsAt(c, calls, i, id, tracks);
    assert more[..i + 1] == calls[..i + 1];
    hide Keeps;
    assert ShowsAt(c, more, i, id, tracks);
  }

  lemma KeepsTwice(c: Config, boxes: seq<Box>, tracks: seq<Box>, out: seq<Box>)
    requires Keeps(c, boxes, tracks) && Keeps(c, tracks, out)
    ensures Keeps(c, boxes, out)
  {
  }

  lemma ShowsKept(c: Config, calls: seq<TrackerCall>, id: int, tracks: seq<Box>, out: seq<Box>)
    requires Shows(c, calls, id, tracks) && Keeps(c, tracks, out)
    ensures Shows(c, calls, id, out)
  {
    var i :| ShowsAt(c, calls, i, id, tracks);
    KeepsTwice(c, c.tracker(calls[..i + 1]), tracks, out);
    hide Keeps;
    assert ShowsAt(c, calls, i, id, out);
  }

  // ---------------------------------------------------------------- faces keep the boxes

  lemma {:induction false} AppliedSeats(c: Face.Config, tracks: seq<Box>, results: seq<seq<FaceObservation>>, frameId: int)
    ensures var r := Face.Applied(c, tracks, results, frameId);
      && |r| >= |tracks| && (!c.independent || results == [] ==> |r| == |tracks|)
      && forall i :: 0 <= i < |tracks| ==> Face.SameButFace(r[i], tracks[i]) && (r[i] == tracks[i] || Face.FreshIn(r[i], frameId))
  {
    if results != [] {
      var k := |results| - 1;
      AppliedSeats(c, tracks, results[..k], frameId);
      var before := Face.Applied(c, tracks, results[..k], frameId);
      var sorted := Face.Sorted(results[k]);
      Face.SortedIsSorted(results[k]);
      Face.PlacedPeople(c, before, sorted, frameId);
      Face.PlacedAdditions(c, before, sorted, frameId);
      var choice, after := Face.ChoicesOf(c, Face.PeopleOf(before), sorted), Face.PlacedAll(c, before, sorted, frameId);
      hide Face.Choice, Face.PlacedAll, Face.PeopleOf, Face.Sorted, Face.FreshIn, Face.Left;
      forall i | 0 <= i < |tracks|
        ensures Face.SameButFace(after[i], tracks[i]) && (after[i] == tracks[i] || Face.FreshIn(after[i], frameId))
      {
        if Face.IsTaken(choice, i) {
          var g := Face.TakenAt(choice, i);
        }
      }
    }
  }

  lemma AppliedKeeps(c: Config, tracks: seq<Box>, results: seq<seq<FaceObservation>>, id: int)
    requires !c.faceEnabled ==> results == []
    ensures Keeps(c, tracks, Face.Applied(c.Face(), tracks, results, id))
    ensures Clean(c, id, tracks) ==> Clean(c, id, Face.Applied(c.Face(), tracks, results, id))
  {
    AppliedSeats(c.Face(), tracks, results, id);
    hide Face.Applied, Face.FreshIn;
  }

  // ---------------------------------------------------------------- the invariant

  ghost predicate CarriedFrame(c: Config, calls: seq<TrackerCall>, id: int, p: FaceFrame)
  {
    && p.frame.id == id
    && Shows(c, calls, id, p.tracks)
    && Clean(c, id, p.tracks)
    && (!c.faceEnabled ==> p.probes == {} && p.results == [])
  }

  ghost predicate CarriedTask(c: Config, calls: seq<TrackerCall>, t: Task)
  {
    t.frame.id == t.frameId && Shows(c, calls, t.frameId, t.tracks)
  }

  ghost predicate CarriedAnswer(c: Config, calls: seq<TrackerCall>, a: Answer)
  {
    a.frame.Some? && a.frame.value.id == a.frameId && Shows(c, calls, a.frameId, a.tracks)
  }

  /** Up to recognition. */
  ghost predicate Front(c: Config, calls: seq<TrackerCall>, faceFrames: map<int, FaceFrame>, tasks: seq<Task>)
  {
    && (forall k :: k in faceFrames ==> CarriedFrame(c, calls, k, faceFrames[k]))
    && (forall i :: 0 <= i < |tasks| ==> CarriedTask(c, calls, tasks[i]) && Clean(c, tasks[i].frameId, tasks[i].tracks))
  }

  /** From recognition on. */
  ghost predicate Back(c: Config, calls: seq<TrackerCall>, recognitions: map<int, Answer>, tasks: seq<Task>, identities: map<int, Answer>,
                       commits: seq<Commit>)
  {
    && (forall k :: k in recognitions ==> CarriedAnswer(c, calls, recognitions[k]))
    && (forall i :: 0 <= i < |tasks| ==> CarriedTask(c, calls, tasks[i]))
    && (forall k :: k in identities ==> CarriedAnswer(c, calls, identities[k]))
    && (forall i :: 0 <= i < |commits| ==> Shows(c, calls, commits[i].frame.id, commits[i].tracks))
  }

  /** The boxes of every frame are the tracker's; beyond recognition, if the answers are honest about boxes. */
  ghost predicate Carried(c: Config, s: State, honest: bool)
  {
    && Front(c, s.trackerCalls, s.faceFrames, s.recognitionTasks)
    && (honest ==> Back(c, s.trackerCalls, s.recognitions, s.identityTasks, s.identities, s.commits))
  }

  lemma FrontLater(c: Config, calls: seq<TrackerCall>, more: seq<TrackerCall>, faceFrames: map<int, FaceFrame>, tasks: seq<Task>)
    requires Front(c, calls, faceFrames, tasks) && calls <= more
    ensures Front(c, more, faceFrames, tasks)
  {
    hide Shows, Clean;
    forall k | k in faceFrames
      ensures CarriedFrame(c, more, k, faceFrames[k])
    {
      ShowsLater(c, calls, more, k, faceFrames[k].tracks);
    }
    forall i | 0 <= i < |tasks|
      ensures CarriedTask(c, more, tasks[i])
    {
      ShowsLater(c, calls, more, tasks[i].frameId, tasks[i].tracks);
    }
  }

  lemma AnswerLater(c: Config, calls: seq<TrackerCall>, more: seq<TrackerCall>, a: Answer)
    requires CarriedAnswer(c, calls, a) && calls <= more
    ensures CarriedAnswer(c, more, a)
  {
    ShowsLater(c, calls, more, a.frameId, a.tracks);
    hide Shows;
  }

  lemma BackLater(c: Config, calls: seq<TrackerCall>, more: seq<TrackerCall>, recognitions: map<int, Answer>, tasks: seq<Task>,
                  identities: map<int, Answer>, commits: seq<Commit>)
    requires Back(c, calls, recognitions, tasks, identities, commits) && calls <= more
    ensures Back(c, more, recognitions, tasks, identities, commits)
  {
    hide Shows, CarriedAnswer;
    forall k | k in recognitions
      ensures CarriedAnswer(c, more, recognitions[k])
    {
      AnswerLater(c, calls, more, recognitions[k]);
    }
    forall k | k in identities
      ensures CarriedAnswer(c, more, identities[k])
    {
      AnswerLater(c, calls, more, identities[k]);
    }
    forall i | 0 <= i < |tasks|
      ensures CarriedTask(c, more, tasks[i])
    {
      ShowsLater(c, calls, more, tasks[i].frameId, tasks[i].tracks);
    }
    forall i | 0 <= i < |commits|
      ensures Shows(c, more, commits[i].frame.id, commits[i].tracks)
    {
      ShowsLater(c, calls, more, commits[i].frame.id, commits[i].tracks);
    }
  }

  /** Some waiting work is dropped; nothing else of what matters here changes. */
  ghost predicate Shrunk(s: State, r: State)
  {
    && r.trackerCalls == s.trackerCalls
    && IsPart(r.faceFrames, s.faceFrames)
    && r.recognitionTasks == s.recognitionTasks
    && IsPart(r.recognitions, s.recognitions)
    && r.identityTasks == s.identityTasks
    && IsPart(r.identities, s.identities)
    && r.commits == s.commits
  }

  lemma ShrunkKeeps(c: Config, s: State, r: State, honest: bool)
    requires Carried(c, s, honest) && Shrunk(s, r)
    ensures Carried(c, r, honest)
  {
    hide CarriedFrame, CarriedTask, CarriedAnswer, Shows, Clean;
  }

  // ---------------------------------------------------------------- tracking keeps it

  lemma {:induction false} NothingReceivedEarly(pending: FaceFrame, early: seq<FaceResult>)
    requires pending.probes == {}
    ensures ReceivedEarly(pending, early) == pending
  {
    if early != [] {
      NothingReceivedEarly(pending, early[..|early| - 1]);
    }
  }

  lemma LastCallShows(c: Config, calls: seq<TrackerCall>, x: TrackerCall, tracks: seq<Box>)
    requires Keeps(c, c.tracker(calls + [x]), tracks)
    ensures Shows(c, calls + [x], x.frameId, tracks)
  {
    var all := calls + [x];
    assert all[..|calls| + 1] == all;
    hide Keeps;
    assert ShowsAt(c, all, |calls|, x.frameId, tracks);
  }

  lemma ResetKeeps(c: Config, boxes: seq<Box>, id: int)
    ensures Keeps(c, boxes, Face.Reset(boxes)) && Clean(c, id, Face.Reset(boxes))
    ensures Keeps(c, boxes, boxes)
  {
  }

  lemma TrackedCarries(c: Config, s: State, frame: Frame, boxes: seq<Box>)
    ensures var (r, pending, tasks) := Tracked(c, s, frame, boxes);
      && CarriedFrame(c, s.trackerCalls + [TrackerCall(frame.id, boxes)], frame.id, pending)
      && (!c.faceEnabled ==> tasks == [])
  {
    hide Keeps, Clean, Shows, Face.Reset;
    var x := TrackerCall(frame.id, boxes);
    var (r, pending, tasks) := Tracked(c, s, frame, boxes);
    ResetKeeps(c, c.tracker(s.trackerCalls + [x]), frame.id);
    LastCallShows(c, s.trackerCalls, x, pending.tracks);
    EarlyIsClean(c, frame.id, pending.tracks);
  }

  lemma EarlyIsClean(c: Config, id: int, tracks: seq<Box>)
    ensures c.EarlyProbes() ==> Clean(c, id, tracks)
  {
  }

  lemma StartCarries(c: Config, s: State, calls: seq<TrackerCall>, pending: FaceFrame, tasks: seq<FaceTask>)
    requires CarriedFrame(c, calls, pending.frame.id, pending) && (!c.faceEnabled ==> tasks == []) && !pending.queued
    ensures var r := StartFaces(c, s, pending, tasks);
      pending.frame.id in r.faceFrames && CarriedFrame(c, calls, pending.frame.id, r.faceFrames[pending.frame.id])
  {
    hide Shows, Clean, Keeps, Face.Applied;
    if tasks == [] && pending.probes == {} {
      AppliedKeeps(c, pending.tracks, pending.results, pending.frame.id);
      ShowsKept(c, calls, pending.frame.id, pending.tracks, Face.Applied(c.Face(), pending.tracks, pending.results, pending.frame.id));
    }
  }

  /** A frame that was not probed ahead of tracking is put down closed. */
  lemma ProcessCloses(c: Config, s: State, frame: Frame, boxes: seq<Box>)
    requires !c.EarlyProbes() || frame.id !in s.queuedProbes
    ensures var r := ProcessFrame(c, s, frame, boxes);
      frame.id in r.faceFrames && Closed(frame.id, r.faceFrames[frame.id].tracks)
  {
    var (s1, pending, tasks) := Tracked(c, s, frame, boxes);
    assert pending.probes == {} && pending.results == [] && Closed(frame.id, pending.tracks);
    var early := if frame.id in s.earlyFaces then s.earlyFaces[frame.id] else [];
    NothingReceivedEarly(pending, early);
    hide ReceivedEarly, Closed, Face.Reset;
    assert Face.Applied(c.Face(), pending.tracks, [], frame.id) == pending.tracks;
  }

  /** The frame put down carries the tracker's last answer. */
  lemma ProcessShows(c: Config, s: State, frame: Frame, boxes: seq<Box>)
    ensures var r := ProcessFrame(c, s, frame, boxes);
      && r.trackerCalls == s.trackerCalls + [TrackerCall(frame.id, boxes)]
      && frame.id in r.faceFrames
      && Keeps(c, c.tracker(r.trackerCalls), r.faceFrames[frame.id].tracks)
  {
    hide Keeps, CarriedFrame, Tracked, ReceivedEarly, StartFaces;
    ProcessEffect(c, s, frame, boxes);
    var (s1, pending, tasks) := Tracked(c, s, frame, boxes);
    TrackedEffect(c, s, frame, boxes);
    TrackedKeeps(c, s, frame, boxes);
    var early := if frame.id in s.earlyFaces then s.earlyFaces[frame.id] else [];
    ReceivedEarlyKeeps(pending, early);
    if !c.faceEnabled {
      NothingReceivedEarly(pending, early);
    }
    StartShows(c, s1.(earlyFaces := s1.earlyFaces - {frame.id}), c.tracker(s.trackerCalls + [TrackerCall(frame.id, boxes)]),
               ReceivedEarly(pending, early), tasks);
  }

  lemma TrackedKeeps(c: Config, s: State, frame: Frame, boxes: seq<Box>)
    ensures var pending := Tracked(c, s, frame, boxes).1;
      && Keeps(c, c.tracker(s.trackerCalls + [TrackerCall(frame.id, boxes)]), pending.tracks)
      && (!c.faceEnabled ==> pending.probes == {} && pending.results == [])
  {
    hide Keeps, Face.Reset, Clean;
    ResetKeeps(c, c.tracker(s.trackerCalls + [TrackerCall(frame.id, boxes)]), frame.id);
  }

  lemma StartShows(c: Config, s: State, answer: seq<Box>, pending: FaceFrame, tasks: seq<FaceTask>)
    requires Keeps(c, answer, pending.tracks) && (!c.faceEnabled ==> pending.results == []) && !pending.queued
    ensures var r := StartFaces(c, s, pending, tasks);
      pending.frame.id in r.faceFrames && Keeps(c, answer, r.faceFrames[pending.frame.id].tracks)
  {
    hide Keeps, Face.Applied, Clean;
    if tasks == [] && pending.probes == {} {
      AppliedKeeps(c, pending.tracks, pending.results, pending.frame.id);
      KeepsTwice(c, answer, pending.tracks, Face.Applied(c.Face(), pending.tracks, pending.results, pending.frame.id));
    }
  }

  /** The frame put down for a tracker call carries what the tracker answered to it. */
  lemma ProcessCarries(c: Config, s: State, frame: Frame, boxes: seq<Box>)
    ensures var r := ProcessFrame(c, s, frame, boxes);
      && frame.id in r.faceFrames
      && CarriedFrame(c, s.trackerCalls + [TrackerCall(frame.id, boxes)], frame.id, r.faceFrames[frame.id])
  {
    hide Shows, Clean, StartFaces, Tracked, ReceivedEarly;
    var (s1, pending, tasks) := Tracked(c, s, frame, boxes);
    TrackedCarries(c, s, frame, boxes);
    TrackedEffect(c, s, frame, boxes);
    var early := if frame.id in s.earlyFaces then s.earlyFaces[frame.id] else [];
    ReceivedEarlyKeeps(pending, early);
    if pending.probes == {} {
      NothingReceivedEarly(pending, early);
    }
    StartCarries(c, s1.(earlyFaces := s1.earlyFaces - {frame.id}), s.trackerCalls + [TrackerCall(frame.id, boxes)],
                 ReceivedEarly(pending, early), tasks);
  }

  lemma FrontAfterTracking(c: Config, s: State, r: State, frame: Frame, boxes: seq<Box>, honest: bool)
    requires Carried(c, s, honest) && Processed(s, r, frame, boxes) && frame.id in r.faceFrames
    requires CarriedFrame(c, s.trackerCalls + [TrackerCall(frame.id, boxes)], frame.id, r.faceFrames[frame.id])
    ensures Carried(c, r, honest) && s.trackerCalls <= r.trackerCalls
  {
    hide Shows, Clean, Back;
    FrontLater(c, s.trackerCalls, r.trackerCalls, s.faceFrames, s.recognitionTasks);
    if honest {
      BackLater(c, s.trackerCalls, r.trackerCalls, s.recognitions, s.identityTasks, s.identities, s.commits);
    }
  }

  lemma TrackStepCarries(c: Config, s: State, honest: bool)
    requires Carried(c, s, honest) && TrackBusy(c, s)
    ensures Carried(c, TrackStep(c, s), honest) && s.trackerCalls <= TrackStep(c, s).trackerCalls
  {
    hide Carried, ProcessFrame, CarriedFrame, TrackBusy;
    var id := s.nextTracker;
    if id in s.frames {
      var boxes := if id in s.detections then s.detections[id] else [];
      var r := ProcessFrame(c, s, s.frames[id], boxes);
      ProcessEffect(c, s, s.frames[id], boxes);
      ProcessCarries(c, s, s.frames[id], boxes);
      FrontAfterTracking(c, s, r, s.frames[id], boxes, honest);
      ShrunkKeeps(c, r, TrackStep(c, s), honest);
    } else {
      ShrunkKeeps(c, s, TrackStep(c, s), honest);
    }
  }

  lemma {:induction false} TrackLoopCarries(c: Config, s: State, honest: bool)
    requires Carried(c, s, honest)
    ensures Carried(c, TrackLoop(c, s), honest) && s.trackerCalls <= TrackLoop(c, s).trackerCalls
    decreases |s.frames|, Gap(s)
  {
    hide Carried, TrackStep, TrackBusy, Gap;
    if TrackBusy(c, s) {
      TrackStepShrinks(c, s);
      TrackStepCarries(c, s, honest);
      TrackLoopCarries(c, TrackStep(c, s), honest);
    }
  }

  lemma DrainTrackingCarries(c: Config, s: State, honest: bool)
    requires Carried(c, s, honest)
    ensures Carried(c, DrainTracking(c, s), honest) && s.trackerCalls <= DrainTracking(c, s).trackerCalls
  {
    hide Carried, TrackLoop;
    var s1 := SeedTracker(s);
    ShrunkKeeps(c, s, s1, honest);
    TrackLoopCarries(c, s1, honest);
    ShrunkKeeps(c, TrackLoop(c, s1), DrainTracking(c, s), honest);
  }

  // ---------------------------------------------------------------- the later stages keep it

  /** Handing a frame over to recognition applies its faces; its boxes come along. */
  lemma QueueCarries(c: Config, s: State, id: int, honest: bool)
    requires Carried(c, s, honest) && id in s.faceFrames
    ensures Carried(c, QueueRecognition(c, s, id), honest)
    ensures QueueRecognition(c, s, id).trackerCalls == s.trackerCalls && QueueRecognition(c, s, id).faceFrames.Keys == s.faceFrames.Keys
  {
    hide Shows, Clean, Keeps, Face.Applied, Back;
    var pending := s.faceFrames[id];
    if !pending.queued {
      assert CarriedFrame(c, s.trackerCalls, id, pending);
      AppliedKeeps(c, pending.tracks, pending.results, pending.frame.id);
      ShowsKept(c, s.trackerCalls, id, pending.tracks, Face.Applied(c.Face(), pending.tracks, pending.results, pending.frame.id));
      var tracks := Face.Applied(c.Face(), pending.tracks, pending.results, pending.frame.id);
      FrontMore(c, s.trackerCalls, s.faceFrames, s.recognitionTasks, id, pending.(tracks := tracks, queued := true),
                Task(pending.frame.id, pending.frame, tracks));
      hide Front;
    }
  }

  lemma FrontMore(c: Config, calls: seq<TrackerCall>, faceFrames: map<int, FaceFrame>, tasks: seq<Task>, id: int, p: FaceFrame, x: Task)
    requires Front(c, calls, faceFrames, tasks) && CarriedFrame(c, calls, id, p) && CarriedTask(c, calls, x) && Clean(c, x.frameId, x.tracks)
    ensures Front(c, calls, faceFrames[id := p], tasks + [x])
  {
    hide CarriedFrame, CarriedTask, Clean;
  }

  lemma ProbesDropped(c: Config, s: State, id: int, honest: bool)
    requires Carried(c, s, honest) && id in s.faceFrames
    ensures Carried(c, s.(faceFrames := s.faceFrames[id := s.faceFrames[id].(probes := {})]), honest)
  {
    hide CarriedTask, Shows, Clean, Back;
  }

  lemma DrainFaceCarries(c: Config, s: State, id: int, honest: bool)
    requires Carried(c, s, honest) && id in s.faceFrames
    ensures Carried(c, DrainFace(c, s, id), honest) && DrainFace(c, s, id).trackerCalls == s.trackerCalls
  {
    hide Carried, QueueRecognition;
    var s0 := s.(faceFrames := s.faceFrames[id := s.faceFrames[id].(probes := {})]);
    ProbesDropped(c, s, id, honest);
    QueueCarries(c, s0, id, honest);
    var s1 := if !s.faceFrames[id].queued && (s.faceFrames[id].probes == {} || FaceTimedOut(c, s, id)) then QueueRecognition(c, s0, id) else s;
    FrameLeaves(c, s1, id, honest);
  }

  lemma FrameLeaves(c: Config, s: State, id: int, honest: bool)
    requires Carried(c, s, honest)
    ensures Carried(c, s.(faceFrames := s.faceFrames - {id}), honest)
  {
    hide Carried;
    ShrunkKeeps(c, s, s.(faceFrames := s.faceFrames - {id}), honest);
  }

  lemma {:induction false} DrainFacesCarries(c: Config, s: State, todo: set<int>, honest: bool)
    requires Carried(c, s, honest) && todo <= s.faceFrames.Keys
    ensures Carried(c, DrainFaces(c, s, todo), honest) && DrainFaces(c, s, todo).trackerCalls == s.trackerCalls
    decreases |todo|
  {
    if todo != {} {
      var id := Least(todo);
      DrainFaceEffect(c, s, id);
      hide Carried, DrainFace;
      DrainFaceCarries(c, s, id, honest);
      DrainFacesCarries(c, DrainFace(c, s, id), todo - {id}, honest);
    }
  }

  lemma RecognitionStepCarries(c: Config, s: State, honest: bool)
    requires Carried(c, s, honest) && RecognitionBusy(c, s)
    ensures Carried(c, RecognitionStep(s), honest) && RecognitionStep(s).trackerCalls == s.trackerCalls
  {
    hide Shows, Front;
    if s.nextRecognition in s.recognitions {
      if s.recognitions[s.nextRecognition].frame == None {
      } else {
      }
    } else {
    }
  }

  lemma {:induction false} RecognitionLoopCarries(c: Config, s: State, honest: bool)
    requires Carried(c, s, honest)
    ensures Carried(c, RecognitionLoop(c, s), honest) && RecognitionLoop(c, s).trackerCalls == s.trackerCalls
    decreases RecognitionMeasure(s)
  {
    hide Carried, RecognitionStep, RecognitionBusy, RecognitionMeasure;
    if RecognitionBusy(c, s) {
      RecognitionStepShrinks(c, s);
      RecognitionStepCarries(c, s, honest);
      RecognitionLoopCarries(c, RecognitionStep(s), honest);
    }
  }

  lemma DrainRecognitionCarries(c: Config, s: State, honest: bool)
    requires Carried(c, s, honest)
    ensures Carried(c, DrainRecognition(c, s), honest) && DrainRecognition(c, s).trackerCalls == s.trackerCalls
  {
    hide Carried, RecognitionLoop, SeedRecognition, DropBelow, Shrunk;
    var s1 := SeedRecognition(s);
    SeedCommitShrinks(s);
    ShrunkKeeps(c, s, s1, honest);
    RecognitionLoopCarries(c, s1, honest);
    DroppedShrinks(RecognitionLoop(c, s1));
    ShrunkKeeps(c, RecognitionLoop(c, s1), DrainRecognition(c, s), honest);
  }

  lemma CommitStepCarries(c: Config, s: State, honest: bool)
    requires Carried(c, s, honest) && CommitBusy(c, s)
    ensures Carried(c, CommitStep(s), honest) && CommitStep(s).trackerCalls == s.trackerCalls
  {
    hide Shows, Front;
    if s.nextCommit in s.identities {
      if s.identities[s.nextCommit].frame == None {
      } else {
      }
    } else {
    }
  }

  lemma {:induction false} CommitLoopCarries(c: Config, s: State, honest: bool)
    requires Carried(c, s, honest)
    ensures Carried(c, CommitLoop(c, s), honest) && CommitLoop(c, s).trackerCalls == s.trackerCalls
    decreases CommitMeasure(s)
  {
    hide Carried, CommitStep, CommitBusy, CommitMeasure;
    if CommitBusy(c, s) {
      CommitStepShrinks(c, s);
      CommitStepCarries(c, s, honest);
      CommitLoopCarries(c, CommitStep(s), honest);
    }
  }

  lemma DrainCommitCarries(c: Config, s: State, honest: bool)
    requires Carried(c, s, honest)
    ensures Carried(c, DrainCommit(c, s), honest) && DrainCommit(c, s).trackerCalls == s.trackerCalls
  {
    hide Carried, CommitLoop, SeedCommit, DropBelow, Shrunk;
    var s1 := SeedCommit(s);
    SeedCommitShrinks(s);
    ShrunkKeeps(c, s, s1, honest);
    CommitLoopCarries(c, s1, honest);
    DroppedShrinks(CommitLoop(c, s1));
    ShrunkKeeps(c, CommitLoop(c, s1), DrainCommit(c, s), honest);
  }

  lemma SeedCommitShrinks(s: State)
    ensures Shrunk(s, SeedCommit(s)) && SeedCommit(s).trackerCalls == s.trackerCalls
    ensures Shrunk(s, SeedRecognition(s)) && SeedRecognition(s).trackerCalls == s.trackerCalls
  {
  }

  lemma DroppedShrinks(s: State)
    ensures Shrunk(s, s.(identities := DropBelow(s.identities, s.nextCommit)))
    ensures Shrunk(s, s.(recognitions := DropBelow(s.recognitions, s.nextRecognition)))
  {
  }

  lemma {:induction false} TrimFacesShrinks(s: State, limit: nat)
    ensures IsPart(TrimFaces(s, limit).faceFrames, s.faceFrames)
    decreases |s.faceFrames|
  {
    if |s.faceFrames| > limit {
      assert s.faceFrames.Keys != {};
      TrimFacesShrinks(TrimFaceStep(s), limit);
    }
  }

  lemma TrimCarries(c: Config, s: State, honest: bool)
    requires Carried(c, s, honest)
    ensures Carried(c, Trim(c, s), honest) && Trim(c, s).trackerCalls == s.trackerCalls
  {
    hide Carried, Trimmed, TrimFaces;
    var s1 := s.(frames := Trimmed(s.frames, c.limit),
                 detections := Trimmed(s.detections, c.limit),
                 queuedProbes := Trimmed(s.queuedProbes, c.limit),
                 earlyFaces := Trimmed(s.earlyFaces, c.limit));
    TrimFacesChanges(s1, c.limit);
    TrimFacesShrinks(s1, c.limit);
    var s2 := TrimFaces(s1, c.limit);
    TrimmedIsPart(s2.recognitions, c.limit);
    TrimmedIsPart(s2.identities, c.limit);
    ShrunkKeeps(c, s, Trim(c, s), honest);
  }

  lemma {:induction false} ProbeEarlyAllShrinks(s: State, todo: set<int>)
    requires todo <= s.frames.Keys
    ensures Shrunk(s, ProbeEarlyAll(s, todo))
    decreases |todo|
  {
    if todo != {} {
      var id := Least(todo);
      assert ProbeEarly(s, id).frames == s.frames;
      ProbeEarlyAllShrinks(ProbeEarly(s, id), todo - {id});
    }
  }

  lemma DrainReadyCarries(c: Config, s: State, honest: bool)
    requires Carried(c, s, honest)
    ensures Carried(c, DrainReady(c, s), honest) && s.trackerCalls <= DrainReady(c, s).trackerCalls
  {
    hide Carried;
    var s1 := DrainProbes(c, s);
    ProbeEarlyAllShrinks(s, s.frames.Keys);
    assert Shrunk(s, s1);
    hide DrainProbes, DrainTracking, DrainFaces, DrainRecognition, DrainCommit, Trim, Shrunk;
    ShrunkKeeps(c, s, s1, honest);
    assert s1.trackerCalls == s.trackerCalls by { ShrunkCalls(s, s1); }
    DrainTrackingCarries(c, s1, honest);
    var s2 := DrainTracking(c, s1);
    DrainFacesCarries(c, s2, s2.faceFrames.Keys, honest);
    var s3 := DrainFaces(c, s2, s2.faceFrames.Keys);
    DrainRecognitionCarries(c, s3, honest);
    DrainCommitCarries(c, DrainRecognition(c, s3), honest);
    TrimCarries(c, Drained(c, s), honest);
  }

  lemma ShrunkCalls(s: State, r: State)
    requires Shrunk(s, r)
    ensures r.trackerCalls == s.trackerCalls
  {
  }

  // ---------------------------------------------------------------- over every run

  /** The answer is about the frame of a task, and has the boxes of that task. */
  ghost predicate Honest(c: Config, a: Answer, tasks: seq<Task>)
  {
    exists i :: HonestAt(c, a, tasks, i)
  }

  ghost predicate HonestAt(c: Config, a: Answer, tasks: seq<Task>, i: int)
  {
    0 <= i < |tasks| && a.frameId == tasks[i].frameId && a.frame == Some(tasks[i].frame) && Keeps(c, tasks[i].tracks, a.tracks)
  }

  /** Recognizer and decider may say what they like about a box, but neither add nor drop nor move any. */
  ghost predicate HonestStep(c: Config, s: State, e: Event)
  {
    && (e.RecognitionPushed? ==> Honest(c, e.answer, s.recognitionTasks))
    && (e.IdentityPushed? ==> Honest(c, e.answer, s.identityTasks))
  }

  ghost predicate HonestRun(c: Config, run: seq<Event>)
  {
    run != [] ==> HonestRun(c, run[..|run| - 1]) && HonestStep(c, After(c, run[..|run| - 1]), run[|run| - 1])
  }

  lemma HonestIsCarried(c: Config, calls: seq<TrackerCall>, a: Answer, tasks: seq<Task>)
    requires Honest(c, a, tasks) && forall i :: 0 <= i < |tasks| ==> CarriedTask(c, calls, tasks[i])
    ensures CarriedAnswer(c, calls, a)
  {
    var i :| HonestAt(c, a, tasks, i);
    ShowsKept(c, calls, a.frameId, tasks[i].tracks, a.tracks);
    hide Shows, Keeps;
  }

  lemma AnswerCarries(c: Config, s: State, a: Answer, honest: bool)
    requires Carried(c, s, honest) && (honest ==> CarriedAnswer(c, s.trackerCalls, a))
    ensures Carried(c, PushRecognition(s, a), honest) && Carried(c, PushIdentity(s, a), honest)
  {
    hide CarriedAnswer, CarriedTask, CarriedFrame, Shows, Clean;
  }

  lemma PushFaceCarries(c: Config, s: State, r: FaceResult, honest: bool)
    requires Carried(c, s, honest)
    ensures Carried(c, PushFace(c, s, r), honest)
  {
    hide CarriedAnswer, CarriedTask, Shows, Clean, Back;
  }

  lemma StepCarries(c: Config, s: State, e: Event, honest: bool)
    requires Carried(c, s, honest) && (honest ==> HonestStep(c, s, e))
    ensures Carried(c, Step(c, s, e), honest) && s.trackerCalls <= Step(c, s, e).trackerCalls
  {
    hide DrainReady, PushFace, CarriedAnswer, CarriedTask, CarriedFrame, Shows, Clean, Honest;
    match e
    case FramePushed(frame) => ShrunkKeeps(c, s, PushFrame(s, frame), honest);
    case DetectionPushed(id, boxes) => ShrunkKeeps(c, s, PushDetection(s, id, boxes), honest);
    case FacePushed(r) => PushFaceCarries(c, s, r, honest); PushFaceCalls(c, s, r);
    case RecognitionPushed(a) =>
      if honest {
        HonestIsCarried(c, s.trackerCalls, a, s.recognitionTasks);
      }
      AnswerCarries(c, s, a, honest);
    case IdentityPushed(a) =>
      if honest {
        HonestIsCarried(c, s.trackerCalls, a, s.identityTasks);
      }
      AnswerCarries(c, s, a, honest);
    case DrainCalled => DrainReadyCarries(c, s, honest);
  }

  lemma PushFaceCalls(c: Config, s: State, r: FaceResult)
    ensures PushFace(c, s, r).trackerCalls == s.trackerCalls
  {
  }

  lemma {:induction false} RunCarries(c: Config, run: seq<Event>, honest: bool)
    requires honest ==> HonestRun(c, run)
    ensures Carried(c, After(c, run), honest)
  {
    hide Step;
    if run != [] {
      hide Carried, HonestStep;
      RunCarries(c, run[..|run| - 1], honest);
      StepCarries(c, After(c, run[..|run| - 1]), run[|run| - 1], honest);
    }
  }

  /** In order, a frame is tracked once. */
  lemma ShownAt(c: Config, calls: seq<TrackerCall>, i: int, id: int, tracks: seq<Box>)
    requires AscendingCalls(calls) && 0 <= i < |calls| && calls[i].frameId == id && Shows(c, calls, id, tracks)
    ensures Keeps(c, c.tracker(calls[..i + 1]), tracks)
  {
    var j :| ShowsAt(c, calls, j, id, tracks);
    hide Keeps;
    assert i == j;
  }

  /**
    On every run at all, the recognition task of a frame begins with the boxes the tracker answered when
    it was called for that frame, box by box; unless faces are looked for on their own it has no others,
    and all of them are anonymized and carry no face but one detected in that frame.
  */
  lemma EveryTaskCarriesItsBoxes(c: Config, run: seq<Event>, i: nat, t: nat)
    requires var s := After(c, run);
      i < |s.trackerCalls| && t < |s.recognitionTasks| && s.recognitionTasks[t].frameId == s.trackerCalls[i].frameId
    ensures var s := After(c, run);
      && Keeps(c, c.tracker(s.trackerCalls[..i + 1]), s.recognitionTasks[t].tracks)
      && Clean(c, s.recognitionTasks[t].frameId, s.recognitionTasks[t].tracks)
  {
    var s := After(c, run);
    RunCarries(c, run, false);
    Order.EveryRunCallsInOrder(c, run);
    hide After, Keeps, Clean, Shows;
    assert CarriedTask(c, s.trackerCalls, s.recognitionTasks[t]);
    ShownAt(c, s.trackerCalls, i, s.recognitionTasks[t].frameId, s.recognitionTasks[t].tracks);
  }

  /** If recognizer and decider neither add nor drop nor move boxes, a committed frame was tracked and has the boxes of that answer. */
  lemma EveryCommitCarriesItsBoxes(c: Config, run: seq<Event>, k: nat) returns (i: nat)
    requires HonestRun(c, run) && k < |After(c, run).commits|
    ensures var s := After(c, run);
      && i < |s.trackerCalls| && s.trackerCalls[i].frameId == s.commits[k].frame.id
      && Keeps(c, c.tracker(s.trackerCalls[..i + 1]), s.commits[k].tracks)
  {
    var s := After(c, run);
    RunCarries(c, run, true);
    hide After, Keeps;
    assert Shows(c, s.trackerCalls, s.commits[k].frame.id, s.commits[k].tracks);
    i :| ShowsAt(c, s.trackerCalls, i, s.commits[k].frame.id, s.commits[k].tracks);
  }
}
