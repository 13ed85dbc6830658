/**
  What every run of the coordinator keeps: order, at-most-once delivery, and that nothing is
  committed that did not go through every stage.
*/
module CoordinatorSafety {
  import opened Types
  import opened Coordinator

  // ---------------------------------------------------------------- runs

  datatype Event =
    | FramePushed(frame: Frame)
    | DetectionPushed(id: int, boxes: seq<Box>)
    | FacePushed(face: FaceResult)
    | RecognitionPushed(answer: Answer)
    | IdentityPushed(answer: Answer)
    | DrainCalled

  function Step(c: Config, s: State, e: Event): State
  {
    match e
    case FramePushed(frame) => PushFrame(s, frame)
    case DetectionPushed(id, boxes) => PushDetection(s, id, boxes)
    case FacePushed(r) => PushFace(c, s, r)
    case RecognitionPushed(a) => PushRecognition(s, a)
    case IdentityPushed(a) => PushIdentity(s, a)
    case DrainCalled => DrainReady(c, s)
  }

  /** The coordinator after a run, from its initial state. */
  function After(c: Config, run: seq<Event>): State
  {
    if run == [] then INITIAL else Step(c, After(c, run[..|run| - 1]), run[|run| - 1])
  }

  function PushedIds(run: seq<Event>): set<int>
  {
    set e | e in run && e.FramePushed? :: e.frame.id
  }

  /** The answer belongs to a task that was handed out. */
  ghost predicate Answers(a: Answer, tasks: seq<Task>)
  {
    exists i :: 0 <= i < |tasks| && a.frameId == tasks[i].frameId && a.frame == Some(tasks[i].frame)
  }

  /**
    What the environment may do next. Work may be lost, delayed, reordered or answered twice, and
    detections and face results are arbitrary; but frame ids are natural numbers pushed at most once,
    and recognition and identity answers belong to issued tasks.
  */
  ghost predicate Permitted(s: State, pushed: set<int>, e: Event)
  {
    match e
    case FramePushed(frame) => frame.id >= 0 && frame.id !in pushed
    case RecognitionPushed(a) => Answers(a, s.recognitionTasks)
    case IdentityPushed(a) => Answers(a, s.identityTasks)
    case _ => true
  }

  ghost predicate Legal(c: Config, run: seq<Event>)
  {
    run != [] ==>
      && Legal(c, run[..|run| - 1])
      && Permitted(After(c, run[..|run| - 1]), PushedIds(run[..|run| - 1]), run[|run| - 1])
  }

  // ---------------------------------------------------------------- ids in the outboxes

  ghost function CallIds(calls: seq<TrackerCall>): set<int>
  {
    set x | x in calls :: x.frameId
  }

  ghost function TaskIds(tasks: seq<Task>): set<int>
  {
    set x | x in tasks :: x.frameId
  }

  lemma CallAppended(calls: seq<TrackerCall>, x: TrackerCall)
    ensures CallIds(calls + [x]) == CallIds(calls) + {x.frameId}
  {
    assert x in calls + [x];
  }

  lemma TaskAppended(tasks: seq<Task>, x: Task)
    ensures TaskIds(tasks + [x]) == TaskIds(tasks) + {x.frameId}
  {
    assert x in tasks + [x];
  }

  ghost predicate AscendingCalls(calls: seq<TrackerCall>)
  {
    forall i, j :: 0 <= i < j < |calls| ==> calls[i].frameId < calls[j].frameId
  }

  ghost predicate AscendingTasks(tasks: seq<Task>)
  {
    forall i, j :: 0 <= i < j < |tasks| ==> tasks[i].frameId < tasks[j].frameId
  }

  ghost predicate AscendingCommits(commits: seq<Commit>)
  {
    forall i, j :: 0 <= i < j < |commits| ==> commits[i].frame.id < commits[j].frame.id
  }

  ghost predicate DistinctTasks(tasks: seq<Task>)
  {
    forall i, j :: 0 <= i < j < |tasks| ==> tasks[i].frameId != tasks[j].frameId
  }

  /** Every task carries the frame it is about. */
  ghost predicate OwnFrames(tasks: seq<Task>)
  {
    forall i :: 0 <= i < |tasks| ==> tasks[i].frame.id == tasks[i].frameId
  }

  // ---------------------------------------------------------------- the invariant, stage by stage

  ghost predicate TrackerInv(frames: map<int, Frame>, next: int, calls: seq<TrackerCall>, pushed: set<int>)
  {
    && next >= -1
    && (forall k :: k in frames ==> k >= 0 && k >= next && frames[k].id == k && k in pushed)
    && AscendingCalls(calls)
    && (forall i :: 0 <= i < |calls| ==> 0 <= calls[i].frameId < next && calls[i].frameId in pushed)
  }

  ghost predicate FaceInv(faceFrames: map<int, FaceFrame>, tasks: seq<Task>, calls: seq<TrackerCall>, latestFace: int, latestRecognition: int)
  {
    && (forall k :: k in faceFrames ==>
          && faceFrames[k].frame.id == k
          && k in CallIds(calls)
          && (faceFrames[k].queued <==> k in TaskIds(tasks))
          && (faceFrames[k].probes != {} ==> k <= latestFace))
    && DistinctTasks(tasks)
    && OwnFrames(tasks)
    && TaskIds(tasks) <= CallIds(calls)
    && (forall i :: 0 <= i < |tasks| ==> tasks[i].frameId <= latestRecognition)
  }

  /** Each waiting answer is about the frame of a task. */
  ghost predicate Waiting(answers: map<int, Answer>, tasks: seq<Task>)
  {
    forall k :: k in answers ==>
      && answers[k].frameId == k
      && answers[k].frame.Some?
      && answers[k].frame.value.id == k
      && k in TaskIds(tasks)
  }

  ghost predicate RecognitionInv(answers: map<int, Answer>, next: int, tasks: seq<Task>, out: seq<Task>, latestIdentity: int)
  {
    && next >= -1
    && Waiting(answers, tasks)
    && AscendingTasks(out)
    && OwnFrames(out)
    && TaskIds(out) <= TaskIds(tasks)
    && (forall i :: 0 <= i < |out| ==> out[i].frameId < next && out[i].frameId <= latestIdentity)
  }

  ghost predicate CommitInv(answers: map<int, Answer>, next: int, tasks: seq<Task>, commits: seq<Commit>)
  {
    && next >= -1
    && Waiting(answers, tasks)
    && AscendingCommits(commits)
    && (forall i :: 0 <= i < |commits| ==> commits[i].frame.id < next && commits[i].frame.id in TaskIds(tasks))
  }

  ghost predicate Inv(s: State, pushed: set<int>)
  {
    && TrackerInv(s.frames, s.nextTracker, s.trackerCalls, pushed)
    && FaceInv(s.faceFrames, s.recognitionTasks, s.trackerCalls, s.latestFace, s.latestRecognition)
    && RecognitionInv(s.recognitions, s.nextRecognition, s.recognitionTasks, s.identityTasks, s.latestIdentity)
    && CommitInv(s.identities, s.nextCommit, s.identityTasks, s.commits)
    && (s.trackerCalls != [] ==> s.nextCommit >= 0)
    && (forall k :: k in s.queuedProbes ==> k <= s.latestFace)
  }

  // ---------------------------------------------------------------- tracking keeps it

  /** What processing a frame does to the fields the invariant reads. */
  ghost predicate Processed(s: State, r: State, frame: Frame, boxes: seq<Box>)
  {
    && SameInputs(s, r)
    && r.trackerCalls == s.trackerCalls + [TrackerCall(frame.id, boxes)]
    && r.nextCommit == (if s.nextCommit < 0 then frame.id else s.nextCommit)
    && frame.id in r.faceFrames
    && r.faceFrames == s.faceFrames[frame.id := r.faceFrames[frame.id]]
    && r.faceFrames[frame.id].frame == frame
    && r.latestFace >= s.latestFace
    && r.queuedProbes.Keys <= s.queuedProbes.Keys
    && (frame.id <= r.latestFace || frame.id in s.queuedProbes || r.faceFrames[frame.id].queued)
    && r.recognitions == s.recognitions
    && r.nextRecognition == s.nextRecognition
    && r.identities == s.identities
    && r.identityTasks == s.identityTasks
    && r.latestIdentity == s.latestIdentity
    && r.commits == s.commits
    && Handed(s, r, frame)
  }

  /** Either the frame went on to recognition, or it still waits for probes. */
  ghost predicate Handed(s: State, r: State, frame: Frame)
  {
    && frame.id in r.faceFrames
    && if r.faceFrames[frame.id].queued then
         && r.recognitionTasks == s.recognitionTasks + [Task(frame.id, frame, r.faceFrames[frame.id].tracks)]
         && r.latestRecognition == Later(s.latestRecognition, frame.id)
         && r.faceFrames[frame.id].probes == {}
       else
         && r.recognitionTasks == s.recognitionTasks
         && r.latestRecognition == s.latestRecognition
         && r.faceFrames[frame.id].probes != {}
  }

  lemma {:induction false} ReceivedEarlyKeeps(pending: FaceFrame, early: seq<FaceResult>)
    ensures var r := ReceivedEarly(pending, early);
      && r.frame == pending.frame
      && r.queued == pending.queued
      && r.tracks == pending.tracks
      && r.probes <= pending.probes
  {
    if early != [] {
      ReceivedEarlyKeeps(pending, early[..|early| - 1]);
    }
  }

  lemma StartEffect(c: Config, s: State, pending: FaceFrame, tasks: seq<FaceTask>)
    requires !pending.queued
    ensures var r := StartFaces(c, s, pending, tasks);
      var id := pending.frame.id;
      && id in r.faceFrames
      && r == s.(faceFrames := s.faceFrames[id := r.faceFrames[id]], latestFace := r.latestFace, faceTasks := r.faceTasks,
                 recognitionTasks := r.recognitionTasks, latestRecognition := r.latestRecognition)
      && r.faceFrames[id].frame == pending.frame
      && r.latestFace >= s.latestFace
      && (tasks != [] ==> id <= r.latestFace)
      && Handed(s, r, pending.frame)
  {
    hide FacePolicy.Applied;
    if tasks != [] {
      assert tasks[0].probe in ProbeIds(tasks);
    }
  }

  lemma TrackedEffect(c: Config, s: State, frame: Frame, boxes: seq<Box>)
    ensures var (r, pending, tasks) := Tracked(c, s, frame, boxes);
      && r == s.(trackerCalls := s.trackerCalls + [TrackerCall(frame.id, boxes)],
                 nextCommit := if s.nextCommit < 0 then frame.id else s.nextCommit,
                 queuedProbes := r.queuedProbes)
      && r.queuedProbes.Keys <= s.queuedProbes.Keys
      && pending.frame == frame
      && !pending.queued
      && (tasks != [] || frame.id in s.queuedProbes || pending.probes == {})
  {
    hide FacePolicy.Reset;
  }

  lemma ProcessEffect(c: Config, s: State, frame: Frame, boxes: seq<Box>)
    ensures Processed(s, ProcessFrame(c, s, frame, boxes), frame, boxes)
  {
    var (s1, pending, tasks) := Tracked(c, s, frame, boxes);
    TrackedEffect(c, s, frame, boxes);
    var early := if frame.id in s.earlyFaces then s.earlyFaces[frame.id] else [];
    ReceivedEarlyKeeps(pending, early);
    var s2 := s1.(earlyFaces := s1.earlyFaces - {frame.id});
    var received := ReceivedEarly(pending, early);
    StartEffect(c, s2, received, tasks);
    var r := StartFaces(c, s2, received, tasks);
    assert r == ProcessFrame(c, s, frame, boxes);
    assert tasks == [] && received.probes == {} ==> r.faceFrames[frame.id].queued;
    hide ReceivedEarly, StartFaces, Tracked, ProcessFrame;
  }

  lemma GrownTasksKeepWaiting(answers: map<int, Answer>, tasks: seq<Task>, x: Task)
    requires Waiting(answers, tasks)
    ensures Waiting(answers, tasks + [x])
  {
    TaskAppended(tasks, x);
  }

  lemma TaskIdsIndex(tasks: seq<Task>, k: int)
    ensures k in TaskIds(tasks) <==> exists i :: 0 <= i < |tasks| && tasks[i].frameId == k
  {
    if k in TaskIds(tasks) {
      var x :| x in tasks && x.frameId == k;
      var i :| 0 <= i < |tasks| && tasks[i] == x;
    }
  }

  lemma CallIdsIndex(calls: seq<TrackerCall>, k: int)
    ensures k in CallIds(calls) <==> exists i :: 0 <= i < |calls| && calls[i].frameId == k
  {
    if k in CallIds(calls) {
      var x :| x in calls && x.frameId == k;
      var i :| 0 <= i < |calls| && calls[i] == x;
    }
  }

  /** A frame that was never tracked has no recognition task. */
  lemma UntrackedHasNoTask(s: State, pushed: set<int>, id: int)
    requires Inv(s, pushed) && id >= s.nextTracker
    ensures id !in CallIds(s.trackerCalls) && id !in TaskIds(s.recognitionTasks)
  {
    CallIdsIndex(s.trackerCalls, id);
  }

  lemma CommitsNeedCalls(s: State, pushed: set<int>)
    requires Inv(s, pushed)
    ensures s.commits != [] ==> s.trackerCalls != []
  {
    if s.commits != [] {
      var id := s.commits[0].frame.id;
      assert id in TaskIds(s.identityTasks) && id in TaskIds(s.recognitionTasks) && id in CallIds(s.trackerCalls);
    }
  }

  lemma FaceInvAfterTracking(s: State, r: State, pushed: set<int>, frame: Frame, boxes: seq<Box>)
    requires Inv(s, pushed) && frame.id >= s.nextTracker && Processed(s, r, frame, boxes)
    ensures FaceInv(r.faceFrames, r.recognitionTasks, r.trackerCalls, r.latestFace, r.latestRecognition)
  {
    UntrackedHasNoTask(s, pushed, frame.id);
    CallAppended(s.trackerCalls, TrackerCall(frame.id, boxes));
    TaskIdsIndex(s.recognitionTasks, frame.id);
    if r.faceFrames[frame.id].queued {
      TaskAppended(s.recognitionTasks, Task(frame.id, frame, r.faceFrames[frame.id].tracks));
    }
  }

  lemma RecognitionInvAfterTracking(s: State, r: State, pushed: set<int>, frame: Frame, boxes: seq<Box>)
    requires Inv(s, pushed) && Processed(s, r, frame, boxes)
    ensures RecognitionInv(r.recognitions, r.nextRecognition, r.recognitionTasks, r.identityTasks, r.latestIdentity)
  {
    hide FaceInv, TrackerInv, CommitInv;
    if r.faceFrames[frame.id].queued {
      var x := Task(frame.id, frame, r.faceFrames[frame.id].tracks);
      TaskAppended(s.recognitionTasks, x);
      GrownTasksKeepWaiting(s.recognitions, s.recognitionTasks, x);
    }
  }

  lemma CommitInvAfterTracking(s: State, r: State, pushed: set<int>, frame: Frame, boxes: seq<Box>)
    requires Inv(s, pushed) && Processed(s, r, frame, boxes) && frame.id >= 0
    ensures CommitInv(r.identities, r.nextCommit, r.identityTasks, r.commits)
  {
    if s.nextCommit < 0 {
      CommitsNeedCalls(s, pushed);
    }
    hide FaceInv, TrackerInv, RecognitionInv;
  }

  lemma TrackerInvAfterTracking(s: State, r: State, pushed: set<int>, boxes: seq<Box>)
    requires Inv(s, pushed) && s.nextTracker >= 0 && s.nextTracker in s.frames
    requires Processed(s, r, s.frames[s.nextTracker], boxes)
    ensures TrackerInv(r.frames - {s.nextTracker}, s.nextTracker + 1, r.trackerCalls, pushed)
  {
    hide FaceInv, CommitInv, RecognitionInv;
  }

  lemma TrackNextKeeps(c: Config, s: State, boxes: seq<Box>, pushed: set<int>)
    requires Inv(s, pushed) && s.nextTracker >= 0 && s.nextTracker in s.frames
    ensures Inv(TrackNext(c, s, boxes), pushed)
  {
    var frame := s.frames[s.nextTracker];
    var r := ProcessFrame(c, s, frame, boxes);
    ProcessEffect(c, s, frame, boxes);
    FaceInvAfterTracking(s, r, pushed, frame, boxes);
    RecognitionInvAfterTracking(s, r, pushed, frame, boxes);
    CommitInvAfterTracking(s, r, pushed, frame, boxes);
    TrackerInvAfterTracking(s, r, pushed, boxes);
    hide ProcessFrame, FaceInv, TrackerInv, RecognitionInv, CommitInv;
  }

  lemma TrackStepKeeps(c: Config, s: State, pushed: set<int>)
    requires Inv(s, pushed) && TrackBusy(c, s)
    ensures Inv(TrackStep(c, s), pushed)
  {
    hide TrackNext;
    var id := s.nextTracker;
    if id in s.frames {
      TrackNextKeeps(c, s, if id in s.detections then s.detections[id] else [], pushed);
    }
  }

  lemma {:induction false} TrackLoopKeeps(c: Config, s: State, pushed: set<int>)
    requires Inv(s, pushed)
    ensures Inv(TrackLoop(c, s), pushed)
    decreases |s.frames|, Gap(s)
  {
    hide Inv, TrackBusy, TrackStep, Gap;
    if TrackBusy(c, s) {
      TrackStepShrinks(c, s);
      TrackStepKeeps(c, s, pushed);
      TrackLoopKeeps(c, TrackStep(c, s), pushed);
    }
  }

  lemma DrainTrackingKeeps(c: Config, s: State, pushed: set<int>)
    requires Inv(s, pushed)
    ensures Inv(DrainTracking(c, s), pushed)
  {
    var s1 := SeedTracker(s);
    assert Inv(s1, pushed);
    TrackLoopKeeps(c, s1, pushed);
    hide TrackLoop;
  }

  // ---------------------------------------------------------------- the later stages keep it

  /** What handing one face frame over to recognition, or keeping it, does. */
  ghost predicate FaceDrained(s: State, r: State, id: int)
  {
    && id in s.faceFrames
    && if r.recognitionTasks == s.recognitionTasks then
         r == s.(faceFrames := if s.faceFrames[id].queued then s.faceFrames - {id} else s.faceFrames)
       else
         && !s.faceFrames[id].queued
         && |r.recognitionTasks| == |s.recognitionTasks| + 1
         && r == s.(faceFrames := s.faceFrames - {id},
                    latestRecognition := Later(s.latestRecognition, s.faceFrames[id].frame.id),
                    recognitionTasks := s.recognitionTasks + [r.recognitionTasks[|s.recognitionTasks|]])
         && r.recognitionTasks[|s.recognitionTasks|].frameId == s.faceFrames[id].frame.id
         && r.recognitionTasks[|s.recognitionTasks|].frame == s.faceFrames[id].frame
  }

  lemma DrainFaceEffect(c: Config, s: State, id: int)
    requires id in s.faceFrames
    ensures FaceDrained(s, DrainFace(c, s, id), id)
    ensures DrainFace(c, s, id).recognitionTasks == s.recognitionTasks ==>
      s.faceFrames[id].queued || (s.faceFrames[id].probes != {} && !FaceTimedOut(c, s, id))
  {
    hide FacePolicy.Applied;
    var pending := s.faceFrames[id];
    if !pending.queued && (pending.probes == {} || FaceTimedOut(c, s, id)) {
      var s0 := s.(faceFrames := s.faceFrames[id := pending.(probes := {})]);
      var s1 := QueueRecognition(c, s0, id);
      assert s1.faceFrames - {id} == s.faceFrames - {id};
      assert |s1.recognitionTasks| == |s.recognitionTasks| + 1;
    }
  }

  lemma FaceInvAfterDrain(s: State, r: State, id: int)
    requires FaceInv(s.faceFrames, s.recognitionTasks, s.trackerCalls, s.latestFace, s.latestRecognition)
    requires FaceDrained(s, r, id)
    ensures FaceInv(r.faceFrames, r.recognitionTasks, r.trackerCalls, r.latestFace, r.latestRecognition)
  {
    if r.recognitionTasks != s.recognitionTasks {
      TaskAppended(s.recognitionTasks, r.recognitionTasks[|s.recognitionTasks|]);
      TaskIdsIndex(s.recognitionTasks, id);
    }
  }

  lemma DrainFaceKeeps(c: Config, s: State, id: int, pushed: set<int>)
    requires Inv(s, pushed) && id in s.faceFrames
    ensures Inv(DrainFace(c, s, id), pushed)
  {
    var r := DrainFace(c, s, id);
    DrainFaceEffect(c, s, id);
    FaceInvAfterDrain(s, r, id);
    hide DrainFace, TrackerInv, RecognitionInv, CommitInv, FaceInv;
    if r.recognitionTasks != s.recognitionTasks {
      MoreTasksKeepRecognition(s, r.recognitionTasks[|s.recognitionTasks|]);
    }
  }

  lemma MoreTasksKeepRecognition(s: State, x: Task)
    requires RecognitionInv(s.recognitions, s.nextRecognition, s.recognitionTasks, s.identityTasks, s.latestIdentity)
    ensures RecognitionInv(s.recognitions, s.nextRecognition, s.recognitionTasks + [x], s.identityTasks, s.latestIdentity)
  {
    TaskAppended(s.recognitionTasks, x);
    GrownTasksKeepWaiting(s.recognitions, s.recognitionTasks, x);
  }

  lemma {:induction false} DrainFacesKeeps(c: Config, s: State, todo: set<int>, pushed: set<int>)
    requires Inv(s, pushed) && todo <= s.faceFrames.Keys
    ensures Inv(DrainFaces(c, s, todo), pushed)
    decreases |todo|
  {
    if todo != {} {
      var id := Least(todo);
      assert todo - {id} <= DrainFace(c, s, id).faceFrames.Keys by { DrainFaceEffect(c, s, id); }
      hide Inv, DrainFace;
      DrainFaceKeeps(c, s, id, pushed);
      DrainFacesKeeps(c, DrainFace(c, s, id), todo - {id}, pushed);
    }
  }

  /** Answering the cursor's recognition extends the identity tasks in order. */
  lemma RecognitionStepKeeps(c: Config, s: State, pushed: set<int>)
    requires Inv(s, pushed) && RecognitionBusy(c, s)
    ensures Inv(RecognitionStep(s), pushed)
  {
    hide TrackerInv, FaceInv;
    var id := s.nextRecognition;
    if id in s.recognitions {
      var a := s.recognitions[id];
      var x := Task(id, a.frame.value, a.tracks);
      TaskAppended(s.identityTasks, x);
      GrownTasksKeepWaiting(s.identities, s.identityTasks, x);
    }
  }

  lemma {:induction false} RecognitionLoopKeeps(c: Config, s: State, pushed: set<int>)
    requires Inv(s, pushed)
    ensures Inv(RecognitionLoop(c, s), pushed)
    decreases RecognitionMeasure(s)
  {
    hide Inv, RecognitionBusy, RecognitionStep, RecognitionMeasure;
    if RecognitionBusy(c, s) {
      RecognitionStepShrinks(c, s);
      RecognitionStepKeeps(c, s, pushed);
      RecognitionLoopKeeps(c, RecognitionStep(s), pushed);
    }
  }

  lemma DrainRecognitionKeeps(c: Config, s: State, pushed: set<int>)
    requires Inv(s, pushed)
    ensures Inv(DrainRecognition(c, s), pushed)
  {
    var s1 := SeedRecognition(s);
    RecognitionSeedKeeps(s, pushed);
    hide Inv, RecognitionLoop, DropBelow;
    RecognitionLoopKeeps(c, s1, pushed);
    DropRecognitionsKeeps(RecognitionLoop(c, s1), pushed);
  }

  lemma DropRecognitionsKeeps(s: State, pushed: set<int>)
    requires Inv(s, pushed)
    ensures Inv(s.(recognitions := DropBelow(s.recognitions, s.nextRecognition)), pushed)
  {
    hide TrackerInv, FaceInv, CommitInv;
  }

  lemma RecognitionSeedKeeps(s: State, pushed: set<int>)
    requires Inv(s, pushed)
    ensures s.nextRecognition < 0 && s.recognitions.Keys != {} ==>
      Inv(s.(nextRecognition := Least(s.recognitions.Keys)), pushed)
  {
    if s.nextRecognition < 0 && s.recognitions.Keys != {} {
      AnsweredIdsNatural(s.recognitions, s.recognitionTasks, s, pushed);
      hide TrackerInv, FaceInv, CommitInv;
    }
  }

  /** Waiting answers are about natural frame ids. */
  lemma AnsweredIdsNatural(answers: map<int, Answer>, tasks: seq<Task>, s: State, pushed: set<int>)
    requires Inv(s, pushed) && Waiting(answers, tasks) && TaskIds(tasks) <= TaskIds(s.recognitionTasks)
    ensures forall k :: k in answers ==> k >= 0
  {
    forall k | k in answers
      ensures k >= 0
    {
      CallIdsIndex(s.trackerCalls, k);
    }
  }

  lemma CommitStepKeeps(c: Config, s: State, pushed: set<int>)
    requires Inv(s, pushed) && CommitBusy(c, s)
    ensures Inv(CommitStep(s), pushed)
  {
    hide TrackerInv, FaceInv, RecognitionInv;
    var id := s.nextCommit;
    if id in s.identities {
      CommitExtends(s.identities, id, s.identityTasks, s.commits);
      hide CommitInv;
    }
  }

  lemma CommitExtends(answers: map<int, Answer>, id: int, tasks: seq<Task>, commits: seq<Commit>)
    requires CommitInv(answers, id, tasks, commits) && id in answers
    ensures answers[id].frame.Some?
    ensures CommitInv(answers - {id}, id + 1, tasks, commits + [Commit(answers[id].frame.value, answers[id].tracks)])
  {
  }

  lemma {:induction false} CommitLoopKeeps(c: Config, s: State, pushed: set<int>)
    requires Inv(s, pushed)
    ensures Inv(CommitLoop(c, s), pushed)
    decreases CommitMeasure(s)
  {
    hide Inv, CommitBusy, CommitStep, CommitMeasure;
    if CommitBusy(c, s) {
      CommitStepShrinks(c, s);
      CommitStepKeeps(c, s, pushed);
      CommitLoopKeeps(c, CommitStep(s), pushed);
    }
  }

  lemma DrainCommitKeeps(c: Config, s: State, pushed: set<int>)
    requires Inv(s, pushed)
    ensures Inv(DrainCommit(c, s), pushed)
  {
    CommitCursorSet(s, pushed);
    hide Inv, CommitLoop, DropBelow;
    CommitLoopKeeps(c, s, pushed);
    DropIdentitiesKeeps(CommitLoop(c, s), pushed);
  }

  lemma DropIdentitiesKeeps(s: State, pushed: set<int>)
    requires Inv(s, pushed)
    ensures Inv(s.(identities := DropBelow(s.identities, s.nextCommit)), pushed)
  {
    hide TrackerInv, FaceInv, RecognitionInv;
  }

  /** By the time an identity answer waits, tracking has set the commit cursor: the drain never seeds it. */
  lemma CommitCursorSet(s: State, pushed: set<int>)
    requires Inv(s, pushed)
    ensures s.identities.Keys != {} ==> s.nextCommit >= 0
  {
    if s.identities.Keys != {} {
      var k := Least(s.identities.Keys);
      assert k in TaskIds(s.identityTasks) && k in TaskIds(s.recognitionTasks) && k in CallIds(s.trackerCalls);
    }
  }

  // ---------------------------------------------------------------- trimming and probing keep it

  lemma {:induction false} TrimmedIsPart<T>(m: map<int, T>, limit: nat)
    ensures Trimmed(m, limit).Keys <= m.Keys
    ensures forall k :: k in Trimmed(m, limit) ==> Trimmed(m, limit)[k] == m[k]
    ensures |Trimmed(m, limit)| <= limit
    ensures |m| <= limit ==> Trimmed(m, limit) == m
    decreases |m|
  {
    if |m| > limit {
      assert m.Keys != {};
      RemovalShrinks(m, Least(m.Keys));
      TrimmedIsPart(m - {Least(m.Keys)}, limit);
    }
  }

  lemma TrimFaceStepKeeps(s: State, pushed: set<int>)
    requires Inv(s, pushed) && s.faceFrames.Keys != {}
    ensures Inv(TrimFaceStep(s), pushed)
  {
    hide TrackerInv, RecognitionInv;
  }

  lemma {:induction false} TrimFacesKeeps(s: State, limit: nat, pushed: set<int>)
    requires Inv(s, pushed)
    ensures Inv(TrimFaces(s, limit), pushed)
    decreases |s.faceFrames|
  {
    if |s.faceFrames| > limit {
      assert s.faceFrames.Keys != {};
      TrimFaceStepKeeps(s, pushed);
      hide Inv, TrimFaceStep;
      TrimFacesKeeps(TrimFaceStep(s), limit, pushed);
    }
  }

  lemma {:induction false} TrimFacesChanges(s: State, limit: nat)
    ensures var r := TrimFaces(s, limit); r == s.(nextCommit := r.nextCommit, faceFrames := r.faceFrames)
    decreases |s.faceFrames|
  {
    if |s.faceFrames| > limit {
      assert s.faceFrames.Keys != {};
      TrimFacesChanges(TrimFaceStep(s), limit);
    }
  }

  ghost predicate IsPart<T(!new)>(part: map<int, T>, whole: map<int, T>)
  {
    forall k :: k in part ==> k in whole && part[k] == whole[k]
  }

  lemma PartsKeep(s: State, frames: map<int, Frame>, detections: map<int, seq<Box>>, probes: map<int, set<ProbeId>>,
                  early: map<int, seq<FaceResult>>, pushed: set<int>)
    requires Inv(s, pushed) && IsPart(frames, s.frames) && IsPart(probes, s.queuedProbes)
    ensures Inv(s.(frames := frames, detections := detections, queuedProbes := probes, earlyFaces := early), pushed)
  {
    hide FaceInv, RecognitionInv, CommitInv;
  }

  lemma AnswerPartsKeep(s: State, recognitions: map<int, Answer>, identities: map<int, Answer>, pushed: set<int>)
    requires Inv(s, pushed) && IsPart(recognitions, s.recognitions) && IsPart(identities, s.identities)
    ensures Inv(s.(recognitions := recognitions, identities := identities), pushed)
  {
    hide TrackerInv, FaceInv;
  }

  lemma TrimKeeps(c: Config, s: State, pushed: set<int>)
    requires Inv(s, pushed)
    ensures Inv(Trim(c, s), pushed)
  {
    hide Inv, Trimmed, TrimFaces;
    var s1 := s.(frames := Trimmed(s.frames, c.limit),
                 detections := Trimmed(s.detections, c.limit),
                 queuedProbes := Trimmed(s.queuedProbes, c.limit),
                 earlyFaces := Trimmed(s.earlyFaces, c.limit));
    TrimmedIsPart(s.frames, c.limit);
    TrimmedIsPart(s.queuedProbes, c.limit);
    PartsKeep(s, s1.frames, s1.detections, s1.queuedProbes, s1.earlyFaces, pushed);
    TrimFacesKeeps(s1, c.limit, pushed);
    var s2 := TrimFaces(s1, c.limit);
    TrimmedIsPart(s2.recognitions, c.limit);
    TrimmedIsPart(s2.identities, c.limit);
    AnswerPartsKeep(s2, Trimmed(s2.recognitions, c.limit), Trimmed(s2.identities, c.limit), pushed);
  }

  lemma ProbeEarlyKeeps(s: State, id: int, pushed: set<int>)
    requires Inv(s, pushed) && id in s.frames
    ensures Inv(ProbeEarly(s, id), pushed)
  {
    hide TrackerInv, RecognitionInv, CommitInv;
  }

  lemma {:induction false} ProbeEarlyAllKeeps(s: State, todo: set<int>, pushed: set<int>)
    requires Inv(s, pushed) && todo <= s.frames.Keys
    ensures Inv(ProbeEarlyAll(s, todo), pushed)
    decreases |todo|
  {
    if todo != {} {
      var id := Least(todo);
      hide TrackerInv, FaceInv, RecognitionInv, CommitInv;
      assert ProbeEarly(s, id).frames == s.frames;
      ProbeEarlyKeeps(s, id, pushed);
      hide Inv, ProbeEarly;
      ProbeEarlyAllKeeps(ProbeEarly(s, id), todo - {id}, pushed);
    }
  }

  lemma DrainReadyKeeps(c: Config, s: State, pushed: set<int>)
    requires Inv(s, pushed)
    ensures Inv(DrainReady(c, s), pushed)
  {
    var s1 := DrainProbes(c, s);
    ProbeEarlyAllKeeps(s, s.frames.Keys, pushed);
    assert Inv(s1, pushed);
    hide Inv, DrainProbes, DrainTracking, DrainFaces, DrainRecognition, DrainCommit, Trim;
    DrainTrackingKeeps(c, s1, pushed);
    var s2 := DrainTracking(c, s1);
    DrainFacesKeeps(c, s2, s2.faceFrames.Keys, pushed);
    var s3 := DrainFaces(c, s2, s2.faceFrames.Keys);
    DrainRecognitionKeeps(c, s3, pushed);
    DrainCommitKeeps(c, DrainRecognition(c, s3), pushed);
    TrimKeeps(c, Drained(c, s), pushed);
  }

  // ---------------------------------------------------------------- over every run

  lemma AnswerIsOwn(a: Answer, tasks: seq<Task>)
    requires Answers(a, tasks) && OwnFrames(tasks)
    ensures a.frame.Some? && a.frame.value.id == a.frameId && a.frameId in TaskIds(tasks)
  {
    var i :| 0 <= i < |tasks| && a.frameId == tasks[i].frameId && a.frame == Some(tasks[i].frame);
    assert tasks[i] in tasks;
  }

  lemma PushFrameKeeps(s: State, frame: Frame, pushed: set<int>)
    requires Inv(s, pushed) && frame.id >= 0
    ensures Inv(PushFrame(s, frame), pushed + {frame.id})
  {
    hide FaceInv, RecognitionInv, CommitInv;
  }

  lemma PushFaceKeeps(c: Config, s: State, r: FaceResult, pushed: set<int>)
    requires Inv(s, pushed)
    ensures Inv(PushFace(c, s, r), pushed)
  {
    hide TrackerInv, RecognitionInv, CommitInv;
  }

  lemma PushRecognitionKeeps(s: State, a: Answer, pushed: set<int>)
    requires Inv(s, pushed) && Answers(a, s.recognitionTasks)
    ensures Inv(PushRecognition(s, a), pushed)
  {
    hide TrackerInv, CommitInv;
    AnswerIsOwn(a, s.recognitionTasks);
    hide FaceInv;
  }

  lemma PushIdentityKeeps(s: State, a: Answer, pushed: set<int>)
    requires Inv(s, pushed) && Answers(a, s.identityTasks)
    ensures Inv(PushIdentity(s, a), pushed)
  {
    hide TrackerInv, FaceInv;
    AnswerIsOwn(a, s.identityTasks);
    hide RecognitionInv;
  }

  lemma StepKeeps(c: Config, s: State, e: Event, pushed: set<int>)
    requires Inv(s, pushed) && Permitted(s, pushed, e)
    ensures Inv(Step(c, s, e), if e.FramePushed? then pushed + {e.frame.id} else pushed)
  {
    match e
    case FramePushed(frame) => hide Inv, PushFrame; PushFrameKeeps(s, frame, pushed);
    case DetectionPushed(id, boxes) => hide TrackerInv, FaceInv, RecognitionInv, CommitInv;
    case FacePushed(r) => hide Inv, PushFace; PushFaceKeeps(c, s, r, pushed);
    case RecognitionPushed(a) => hide Inv, PushRecognition; PushRecognitionKeeps(s, a, pushed);
    case IdentityPushed(a) => hide Inv, PushIdentity; PushIdentityKeeps(s, a, pushed);
    case DrainCalled => hide Inv, DrainReady; DrainReadyKeeps(c, s, pushed);
  }

  lemma PushedAfter(run: seq<Event>)
    requires run != []
    ensures var last := run[|run| - 1];
      PushedIds(run) == if last.FramePushed? then PushedIds(run[..|run| - 1]) + {last.frame.id} else PushedIds(run[..|run| - 1])
  {
    var last := run[|run| - 1];
    assert run == run[..|run| - 1] + [last];
    assert last in run;
  }

  lemma {:induction false} RunKeepsInv(c: Config, run: seq<Event>)
    requires Legal(c, run)
    ensures Inv(After(c, run), PushedIds(run))
  {
    if run != [] {
      var earlier, last := run[..|run| - 1], run[|run| - 1];
      RunKeepsInv(c, earlier);
      PushedAfter(run);
      hide Inv, PushedIds, Step;
      StepKeeps(c, After(c, earlier), last, PushedIds(earlier));
    }
  }

  /**
    Safety of every run: the tracker, the identity stage and the commits each see frame ids in
    strictly increasing order; a frame is tracked, recognition-queued, identity-queued and committed
    at most once; and a frame reaches a stage only after it went through the one before.
  */
  lemma EveryRunIsSafe(c: Config, run: seq<Event>)
    requires Legal(c, run)
    ensures var s := After(c, run);
      && AscendingCalls(s.trackerCalls)
      && DistinctTasks(s.recognitionTasks)
      && AscendingTasks(s.identityTasks)
      && AscendingCommits(s.commits)
      && (forall i :: 0 <= i < |s.commits| ==> s.commits[i].frame.id in TaskIds(s.identityTasks))
      && TaskIds(s.identityTasks) <= TaskIds(s.recognitionTasks) <= CallIds(s.trackerCalls) <= PushedIds(run)
  {
    RunKeepsInv(c, run);
    var s := After(c, run);
    hide After;
    forall k | k in CallIds(s.trackerCalls)
      ensures k in PushedIds(run)
    {
      CallIdsIndex(s.trackerCalls, k);
    }
  }
}
