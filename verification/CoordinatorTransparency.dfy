/**
  When no stage loses work, the coordinator is transparent: with face detection off or bound to
  person boxes, frames numbered without gaps, stages that answer everything in order, and no frame
  more than one window ahead of the commit cursor, the committed frames are exactly the pushed ones,
  in order, each tracked with its own detections. That no timeout or skip is ever taken is the
  subject of CoordinatorSmoothness.
*/
module CoordinatorTransparency {
  import opened Types
  import opened Coordinator
  import opened CoordinatorSafety
  import opened CoordinatorProbes
  import opened CoordinatorBounds

  /** How many frames were pushed, and how many tasks of each stage were answered. */
  datatype Counts = Counts(pushed: nat, faces: nat, recognised: nat, decided: nat)

  function Counted(n: Counts, e: Event): Counts
  {
    match e
    case FramePushed(_) => n.(pushed := n.pushed + 1)
    case FacePushed(_) => n.(faces := n.faces + 1)
    case RecognitionPushed(_) => n.(recognised := n.recognised + 1)
    case IdentityPushed(_) => n.(decided := n.decided + 1)
    case _ => n
  }

  function Count(run: seq<Event>): Counts
  {
    if run == [] then Counts(0, 0, 0, 0) else Counted(Count(run[..|run| - 1]), run[|run| - 1])
  }

  /** The commit cursor, or the first frame while it is unset. */
  function Base(first: int, s: State): int
  {
    if s.nextCommit < 0 then first else s.nextCommit
  }

  /** The n-th answer of a stage is about the n-th task. */
  ghost predicate AnswersNext(a: Answer, tasks: seq<Task>, n: nat)
  {
    n < |tasks| && a.frameId == tasks[n].frameId && a.frame == Some(tasks[n].frame)
  }

  /** A loss-free environment: frames first, first + 1, ... with images; a frame's detections are those of `detect`. */
  ghost predicate LossFree(c: Config, first: int, detect: int -> seq<Box>, s: State, n: Counts, e: Event)
  {
    match e
    case FramePushed(frame) => frame == Frame(first + n.pushed, false) && frame.id - Base(first, s) <= c.window
    case DetectionPushed(id, boxes) => first <= id && boxes == detect(id) && id - Base(first, s) <= c.window
    case FacePushed(r) => n.faces < |s.faceTasks| && r.frameId == s.faceTasks[n.faces].frameId && r.probe == s.faceTasks[n.faces].probe
    case RecognitionPushed(a) => AnswersNext(a, s.recognitionTasks, n.recognised)
    case IdentityPushed(a) => AnswersNext(a, s.identityTasks, n.decided)
    case DrainCalled => true
  }

  ghost predicate LossFreeRun(c: Config, first: int, detect: int -> seq<Box>, run: seq<Event>)
  {
    run != [] ==>
      var earlier := run[..|run| - 1];
      && LossFreeRun(c, first, detect, earlier)
      && LossFree(c, first, detect, After(c, earlier), Count(earlier), run[|run| - 1])
  }

  ghost predicate TransparentConfig(c: Config)
  {
    !c.EarlyProbes() && c.limit > c.window
  }

  // ---------------------------------------------------------------- the invariant

  function FrameAt(first: int, i: int): Frame { Frame(first + i, false) }

  /** The keys of the map are exactly lo..hi - 1. */
  ghost predicate Covers(keys: set<int>, lo: int, hi: int)
  {
    forall k :: k in keys <==> lo <= k < hi
  }

  /** The i-th task is about the i-th frame. */
  ghost predicate InStep(tasks: seq<Task>, first: int)
  {
    forall i :: 0 <= i < |tasks| ==> tasks[i].frameId == first + i && tasks[i].frame == FrameAt(first, i)
  }

  ghost predicate HeldAnswers(answers: map<int, Answer>, first: int, lo: int, hi: int)
  {
    && Covers(answers.Keys, first + lo, first + hi)
    && forall k :: k in answers ==> answers[k].frameId == k && answers[k].frame == Some(Frame(k, false))
  }

  /** The cursor stands at position i, or was not set yet and i is 0. */
  predicate AtOrUnset(next: int, first: int, i: int)
  {
    next == first + i || (next == -1 && i == 0)
  }

  ghost predicate TrackerPart(first: int, detect: int -> seq<Box>, pushed: nat, window: nat, s: State)
  {
    var tracked, done := |s.trackerCalls|, |s.commits|;
    && done <= tracked <= pushed
    && pushed - 1 - done <= window
    && AtOrUnset(s.nextTracker, first, tracked)
    && (forall i :: 0 <= i < tracked ==> s.trackerCalls[i] == TrackerCall(first + i, detect(first + i)))
    && Covers(s.frames.Keys, first + tracked, first + pushed)
    && (forall k :: k in s.frames ==> s.frames[k] == Frame(k, false))
    && (forall k :: k in s.detections ==> first + tracked <= k <= first + done + window && s.detections[k] == detect(k))
    && s.nextCommit == (if tracked == 0 then -1 else first + done)
  }

  /** Frames first + q .. wait for faces; those before the recognition count have been queued already. */
  ghost predicate FacePart(c: Config, first: int, answered: nat, s: State, q: nat)
  {
    var tracked, queued := |s.trackerCalls|, |s.recognitionTasks|;
    && q <= queued <= tracked
    && |s.commits| <= queued
    && Covers(s.faceFrames.Keys, first + q, first + tracked)
    && (forall k :: k in s.faceFrames ==>
          && s.faceFrames[k].frame == Frame(k, false)
          && (s.faceFrames[k].queued <==> k < first + queued)
          && (!s.faceFrames[k].queued ==> s.faceFrames[k].probes == if k < first + answered then {} else {FullProbe(k)}))
    && s.latestFace < first + tracked
    && s.latestRecognition < first + queued
    && InStep(s.recognitionTasks, first)
    && s.queuedProbes == map[]
    && s.earlyFaces == map[]
    && (if c.faceEnabled then
          && |s.faceTasks| == tracked
          && queued <= answered <= tracked
          && forall i :: 0 <= i < tracked ==> s.faceTasks[i] == FaceTask(first + i, FullProbe(first + i))
        else s.faceTasks == [] && answered == 0 && queued == tracked)
  }

  ghost predicate AnswerPart(first: int, recognised: nat, decided: nat, s: State)
  {
    var asked, done := |s.identityTasks|, |s.commits|;
    && done <= decided <= asked <= recognised <= |s.recognitionTasks|
    && AtOrUnset(s.nextRecognition, first, asked)
    && HeldAnswers(s.recognitions, first, asked, recognised)
    && InStep(s.identityTasks, first)
    && s.latestIdentity < first + asked
    && HeldAnswers(s.identities, first, done, decided)
    && (forall i :: 0 <= i < done ==> s.commits[i].frame == FrameAt(first, i))
  }

  ghost predicate InPipeline(c: Config, first: int, detect: int -> seq<Box>, n: Counts, s: State, q: nat)
  {
    && TrackerPart(first, detect, n.pushed, c.window, s)
    && FacePart(c, first, n.faces, s, q)
    && AnswerPart(first, n.recognised, n.decided, s)
  }

  // ---------------------------------------------------------------- tracking

  /** With faces off or bound to persons: the frame is queued at once, or waits for its one probe. */
  lemma ProcessInOrder(c: Config, s: State, frame: Frame, boxes: seq<Box>)
    requires !c.EarlyProbes() && s.queuedProbes == map[] && s.earlyFaces == map[] && !frame.infEmpty
    ensures var r := ProcessFrame(c, s, frame, boxes);
      && Processed(s, r, frame, boxes)
      && r.queuedProbes == map[] && r.earlyFaces == map[]
      && (if c.faceEnabled then
            && !r.faceFrames[frame.id].queued
            && r.faceFrames[frame.id].probes == {FullProbe(frame.id)}
            && r.faceTasks == s.faceTasks + [FaceTask(frame.id, FullProbe(frame.id))]
            && r.latestFace == Later(s.latestFace, frame.id)
          else r.faceFrames[frame.id].queued && r.faceTasks == s.faceTasks && r.latestFace == s.latestFace)
  {
    ProcessEffect(c, s, frame, boxes);
    var (s1, pending, tasks) := Tracked(c, s, frame, boxes);
    assert s1.earlyFaces - {frame.id} == map[];
    var s2 := s1.(earlyFaces := map[]);
    assert ReceivedEarly(pending, []) == pending;
    assert ProcessFrame(c, s, frame, boxes) == StartFaces(c, s2, pending, tasks);
    hide Processed, ReceivedEarly, FacePolicy.Reset, FacePolicy.Applied;
    if c.faceEnabled {
      assert tasks == [FaceTask(frame.id, FullProbe(frame.id))];
      assert ProbeIds(tasks) == {FullProbe(frame.id)};
    }
  }

  lemma CursorHasFrame(c: Config, first: int, detect: int -> seq<Box>, n: Counts, s: State, q: nat)
    requires InPipeline(c, first, detect, n, s, q) && TrackBusy(c, s)
    ensures s.nextTracker == first + |s.trackerCalls| && s.nextTracker in s.frames && s.nextTracker in s.detections
  {
    if s.frames.Keys != {} {
      assert LatestSeen(s) - s.nextTracker <= c.window;
      assert Least(s.frames.Keys) <= s.nextTracker;
    }
  }

  lemma TrackStepInOrder(c: Config, first: int, detect: int -> seq<Box>, n: Counts, s: State, q: nat)
    requires !c.EarlyProbes() && first >= 0
    requires InPipeline(c, first, detect, n, s, q) && TrackBusy(c, s)
    ensures InPipeline(c, first, detect, n, TrackStep(c, s), q)
    ensures TrackStep(c, s).detections == s.detections - {s.nextTracker}
  {
    CursorHasFrame(c, first, detect, n, s, q);
    var id := s.nextTracker;
    var frame := s.frames[id];
    var p := ProcessFrame(c, s, frame, s.detections[id]);
    ProcessInOrder(c, s, frame, s.detections[id]);
    var r := TrackStep(c, s);
    assert r == p.(frames := p.frames - {id}, detections := p.detections - {id}, nextTracker := id + 1);
    hide ProcessFrame, TrackBusy;
    TrackerPartAdvances(first, detect, n.pushed, c.window, s, r);
    FacePartAdvances(c, first, n.faces, s, r, q);
    hide FacePart, TrackerPart;
  }

  lemma TrackerPartAdvances(first: int, detect: int -> seq<Box>, pushed: nat, window: nat, s: State, r: State)
    requires first >= 0 && TrackerPart(first, detect, pushed, window, s)
    requires s.nextTracker == first + |s.trackerCalls| && s.nextTracker in s.frames && s.nextTracker in s.detections
    requires r.frames == s.frames - {s.nextTracker} && r.detections == s.detections - {s.nextTracker} && r.nextTracker == s.nextTracker + 1
    requires r.trackerCalls == s.trackerCalls + [TrackerCall(s.nextTracker, s.detections[s.nextTracker])]
    requires r.nextCommit == (if s.nextCommit < 0 then s.nextTracker else s.nextCommit)
    requires r.commits == s.commits
    ensures TrackerPart(first, detect, pushed, window, r)
  {
  }

  lemma FacePartAdvances(c: Config, first: int, answered: nat, s: State, r: State, q: nat)
    requires first >= 0 && FacePart(c, first, answered, s, q)
    requires r.queuedProbes == map[] && r.earlyFaces == map[] && r.commits == s.commits
    requires |r.trackerCalls| == |s.trackerCalls| + 1
    requires var id := first + |s.trackerCalls|;
      && id in r.faceFrames
      && r.faceFrames == s.faceFrames[id := r.faceFrames[id]]
      && r.faceFrames[id].frame == Frame(id, false)
      && Handed(s, r, Frame(id, false))
      && (if c.faceEnabled then
            && !r.faceFrames[id].queued
            && r.faceFrames[id].probes == {FullProbe(id)}
            && r.faceTasks == s.faceTasks + [FaceTask(id, FullProbe(id))]
            && r.latestFace == Later(s.latestFace, id)
          else r.faceFrames[id].queued && r.faceTasks == s.faceTasks && r.latestFace == s.latestFace)
    ensures FacePart(c, first, answered, r, q)
  {
  }

  lemma {:induction false} TrackLoopGrows(c: Config, s: State)
    ensures |TrackLoop(c, s).trackerCalls| >= |s.trackerCalls|
    decreases |s.frames|, Gap(s)
  {
    if TrackBusy(c, s) {
      TrackStepShrinks(c, s);
      assert |TrackStep(c, s).trackerCalls| >= |s.trackerCalls| by {
        if s.nextTracker in s.frames {
          ProcessEffect(c, s, s.frames[s.nextTracker], if s.nextTracker in s.detections then s.detections[s.nextTracker] else []);
          hide ProcessFrame;
        }
      }
      hide TrackBusy, TrackStep, Gap;
      TrackLoopGrows(c, TrackStep(c, s));
    }
  }

  lemma {:induction false} TrackLoopInOrder(c: Config, first: int, detect: int -> seq<Box>, n: Counts, s: State, q: nat)
    requires !c.EarlyProbes() && first >= 0
    requires InPipeline(c, first, detect, n, s, q)
    ensures var r := TrackLoop(c, s);
      && InPipeline(c, first, detect, n, r, q)
      && (forall k :: k in s.detections && k >= first + |r.trackerCalls| ==> k in r.detections)
    decreases |s.frames|, Gap(s)
  {
    hide InPipeline, TrackBusy, TrackStep, Gap;
    if TrackBusy(c, s) {
      TrackStepShrinks(c, s);
      TrackStepInOrder(c, first, detect, n, s, q);
      TrackStepPasses(c, first, detect, n, s, q);
      var next := TrackStep(c, s);
      TrackLoopInOrder(c, first, detect, n, next, q);
      TrackLoopGrows(c, next);
    }
  }

  lemma TrackStepPasses(c: Config, first: int, detect: int -> seq<Box>, n: Counts, s: State, q: nat)
    requires InPipeline(c, first, detect, n, s, q) && TrackBusy(c, s)
    ensures s.nextTracker < first + |TrackStep(c, s).trackerCalls|
  {
    CursorHasFrame(c, first, detect, n, s, q);
    ProcessEffect(c, s, s.frames[s.nextTracker], s.detections[s.nextTracker]);
    hide InPipeline, ProcessFrame, TrackBusy;
  }

  lemma CoversLeast(keys: set<int>, lo: int, hi: int)
    requires Covers(keys, lo, hi)
    ensures keys == {} <==> lo >= hi
    ensures keys != {} ==> lo in keys && Least(keys) == lo
  {
    if lo < hi {
      assert lo in keys;
    } else {
      if forall x :: x !in keys {
        NoElements(keys);
      }
    }
  }

  lemma SeededLoopInOrder(c: Config, first: int, detect: int -> seq<Box>, n: Counts, s: State, q: nat)
    requires !c.EarlyProbes() && first >= 0
    requires InPipeline(c, first, detect, n, s, q)
    ensures var r := TrackLoop(c, SeedTracker(s));
      && InPipeline(c, first, detect, n, r, q)
      && !TrackBusy(c, r)
      && |r.trackerCalls| >= |s.trackerCalls|
      && (forall k :: k in r.frames ==> r.nextTracker >= 0)
      && (forall k :: k in s.detections && k >= first + |r.trackerCalls| ==> k in r.detections)
  {
    hide InPipeline, SeedTracker, TrackBusy, TrackLoop;
    var s1 := SeedTracker(s);
    SeedInOrder(c, first, detect, n, s, q);
    SeedKeepsInputs(s);
    TrackLoopInOrder(c, first, detect, n, s1, q);
    TrackLoopStops(c, s1);
    TrackLoopShrinks(c, s1);
    TrackLoopGrows(c, s1);
  }

  lemma SeedKeepsInputs(s: State)
    ensures var r := SeedTracker(s);
      r.frames == s.frames && r.detections == s.detections && r.trackerCalls == s.trackerCalls
  {
  }

  lemma TrackingInOrder(c: Config, first: int, detect: int -> seq<Box>, n: Counts, s: State)
    requires !c.EarlyProbes() && first >= 0
    requires InPipeline(c, first, detect, n, s, |s.recognitionTasks|)
    ensures var r := DrainTracking(c, s);
      && InPipeline(c, first, detect, n, r, |s.recognitionTasks|)
      && |r.trackerCalls| >= |s.trackerCalls|
      && (forall k :: k in r.frames ==> first + |r.trackerCalls| !in s.detections)
      && (forall k :: k in s.detections && k >= first + |r.trackerCalls| ==> k in r.detections)
  {
    hide InPipeline, SeedTracker, TrackBusy, TrackLoop;
    SeededLoopInOrder(c, first, detect, n, s, |s.recognitionTasks|);
    var r := TrackLoop(c, SeedTracker(s));
    StoppedInOrder(c, first, detect, n, r, |s.recognitionTasks|);
    assert r.(detections := r.detections) == r;
  }

  /** The tracking loop stops only for want of a frame or of its detections, and leaves nothing to drop. */
  lemma StoppedInOrder(c: Config, first: int, detect: int -> seq<Box>, n: Counts, s: State, q: nat)
    requires InPipeline(c, first, detect, n, s, q) && !TrackBusy(c, s) && first >= 0
    ensures DropBelow(s.detections, s.nextTracker) == s.detections
    ensures forall k :: k in s.frames && s.nextTracker >= 0 ==>
      first + |s.trackerCalls| in s.frames && first + |s.trackerCalls| !in s.detections
  {
    hide FacePart, AnswerPart;
    CoversLeast(s.frames.Keys, first + |s.trackerCalls|, first + n.pushed);
  }

  lemma SeedInOrder(c: Config, first: int, detect: int -> seq<Box>, n: Counts, s: State, q: nat)
    requires first >= 0 && InPipeline(c, first, detect, n, s, q)
    ensures InPipeline(c, first, detect, n, SeedTracker(s), q)
    ensures forall k :: k in s.frames ==> SeedTracker(s).nextTracker >= 0
  {
    CoversLeast(s.frames.Keys, first + |s.trackerCalls|, first + n.pushed);
    hide FacePart, AnswerPart;
  }

  // ---------------------------------------------------------------- faces

  /** The oldest frame waiting for faces leaves if its probe was answered, and cannot have timed out. */
  lemma DrainFaceInOrder(c: Config, first: int, detect: int -> seq<Box>, n: Counts, s: State, q: nat)
    requires first >= 0 && InPipeline(c, first, detect, n, s, q) && q < |s.trackerCalls|
    requires q < |s.recognitionTasks| || (c.faceEnabled && q < n.faces)
    ensures var r := DrainFace(c, s, first + q);
      && InPipeline(c, first, detect, n, r, q + 1)
      && r.trackerCalls == s.trackerCalls
      && r.frames == s.frames
      && |r.recognitionTasks| == (if q < |s.recognitionTasks| then |s.recognitionTasks| else q + 1)
  {
    var id := first + q;
    assert id in s.faceFrames;
    DrainFaceEffect(c, s, id);
    var r := DrainFace(c, s, id);
    hide DrainFace;
    FacePartAfterDrain(c, first, n.faces, s, r, q);
    hide FacePart;
  }

  lemma FacePartAfterDrain(c: Config, first: int, answered: nat, s: State, r: State, q: nat)
    requires first >= 0 && FacePart(c, first, answered, s, q) && q < |s.trackerCalls|
    requires q < |s.recognitionTasks| || (c.faceEnabled && q < answered)
    requires FaceDrained(s, r, first + q)
    requires r.recognitionTasks == s.recognitionTasks ==>
      s.faceFrames[first + q].queued || s.faceFrames[first + q].probes != {}
    ensures FacePart(c, first, answered, r, q + 1)
    ensures |r.recognitionTasks| == (if q < |s.recognitionTasks| then |s.recognitionTasks| else q + 1)
  {
  }

  /** A frame whose probe is outstanding stays. */
  lemma UnansweredStays(c: Config, first: int, detect: int -> seq<Box>, n: Counts, s: State, q: nat, k: int)
    requires first >= 0 && InPipeline(c, first, detect, n, s, q)
    requires q >= |s.recognitionTasks| && q >= n.faces && k in s.faceFrames
    ensures DrainFace(c, s, k) == s
  {
    assert s.faceFrames[k].probes == {FullProbe(k)} && FullProbe(k) in s.faceFrames[k].probes;
    assert !FaceTimedOut(c, s, k);
    hide FacePolicy.Applied;
  }

  lemma {:induction false} UnansweredAllStay(c: Config, first: int, detect: int -> seq<Box>, n: Counts, s: State, q: nat, todo: set<int>)
    requires first >= 0 && InPipeline(c, first, detect, n, s, q)
    requires q >= |s.recognitionTasks| && q >= n.faces && todo <= s.faceFrames.Keys
    ensures DrainFaces(c, s, todo) == s
    decreases |todo|
  {
    if todo != {} {
      UnansweredStays(c, first, detect, n, s, q, Least(todo));
      hide InPipeline, DrainFace;
      UnansweredAllStay(c, first, detect, n, s, q, todo - {Least(todo)});
    }
  }

  lemma QueueBounds(c: Config, first: int, detect: int -> seq<Box>, n: Counts, s: State, q: nat)
    requires first >= 0 && InPipeline(c, first, detect, n, s, q)
    ensures q <= |s.recognitionTasks| <= |s.trackerCalls|
    ensures c.faceEnabled ==> |s.recognitionTasks| <= n.faces <= |s.trackerCalls|
    ensures !c.faceEnabled ==> n.faces == 0
    ensures Covers(s.faceFrames.Keys, first + q, first + |s.trackerCalls|)
    ensures q < |s.trackerCalls| ==> s.faceFrames.Keys != {} && Least(s.faceFrames.Keys) == first + q
  {
    CoversLeast(s.faceFrames.Keys, first + q, first + |s.trackerCalls|);
  }

  lemma CoversTail(keys: set<int>, rest: set<int>, lo: int, hi: int)
    requires Covers(keys, lo, hi) && Covers(rest, lo + 1, hi) && lo < hi
    ensures rest == keys - {lo}
  {
    assert forall k :: k in rest <==> k in keys - {lo};
  }

  lemma PassContinues(c: Config, s: State, id: int)
    requires s.faceFrames.Keys != {} && Least(s.faceFrames.Keys) == id
    requires DrainFace(c, s, id).faceFrames.Keys == s.faceFrames.Keys - {id}
    ensures DrainFaces(c, s, s.faceFrames.Keys) == DrainFaces(c, DrainFace(c, s, id), DrainFace(c, s, id).faceFrames.Keys)
  {
    hide DrainFace;
  }

  /** The oldest waiting frame moves on, and the rest of the pass is the pass over what remains. */
  lemma OldestMovesOn(c: Config, first: int, detect: int -> seq<Box>, n: Counts, s: State, q: nat)
    requires first >= 0 && InPipeline(c, first, detect, n, s, q)
    requires q < |s.recognitionTasks| || (c.faceEnabled && q < n.faces)
    ensures first + q in s.faceFrames
    ensures var r := DrainFace(c, s, first + q);
      && InPipeline(c, first, detect, n, r, q + 1)
      && r.trackerCalls == s.trackerCalls
      && r.frames == s.frames
      && DrainFaces(c, s, s.faceFrames.Keys) == DrainFaces(c, r, r.faceFrames.Keys)
      && q < |s.trackerCalls|
  {
    hide InPipeline, DrainFace, DrainFaces, Covers;
    QueueBounds(c, first, detect, n, s, q);
    DrainFaceInOrder(c, first, detect, n, s, q);
    var r := DrainFace(c, s, first + q);
    QueueBounds(c, first, detect, n, r, q + 1);
    CoversTail(s.faceFrames.Keys, r.faceFrames.Keys, first + q, first + |s.trackerCalls|);
    PassContinues(c, s, first + q);
  }

  lemma {:induction false} DrainFacesInOrder(c: Config, first: int, detect: int -> seq<Box>, n: Counts, s: State, q: nat)
    requires first >= 0 && InPipeline(c, first, detect, n, s, q)
    ensures var r := DrainFaces(c, s, s.faceFrames.Keys);
      && InPipeline(c, first, detect, n, r, |r.recognitionTasks|)
      && r.trackerCalls == s.trackerCalls
      && r.frames == s.frames
      && (c.faceEnabled ==> |r.recognitionTasks| == n.faces)
    decreases |s.trackerCalls| - q
  {
    hide InPipeline, DrainFace, DrainFaces, Covers;
    QueueBounds(c, first, detect, n, s, q);
    if q < |s.recognitionTasks| || (c.faceEnabled && q < n.faces) {
      OldestMovesOn(c, first, detect, n, s, q);
      DrainFacesInOrder(c, first, detect, n, DrainFace(c, s, first + q), q + 1);
    } else {
      UnansweredAllStay(c, first, detect, n, s, q, s.faceFrames.Keys);
    }
  }

  // ---------------------------------------------------------------- recognition, identity, commit

  lemma RecognitionStepInOrder(c: Config, first: int, detect: int -> seq<Box>, n: Counts, s: State, q: nat)
    requires first >= 0 && InPipeline(c, first, detect, n, s, q) && RecognitionBusy(c, s)
    ensures InPipeline(c, first, detect, n, RecognitionStep(s), q)
    ensures s.nextRecognition in s.recognitions
  {
    assert s.nextRecognition == first + |s.identityTasks|;
    assert s.latestRecognition - s.nextRecognition <= c.window;
    hide TrackBusy;
  }

  lemma {:induction false} RecognitionLoopInOrder(c: Config, first: int, detect: int -> seq<Box>, n: Counts, s: State, q: nat)
    requires first >= 0 && InPipeline(c, first, detect, n, s, q)
    ensures var r := RecognitionLoop(c, s);
      && InPipeline(c, first, detect, n, r, q)
      && r.trackerCalls == s.trackerCalls
      && r.recognitionTasks == s.recognitionTasks
      && r.frames == s.frames
    decreases RecognitionMeasure(s)
  {
    hide InPipeline, RecognitionBusy, RecognitionStep, RecognitionMeasure;
    if RecognitionBusy(c, s) {
      RecognitionStepShrinks(c, s);
      RecognitionStepInOrder(c, first, detect, n, s, q);
      RecognitionStepSources(c, s);
      RecognitionLoopInOrder(c, first, detect, n, RecognitionStep(s), q);
    }
  }

  lemma RecognitionStepSources(c: Config, s: State)
    requires RecognitionBusy(c, s)
    ensures SameSources(s, RecognitionStep(s))
  {
    if s.nextRecognition in s.recognitions {
      if s.recognitions[s.nextRecognition].frame == None {
      } else {
      }
    } else {
    }
  }

  predicate SameSources(s: State, r: State)
  {
    r.trackerCalls == s.trackerCalls && r.recognitionTasks == s.recognitionTasks && r.frames == s.frames
  }

  lemma RecognitionSeedInOrder(c: Config, first: int, detect: int -> seq<Box>, n: Counts, s: State, q: nat)
    requires first >= 0 && InPipeline(c, first, detect, n, s, q)
    ensures InPipeline(c, first, detect, n, SeedRecognition(s), q)
    ensures SeedRecognition(s).nextRecognition < 0 ==> n.recognised == 0
    ensures SameSources(s, SeedRecognition(s))
  {
    CoversLeast(s.recognitions.Keys, first + |s.identityTasks|, first + n.recognised);
    if s.nextRecognition < 0 && s.recognitions.Keys != {} {
      var r := s.(nextRecognition := Least(s.recognitions.Keys));
      assert TrackerPart(first, detect, n.pushed, c.window, r) by {
        hide FacePart, AnswerPart;
      }
      assert FacePart(c, first, n.faces, r, q) by {
        hide TrackerPart, AnswerPart;
      }
      assert AnswerPart(first, n.recognised, n.decided, r) by {
        hide TrackerPart, FacePart;
      }
    } else {
    }
  }

  lemma RecognitionInOrder(c: Config, first: int, detect: int -> seq<Box>, n: Counts, s: State, q: nat)
    requires first >= 0 && InPipeline(c, first, detect, n, s, q)
    ensures var r := DrainRecognition(c, s);
      && InPipeline(c, first, detect, n, r, q)
      && |r.identityTasks| == n.recognised
      && r.trackerCalls == s.trackerCalls
      && r.recognitionTasks == s.recognitionTasks
      && r.frames == s.frames
  {
    hide InPipeline, SeedRecognition, RecognitionLoop, RecognitionBusy;
    var s1 := SeedRecognition(s);
    RecognitionSeedInOrder(c, first, detect, n, s, q);
    RecognitionLoopInOrder(c, first, detect, n, s1, q);
    RecognitionLoopStops(c, s1);
    var r := RecognitionLoop(c, s1);
    RecognitionsPassed(c, first, detect, n, r, q);
  }

  lemma RecognitionsPassed(c: Config, first: int, detect: int -> seq<Box>, n: Counts, s: State, q: nat)
    requires first >= 0 && InPipeline(c, first, detect, n, s, q) && !RecognitionBusy(c, s)
    requires s.nextRecognition < 0 ==> n.recognised == 0
    ensures |s.identityTasks| == n.recognised
    ensures DropBelow(s.recognitions, s.nextRecognition) == s.recognitions
  {
    hide TrackerPart, FacePart;
    CoversLeast(s.recognitions.Keys, first + |s.identityTasks|, first + n.recognised);
  }

  lemma CommitStepInOrder(c: Config, first: int, detect: int -> seq<Box>, n: Counts, s: State, q: nat)
    requires first >= 0 && InPipeline(c, first, detect, n, s, q) && CommitBusy(c, s)
    ensures InPipeline(c, first, detect, n, CommitStep(s), q)
    ensures s.nextCommit in s.identities
  {
    hide InPipeline, CommitStep, CommitBusy;
    CommitStepIs(c, first, detect, n, s, q);
    CommittedInOrder(c, first, detect, n, s, q, s.identities[s.nextCommit].tracks);
  }

  /** The state with the next frame committed. */
  function Committed(s: State, frame: Frame, tracks: seq<Box>): State
  {
    s.(commits := s.commits + [Commit(frame, tracks)], identities := s.identities - {s.nextCommit}, nextCommit := s.nextCommit + 1)
  }

  lemma CommitStepIs(c: Config, first: int, detect: int -> seq<Box>, n: Counts, s: State, q: nat)
    requires first >= 0 && InPipeline(c, first, detect, n, s, q) && CommitBusy(c, s)
    ensures s.nextCommit in s.identities && s.nextCommit == first + |s.commits|
    ensures CommitStep(s) == Committed(s, FrameAt(first, |s.commits|), s.identities[s.nextCommit].tracks)
  {
    assert |s.identityTasks| <= |s.trackerCalls|;
    hide FacePart;
    assert s.nextCommit == first + |s.commits|;
    assert s.latestIdentity - s.nextCommit <= c.window;
    assert s.identities[s.nextCommit].frame == Some(FrameAt(first, |s.commits|));
  }

  lemma CommittedInOrder(c: Config, first: int, detect: int -> seq<Box>, n: Counts, s: State, q: nat, tracks: seq<Box>)
    requires first >= 0 && InPipeline(c, first, detect, n, s, q)
    requires s.nextCommit in s.identities && s.nextCommit == first + |s.commits|
    ensures InPipeline(c, first, detect, n, Committed(s, FrameAt(first, |s.commits|), tracks), q)
  {
    var r := Committed(s, FrameAt(first, |s.commits|), tracks);
    assert |s.commits| < n.decided <= |s.identityTasks| <= n.recognised <= |s.recognitionTasks| <= |s.trackerCalls|;
    assert TrackerPart(first, detect, n.pushed, c.window, r) by {
      hide FacePart, AnswerPart;
    }
    assert FacePart(c, first, n.faces, r, q) by {
      hide TrackerPart, AnswerPart;
    }
    assert AnswerPart(first, n.recognised, n.decided, r) by {
      hide TrackerPart, FacePart;
    }
  }

  lemma {:induction false} CommitLoopInOrder(c: Config, first: int, detect: int -> seq<Box>, n: Counts, s: State, q: nat)
    requires first >= 0 && InPipeline(c, first, detect, n, s, q)
    ensures var r := CommitLoop(c, s);
      && InPipeline(c, first, detect, n, r, q)
      && r.trackerCalls == s.trackerCalls
      && r.recognitionTasks == s.recognitionTasks
      && r.identityTasks == s.identityTasks
      && r.frames == s.frames
    decreases CommitMeasure(s)
  {
    hide InPipeline, CommitBusy, CommitMeasure, CommitStep;
    if CommitBusy(c, s) {
      CommitStepShrinks(c, s);
      CommitStepInOrder(c, first, detect, n, s, q);
      CommitStepKeepsStages(c, s);
      CommitLoopInOrder(c, first, detect, n, CommitStep(s), q);
    }
  }

  lemma CommitStepKeepsStages(c: Config, s: State)
    requires CommitBusy(c, s)
    ensures var r := CommitStep(s);
      && r.trackerCalls == s.trackerCalls
      && r.recognitionTasks == s.recognitionTasks
      && r.identityTasks == s.identityTasks
      && r.frames == s.frames
  {
    if s.nextCommit in s.identities {
      if s.identities[s.nextCommit].frame == None {
      } else {
      }
    } else {
    }
  }

  lemma CommitInOrder(c: Config, first: int, detect: int -> seq<Box>, n: Counts, s: State, q: nat)
    requires first >= 0 && InPipeline(c, first, detect, n, s, q)
    ensures var r := DrainCommit(c, s);
      && InPipeline(c, first, detect, n, r, q)
      && |r.commits| == n.decided
      && r.trackerCalls == s.trackerCalls
      && r.recognitionTasks == s.recognitionTasks
      && r.identityTasks == s.identityTasks
      && r.frames == s.frames
  {
    CoversLeast(s.identities.Keys, first + |s.commits|, first + n.decided);
    assert s.nextCommit < 0 ==> s.identities.Keys == {};
    hide InPipeline;
    CommitLoopInOrder(c, first, detect, n, s, q);
    CommitLoopStops(c, s);
    var r := CommitLoop(c, s);
    hide CommitLoop;
    IdentitiesPassed(c, first, detect, n, r, q);
  }

  lemma IdentitiesPassed(c: Config, first: int, detect: int -> seq<Box>, n: Counts, s: State, q: nat)
    requires first >= 0 && InPipeline(c, first, detect, n, s, q) && !CommitBusy(c, s)
    ensures |s.commits| == n.decided
    ensures DropBelow(s.identities, s.nextCommit) == s.identities
  {
    CoversLeast(s.identities.Keys, first + |s.commits|, first + n.decided);
  }

  // ---------------------------------------------------------------- a whole drain

  /** Nothing pending is ever trimmed. */
  lemma NothingToTrim(c: Config, first: int, detect: int -> seq<Box>, n: Counts, s: State)
    requires TransparentConfig(c) && first >= 0
    requires InPipeline(c, first, detect, n, s, |s.recognitionTasks|)
    requires |s.identityTasks| == n.recognised && |s.commits| == n.decided
    ensures Trim(c, s) == s
  {
    var tracked, queued := |s.trackerCalls|, |s.recognitionTasks|;
    WithinSize(s.frames.Keys, first + tracked, c.window);
    WithinSize(s.detections.Keys, first + tracked, c.window);
    WithinSize(s.faceFrames.Keys, first + queued, c.window);
    CoversLeast(s.recognitions.Keys, first + n.recognised, first + n.recognised);
    CoversLeast(s.identities.Keys, first + n.decided, first + n.decided);
    hide InPipeline;
    assert |s.frames| <= c.limit && |s.detections| <= c.limit && |s.faceFrames| <= c.limit;
    assert |s.recognitions| <= c.limit && |s.identities| <= c.limit;
    TrimmedIsPart(s.frames, c.limit);
    TrimmedIsPart(s.detections, c.limit);
    TrimmedIsPart(s.recognitions, c.limit);
    TrimmedIsPart(s.identities, c.limit);
  }

  /** Everything the stages have answered is passed on by a drain, and only frames without detections stay. */
  ghost predicate PassedOn(c: Config, first: int, n: Counts, s: State, r: State)
  {
    && |r.commits| == n.decided
    && |r.identityTasks| == n.recognised
    && |r.recognitionTasks| == (if c.faceEnabled then n.faces else |r.trackerCalls|)
    && |r.trackerCalls| >= |s.trackerCalls|
    && (|r.trackerCalls| < n.pushed ==> first + |r.trackerCalls| !in s.detections)
    && (forall k :: k in s.detections && k >= first + |r.trackerCalls| ==> k in r.detections)
  }

  lemma StagesInOrder(c: Config, first: int, detect: int -> seq<Box>, n: Counts, s: State, q: nat)
    requires first >= 0 && InPipeline(c, first, detect, n, s, q)
    ensures var s2 := DrainFaces(c, s, s.faceFrames.Keys);
      var r := DrainCommit(c, DrainRecognition(c, s2));
      && InPipeline(c, first, detect, n, r, |r.recognitionTasks|)
      && r.trackerCalls == s.trackerCalls
      && r.detections == s.detections
      && |r.identityTasks| == n.recognised
      && |r.commits| == n.decided
      && (c.faceEnabled ==> |r.recognitionTasks| == n.faces)
  {
    hide InPipeline, DrainFaces, DrainRecognition, DrainCommit;
    var s2 := DrainFaces(c, s, s.faceFrames.Keys);
    DrainFacesInOrder(c, first, detect, n, s, q);
    DrainFacesSameDetections(c, s, s.faceFrames.Keys);
    var s3 := DrainRecognition(c, s2);
    RecognitionInOrder(c, first, detect, n, s2, |s2.recognitionTasks|);
    CommitInOrder(c, first, detect, n, s3, |s2.recognitionTasks|);
    AnswersSameDetections(c, s2);
    AnswersSameDetections(c, s3);
  }

  lemma DrainInOrder(c: Config, first: int, detect: int -> seq<Box>, n: Counts, s: State)
    requires TransparentConfig(c) && first >= 0
    requires InPipeline(c, first, detect, n, s, |s.recognitionTasks|)
    ensures var r := DrainReady(c, s);
      && InPipeline(c, first, detect, n, r, |r.recognitionTasks|)
      && PassedOn(c, first, n, s, r)
  {
    hide InPipeline, DrainTracking, DrainFaces, DrainRecognition, DrainCommit, Trim;
    assert DrainProbes(c, s) == s;
    var s1 := DrainTracking(c, s);
    TrackingInOrder(c, first, detect, n, s);
    FramesLeft(c, first, detect, n, s1, |s.recognitionTasks|);
    StagesInOrder(c, first, detect, n, s1, |s.recognitionTasks|);
    var r := Drained(c, s);
    NothingToTrim(c, first, detect, n, r);
    FacesOffQueueAll(c, first, detect, n, r, |r.recognitionTasks|);
  }

  lemma FramesLeft(c: Config, first: int, detect: int -> seq<Box>, n: Counts, s: State, q: nat)
    requires InPipeline(c, first, detect, n, s, q)
    ensures |s.trackerCalls| < n.pushed ==> first + |s.trackerCalls| in s.frames
  {
  }

  lemma FacesOffQueueAll(c: Config, first: int, detect: int -> seq<Box>, n: Counts, s: State, q: nat)
    requires InPipeline(c, first, detect, n, s, q)
    ensures !c.faceEnabled ==> |s.recognitionTasks| == |s.trackerCalls|
  {
  }

  lemma {:induction false} DrainFacesSameDetections(c: Config, s: State, todo: set<int>)
    requires todo <= s.faceFrames.Keys
    ensures DrainFaces(c, s, todo).detections == s.detections
    decreases |todo|
  {
    if todo != {} {
      DrainFaceEffect(c, s, Least(todo));
      hide DrainFace;
      DrainFacesSameDetections(c, DrainFace(c, s, Least(todo)), todo - {Least(todo)});
    }
  }

  lemma AnswersSameDetections(c: Config, s: State)
    ensures DrainRecognition(c, s).detections == s.detections
    ensures DrainCommit(c, s).detections == s.detections
  {
    RecognitionLoopSameDetections(c, SeedRecognition(s));
    CommitLoopSameDetections(c, SeedCommit(s));
    hide RecognitionLoop, CommitLoop;
  }

  lemma {:induction false} RecognitionLoopSameDetections(c: Config, s: State)
    ensures RecognitionLoop(c, s).detections == s.detections
    decreases RecognitionMeasure(s)
  {
    if RecognitionBusy(c, s) {
      RecognitionStepShrinks(c, s);
      RecognitionLoopSameDetections(c, RecognitionStep(s));
    }
  }

  lemma {:induction false} CommitLoopSameDetections(c: Config, s: State)
    ensures CommitLoop(c, s).detections == s.detections
    decreases CommitMeasure(s)
  {
    if CommitBusy(c, s) {
      CommitStepShrinks(c, s);
      CommitLoopSameDetections(c, CommitStep(s));
    }
  }

  // ---------------------------------------------------------------- inputs

  /** Fields the face and answer parts read, untouched by new frames and detections. */
  predicate SameStages(s: State, r: State)
  {
    && r.trackerCalls == s.trackerCalls
    && r.nextCommit == s.nextCommit
    && r.recognitionTasks == s.recognitionTasks
    && r.identityTasks == s.identityTasks
    && r.commits == s.commits
    && r.faceTasks == s.faceTasks
    && r.latestFace == s.latestFace
    && r.latestRecognition == s.latestRecognition
    && r.latestIdentity == s.latestIdentity
    && r.nextRecognition == s.nextRecognition
    && r.queuedProbes == s.queuedProbes
    && r.earlyFaces == s.earlyFaces
  }

  lemma PartsFrame(c: Config, first: int, detect: int -> seq<Box>, n: Counts, s: State, r: State, q: nat)
    requires InPipeline(c, first, detect, n, s, q) && SameStages(s, r)
    ensures SameInputs(s, r) ==> TrackerPart(first, detect, n.pushed, c.window, r)
    ensures r.faceFrames == s.faceFrames ==> FacePart(c, first, n.faces, r, q)
    ensures r.recognitions == s.recognitions && r.identities == s.identities ==> AnswerPart(first, n.recognised, n.decided, r)
  {
  }

  lemma FramePushedInOrder(c: Config, first: int, detect: int -> seq<Box>, n: Counts, s: State, frame: Frame)
    requires first >= 0 && InPipeline(c, first, detect, n, s, |s.recognitionTasks|)
    requires LossFree(c, first, detect, s, n, FramePushed(frame))
    ensures InPipeline(c, first, detect, n.(pushed := n.pushed + 1), PushFrame(s, frame), |s.recognitionTasks|)
  {
    hide FacePart, AnswerPart;
    var r := s.(frames := s.frames[frame.id := frame]);
    assert PushFrame(s, frame) == r;
    PartsFrame(c, first, detect, n, s, r, |s.recognitionTasks|);
  }

  lemma DetectionPushedInOrder(c: Config, first: int, detect: int -> seq<Box>, n: Counts, s: State, id: int, boxes: seq<Box>)
    requires first >= 0 && InPipeline(c, first, detect, n, s, |s.recognitionTasks|)
    requires LossFree(c, first, detect, s, n, DetectionPushed(id, boxes))
    ensures InPipeline(c, first, detect, n, PushDetection(s, id, boxes), |s.recognitionTasks|)
  {
    hide FacePart, AnswerPart;
    if s.nextTracker >= 0 && id < s.nextTracker {
    } else {
      PartsFrame(c, first, detect, n, s, s.(detections := s.detections[id := boxes]), |s.recognitionTasks|);
    }
  }

  lemma FacePushedInOrder(c: Config, first: int, detect: int -> seq<Box>, n: Counts, s: State, r: FaceResult)
    requires first >= 0 && InPipeline(c, first, detect, n, s, |s.recognitionTasks|)
    requires LossFree(c, first, detect, s, n, FacePushed(r))
    ensures InPipeline(c, first, detect, n.(faces := n.faces + 1), PushFace(c, s, r), |s.recognitionTasks|)
  {
    hide TrackerPart, AnswerPart;
    var k := first + n.faces;
    assert r.frameId == k && k in s.faceFrames;
    assert s.faceFrames[k].probes == {FullProbe(k)} && r.probe == FullProbe(k);
    assert s.faceFrames[k].probes - {r.probe} == {};
    var next := s.(faceFrames := s.faceFrames[k := Received(s.faceFrames[k], r)]);
    assert PushFace(c, s, r) == next;
    PartsFrame(c, first, detect, n, s, next, |s.recognitionTasks|);
  }

  lemma RecognitionPushedInOrder(c: Config, first: int, detect: int -> seq<Box>, n: Counts, s: State, a: Answer)
    requires first >= 0 && InPipeline(c, first, detect, n, s, |s.recognitionTasks|)
    requires AnswersNext(a, s.recognitionTasks, n.recognised)
    ensures InPipeline(c, first, detect, n.(recognised := n.recognised + 1), PushRecognition(s, a), |s.recognitionTasks|)
  {
    hide FacePart, TrackerPart, HeldAnswers, InStep;
    RecognitionAsked(c, first, detect, n, s, a);
    var r := s.(recognitions := s.recognitions[a.frameId := a]);
    assert PushRecognition(s, a) == r;
    PartsFrame(c, first, detect, n, s, r, |s.recognitionTasks|);
    OneMoreAnswer(s.recognitions, first, |s.identityTasks|, n.recognised, a);
  }

  lemma RecognitionAsked(c: Config, first: int, detect: int -> seq<Box>, n: Counts, s: State, a: Answer)
    requires InPipeline(c, first, detect, n, s, |s.recognitionTasks|) && AnswersNext(a, s.recognitionTasks, n.recognised)
    ensures a.frameId == first + n.recognised && a.frame == Some(FrameAt(first, n.recognised)) && n.recognised < |s.recognitionTasks|
  {
    hide TrackerPart, AnswerPart;
  }

  lemma IdentityAsked(c: Config, first: int, detect: int -> seq<Box>, n: Counts, s: State, a: Answer)
    requires first >= 0 && InPipeline(c, first, detect, n, s, |s.recognitionTasks|) && AnswersNext(a, s.identityTasks, n.decided)
    ensures a.frameId == first + n.decided && a.frame == Some(FrameAt(first, n.decided)) && n.decided < |s.identityTasks|
    ensures s.nextCommit <= first + n.decided
  {
    hide FacePart, HeldAnswers;
  }

  lemma OneMoreAnswer(answers: map<int, Answer>, first: int, lo: int, hi: int, a: Answer)
    requires HeldAnswers(answers, first, lo, hi) && lo <= hi
    requires a.frameId == first + hi && a.frame == Some(FrameAt(first, hi))
    ensures HeldAnswers(answers[a.frameId := a], first, lo, hi + 1)
  {
  }

  lemma IdentityPushedInOrder(c: Config, first: int, detect: int -> seq<Box>, n: Counts, s: State, a: Answer)
    requires first >= 0 && InPipeline(c, first, detect, n, s, |s.recognitionTasks|)
    requires AnswersNext(a, s.identityTasks, n.decided)
    ensures InPipeline(c, first, detect, n.(decided := n.decided + 1), PushIdentity(s, a), |s.recognitionTasks|)
  {
    hide FacePart, TrackerPart, HeldAnswers, InStep;
    IdentityAsked(c, first, detect, n, s, a);
    var r := s.(identities := s.identities[a.frameId := a]);
    assert PushIdentity(s, a) == r;
    PartsFrame(c, first, detect, n, s, r, |s.recognitionTasks|);
    OneMoreAnswer(s.identities, first, |s.commits|, n.decided, a);
  }

  lemma StepInOrder(c: Config, first: int, detect: int -> seq<Box>, n: Counts, s: State, e: Event)
    requires TransparentConfig(c) && first >= 0
    requires InPipeline(c, first, detect, n, s, |s.recognitionTasks|)
    requires LossFree(c, first, detect, s, n, e)
    ensures var r := Step(c, s, e);
      InPipeline(c, first, detect, Counted(n, e), r, |r.recognitionTasks|)
  {
    hide InPipeline, PushFrame, PushDetection, PushFace, PushRecognition, PushIdentity, DrainReady;
    if e.DrainCalled? {
      DrainInOrder(c, first, detect, n, s);
    } else {
      PushKeepsStages(c, s, e);
      match e
      case FramePushed(frame) => FramePushedInOrder(c, first, detect, n, s, frame);
      case DetectionPushed(id, boxes) => DetectionPushedInOrder(c, first, detect, n, s, id, boxes);
      case FacePushed(r) => FacePushedInOrder(c, first, detect, n, s, r);
      case RecognitionPushed(a) => RecognitionPushedInOrder(c, first, detect, n, s, a);
      case IdentityPushed(a) => IdentityPushedInOrder(c, first, detect, n, s, a);
    }
  }

  /** No stage moves, and no detections get lost. */
  predicate OnlyPushed(s: State, r: State)
  {
    && r.recognitionTasks == s.recognitionTasks
    && r.trackerCalls == s.trackerCalls
    && r.detections.Keys >= s.detections.Keys
  }

  lemma PushInputKeepsStages(s: State, frame: Frame, id: int, boxes: seq<Box>)
    ensures OnlyPushed(s, PushFrame(s, frame)) && OnlyPushed(s, PushDetection(s, id, boxes))
  {
  }

  lemma PushAnswerKeepsStages(s: State, a: Answer)
    ensures OnlyPushed(s, PushRecognition(s, a)) && OnlyPushed(s, PushIdentity(s, a))
  {
  }

  lemma PushFaceKeepsStages(c: Config, s: State, r: FaceResult)
    ensures OnlyPushed(s, PushFace(c, s, r))
  {
    hide Received;
    if r.frameId in s.faceFrames {
    } else {
    }
  }

  lemma PushKeepsStages(c: Config, s: State, e: Event)
    requires !e.DrainCalled?
    ensures OnlyPushed(s, Step(c, s, e))
  {
    hide OnlyPushed, PushFrame, PushDetection, PushFace, PushRecognition, PushIdentity;
    match e
    case FramePushed(frame) => PushInputKeepsStages(s, frame, frame.id, []);
    case DetectionPushed(id, boxes) => PushInputKeepsStages(s, Frame(id, false), id, boxes);
    case FacePushed(r) => PushFaceKeepsStages(c, s, r);
    case RecognitionPushed(a) => PushAnswerKeepsStages(s, a);
    case IdentityPushed(a) => PushAnswerKeepsStages(s, a);
  }

  // ---------------------------------------------------------------- over every loss-free run

  lemma RunStep(c: Config, first: int, detect: int -> seq<Box>, run: seq<Event>)
    requires run != []
    ensures var earlier, last := run[..|run| - 1], run[|run| - 1];
      && After(c, run) == Step(c, After(c, earlier), last)
      && Count(run) == Counted(Count(earlier), last)
      && (LossFreeRun(c, first, detect, run) <==>
            LossFreeRun(c, first, detect, earlier) && LossFree(c, first, detect, After(c, earlier), Count(earlier), last))
  {
    hide Step;
  }

  lemma {:induction false} RunInOrder(c: Config, first: int, detect: int -> seq<Box>, run: seq<Event>)
    requires TransparentConfig(c) && first >= 0 && LossFreeRun(c, first, detect, run)
    ensures var s := After(c, run);
      InPipeline(c, first, detect, Count(run), s, |s.recognitionTasks|)
  {
    if run != [] {
      RunStep(c, first, detect, run);
      hide After, LossFreeRun, InPipeline, Step, LossFree, Counted, Count;
      var earlier, last := run[..|run| - 1], run[|run| - 1];
      RunInOrder(c, first, detect, earlier);
      StepInOrder(c, first, detect, Count(earlier), After(c, earlier), last);
    }
  }

  /** The frames pushed in a run, in order. */
  function PushedFrames(run: seq<Event>): seq<Frame>
  {
    if run == [] then []
    else PushedFrames(run[..|run| - 1]) + (if run[|run| - 1].FramePushed? then [run[|run| - 1].frame] else [])
  }

  lemma {:induction false} PushedInOrder(c: Config, first: int, detect: int -> seq<Box>, run: seq<Event>)
    requires LossFreeRun(c, first, detect, run)
    ensures |PushedFrames(run)| == Count(run).pushed
    ensures forall i :: 0 <= i < |PushedFrames(run)| ==> PushedFrames(run)[i] == FrameAt(first, i)
  {
    if run != [] {
      RunStep(c, first, detect, run);
      hide After, LossFreeRun, Count, Step;
      PushedInOrder(c, first, detect, run[..|run| - 1]);
    }
  }

  function CommittedFrames(s: State): (frames: seq<Frame>)
    ensures |frames| == |s.commits|
    ensures forall i :: 0 <= i < |frames| ==> frames[i] == s.commits[i].frame
  {
    seq(|s.commits|, i requires 0 <= i < |s.commits| => s.commits[i].frame)
  }

  lemma PipelineOutputs(c: Config, first: int, detect: int -> seq<Box>, n: Counts, s: State, q: nat)
    requires InPipeline(c, first, detect, n, s, q)
    ensures |s.commits| <= |s.trackerCalls| <= n.pushed
    ensures forall i :: 0 <= i < |s.commits| ==> s.commits[i].frame == FrameAt(first, i)
    ensures forall i :: 0 <= i < |s.trackerCalls| ==> s.trackerCalls[i] == TrackerCall(first + i, detect(first + i))
    ensures c.faceEnabled ==> |s.faceTasks| == |s.trackerCalls|
  {
  }

  /**
    At every moment of a loss-free run the committed frames are the first of the pushed ones, in
    order, and the i-th tracker call is the i-th frame with its own detections.
  */
  lemma LossFreeRunIsTransparent(c: Config, first: int, detect: int -> seq<Box>, run: seq<Event>)
    requires TransparentConfig(c) && first >= 0 && LossFreeRun(c, first, detect, run)
    ensures var s := After(c, run);
      && CommittedFrames(s) <= PushedFrames(run)
      && |s.trackerCalls| <= |PushedFrames(run)|
      && forall i :: 0 <= i < |s.trackerCalls| ==>
           s.trackerCalls[i] == TrackerCall(PushedFrames(run)[i].id, detect(PushedFrames(run)[i].id))
  {
    hide After, PushedFrames, LossFreeRun, InPipeline, Count;
    RunInOrder(c, first, detect, run);
    PushedInOrder(c, first, detect, run);
    PipelineOutputs(c, first, detect, Count(run), After(c, run), |After(c, run).recognitionTasks|);
  }

  function DeliveredIds(run: seq<Event>): set<int>
  {
    set e | e in run && e.DetectionPushed? :: e.id
  }

  lemma DeliveredAfter(run: seq<Event>)
    requires run != []
    ensures var last := run[|run| - 1];
      DeliveredIds(run) == DeliveredIds(run[..|run| - 1]) + (if last.DetectionPushed? then {last.id} else {})
  {
    var last := run[|run| - 1];
    assert run == run[..|run| - 1] + [last];
    assert last in run;
  }

  lemma DeliveredStep(c: Config, first: int, detect: int -> seq<Box>, n: Counts, s: State, e: Event, delivered: set<int>)
    requires TransparentConfig(c) && first >= 0
    requires InPipeline(c, first, detect, n, s, |s.recognitionTasks|)
    requires LossFree(c, first, detect, s, n, e)
    requires forall k :: k in delivered && k >= first + |s.trackerCalls| ==> k in s.detections
    ensures var r := Step(c, s, e);
      forall k :: (k in delivered || (e.DetectionPushed? && k == e.id)) && k >= first + |r.trackerCalls| ==> k in r.detections
  {
    hide InPipeline, DrainReady, PushDetection, PushFrame, PushFace, PushRecognition, PushIdentity;
    if e.DrainCalled? {
      DrainInOrder(c, first, detect, n, s);
    } else {
      PushKeepsStages(c, s, e);
      if e.DetectionPushed? {
        PushedIsDelivered(c, first, detect, n, s, |s.recognitionTasks|, e.id, e.boxes);
      }
    }
  }

  lemma PushedIsDelivered(c: Config, first: int, detect: int -> seq<Box>, n: Counts, s: State, q: nat, id: int, boxes: seq<Box>)
    requires InPipeline(c, first, detect, n, s, q)
    ensures id in PushDetection(s, id, boxes).detections || id < first + |s.trackerCalls|
  {
    hide FacePart, AnswerPart;
  }

  /** Delivered detections are held until their frame is tracked. */
  lemma {:induction false} DeliveredIsHeld(c: Config, first: int, detect: int -> seq<Box>, run: seq<Event>)
    requires TransparentConfig(c) && first >= 0 && LossFreeRun(c, first, detect, run)
    ensures var s := After(c, run);
      forall k :: k in DeliveredIds(run) && k >= first + |s.trackerCalls| ==> k in s.detections
  {
    if run != [] {
      var earlier, last := run[..|run| - 1], run[|run| - 1];
      RunStep(c, first, detect, run);
      DeliveredAfter(run);
      hide After, LossFreeRun, InPipeline, Step, LossFree, Count, DeliveredIds;
      DeliveredIsHeld(c, first, detect, earlier);
      RunInOrder(c, first, detect, earlier);
      DeliveredStep(c, first, detect, Count(earlier), After(c, earlier), last, DeliveredIds(earlier));
    }
  }

  /** The run has come to rest: all detections were delivered and every task handed out was answered. */
  ghost predicate Quiescent(run: seq<Event>, s: State)
  {
    && (forall i :: 0 <= i < |PushedFrames(run)| ==> PushedFrames(run)[i].id in DeliveredIds(run))
    && Count(run).faces == |s.faceTasks|
    && Count(run).recognised == |s.recognitionTasks|
    && Count(run).decided == |s.identityTasks|
  }

  lemma PushedWereDelivered(first: int, run: seq<Event>, s: State, k: nat)
    requires Quiescent(run, s)
    requires forall i :: 0 <= i < |PushedFrames(run)| ==> PushedFrames(run)[i] == FrameAt(first, i)
    ensures k < |PushedFrames(run)| ==> first + k in DeliveredIds(run)
  {
    hide DeliveredIds, PushedFrames;
    if k < |PushedFrames(run)| {
      assert PushedFrames(run)[k].id == first + k;
    }
  }

  /** Nothing is held back: the drain that leaves nothing unanswered has committed every pushed frame. */
  lemma QuiescentRunCommitsAll(c: Config, first: int, detect: int -> seq<Box>, run: seq<Event>)
    requires TransparentConfig(c) && first >= 0 && LossFreeRun(c, first, detect, run)
    requires Quiescent(run, DrainReady(c, After(c, run)))
    ensures CommittedFrames(DrainReady(c, After(c, run))) == PushedFrames(run)
  {
    hide After, PushedFrames, LossFreeRun, InPipeline, Count, DeliveredIds, DrainReady;
    var n := Count(run);
    var s := After(c, run);
    var r := DrainReady(c, s);
    RunInOrder(c, first, detect, run);
    DeliveredIsHeld(c, first, detect, run);
    PushedInOrder(c, first, detect, run);
    DrainInOrder(c, first, detect, n, s);
    PipelineOutputs(c, first, detect, n, r, |r.recognitionTasks|);
    PushedWereDelivered(first, run, r, |r.trackerCalls|);
  }
}
