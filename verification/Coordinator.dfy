/**
  The frame coordinator of core/src/pipeline/stream_coordinator.cpp as a function on its state:
  frames and person detections are joined in frame order for the tracker, and the tracked frames are
  carried through face detection, recognition and identity decision to an ordered commit, with
  lost work skipped once it falls too far behind.

  Callbacks are recorded as appends to outboxes; they do not re-enter the coordinator.
*/
module Coordinator {
  import opened Numbers
  import opened Types
  import FacePolicy

  // ---------------------------------------------------------------- data

  datatype Frame = Frame(id: int, infEmpty: bool)

  datatype ProbeId = ProbeId(frameId: int, kind: string)

  datatype FaceTask = FaceTask(frameId: int, probe: ProbeId)

  datatype FaceResult = FaceResult(frameId: int, probe: ProbeId, faces: seq<FaceObservation>)

  /** A recognition or identity task. */
  datatype Task = Task(frameId: int, frame: Frame, tracks: seq<Box>)

  /** A recognition or identity result. */
  datatype Answer = Answer(frameId: int, frame: Option<Frame>, tracks: seq<Box>)

  datatype TrackerCall = TrackerCall(frameId: int, detections: seq<Box>)

  datatype Commit = Commit(frame: Frame, tracks: seq<Box>)

  datatype FaceFrame = FaceFrame(
    frame: Frame,
    tracks: seq<Box>,
    probes: set<ProbeId>,
    results: seq<seq<FaceObservation>>,
    queued: bool)

  /** The tracker's output may depend on every call it has seen. */
  datatype Config = Config(
    faceEnabled: bool,
    independent: bool,
    window: nat,
    limit: nat,
    minFaceScore: real,
    tracker: seq<TrackerCall> -> seq<Box>)
  {
    function Face(): FacePolicy.Config { FacePolicy.Config(minFaceScore, independent) }

    /** Probes are issued before tracking. */
    predicate EarlyProbes() { faceEnabled && independent }
  }

  datatype State = State(
    nextTracker: int,
    nextRecognition: int,
    nextCommit: int,
    latestFace: int,
    latestRecognition: int,
    latestIdentity: int,
    frames: map<int, Frame>,
    detections: map<int, seq<Box>>,
    queuedProbes: map<int, set<ProbeId>>,
    earlyFaces: map<int, seq<FaceResult>>,
    faceFrames: map<int, FaceFrame>,
    recognitions: map<int, Answer>,
    identities: map<int, Answer>,
    trackerCalls: seq<TrackerCall>,
    faceTasks: seq<FaceTask>,
    recognitionTasks: seq<Task>,
    identityTasks: seq<Task>,
    commits: seq<Commit>)

  const INITIAL := State(-1, -1, -1, -1, -1, -1, map[], map[], map[], map[], map[], map[], map[], [], [], [], [], [])

  // ---------------------------------------------------------------- ordered-map helpers

  function Later(a: int, b: int): int { if a < b then b else a }

  /** The least key, where an ordered map begins. */
  function Least(s: set<int>): (k: int)
    requires s != {}
    ensures k in s && forall x :: x in s ==> k <= x
  {
    LeastExists(s);
    var k :| IsLeast(s, k);
    k
  }

  predicate IsLeast(s: set<int>, k: int) { k in s && forall x :: x in s ==> k <= x }

  predicate IsGreatest(s: set<int>, k: int) { k in s && forall x :: x in s ==> x <= k }

  lemma SomeElement(s: set<int>) returns (x: int)
    requires s != {}
    ensures x in s
  {
    if forall y :: y !in s {
      NoElements(s);
    }
    x :| x in s;
  }

  lemma NoElements<T>(s: set<T>)
    requires forall x :: x !in s
    ensures s == {}
  {
  }

  lemma OneMoreElement(rest: set<int>, x: int, k: int)
    ensures IsLeast(rest, k) ==> IsLeast(rest + {x}, MinInt(k, x))
    ensures IsGreatest(rest, k) ==> IsGreatest(rest + {x}, MaxInt(k, x))
  {
  }

  lemma {:induction false} LeastExists(s: set<int>)
    requires s != {}
    ensures exists k :: IsLeast(s, k)
    decreases |s|
  {
    var x := SomeElement(s);
    var rest := s - {x};
    assert s == rest + {x};
    if rest != {} {
      LeastExists(rest);
      var k :| IsLeast(rest, k);
      OneMoreElement(rest, x, k);
    } else {
      assert IsLeast(s, x);
    }
  }

  /** The greatest key, where an ordered map ends. */
  function Greatest(s: set<int>): (k: int)
    requires s != {}
    ensures k in s && forall x :: x in s ==> x <= k
  {
    GreatestExists(s);
    var k :| IsGreatest(s, k);
    k
  }

  lemma {:induction false} GreatestExists(s: set<int>)
    requires s != {}
    ensures exists k :: IsGreatest(s, k)
    decreases |s|
  {
    var x := SomeElement(s);
    var rest := s - {x};
    assert s == rest + {x};
    if rest != {} {
      GreatestExists(rest);
      var k :| IsGreatest(rest, k);
      OneMoreElement(rest, x, k);
    } else {
      assert IsGreatest(s, x);
    }
  }

  /** Drops the entries below a cursor, once it is set. */
  function DropBelow<T>(m: map<int, T>, cursor: int): map<int, T>
  {
    if cursor < 0 then m else map k | k in m && k >= cursor :: m[k]
  }

  /** Erases the oldest entries beyond the limit. */
  function Trimmed<T>(m: map<int, T>, limit: nat): map<int, T>
    decreases |m|
  {
    if |m| <= limit then m
    else
      assert m.Keys != {};
      Trimmed(m - {Least(m.Keys)}, limit)
  }

  // ---------------------------------------------------------------- inputs

  function PushFrame(s: State, frame: Frame): State
  {
    if s.nextTracker >= 0 && frame.id < s.nextTracker then s
    else s.(frames := s.frames[frame.id := frame])
  }

  function PushDetection(s: State, id: int, boxes: seq<Box>): State
  {
    if s.nextTracker >= 0 && id < s.nextTracker then s
    else s.(detections := s.detections[id := boxes])
  }

  function PushFace(c: Config, s: State, r: FaceResult): State
  {
    if r.frameId !in s.faceFrames then
      if c.independent && (s.nextCommit < 0 || r.frameId >= s.nextCommit) then
        var earlier := if r.frameId in s.earlyFaces then s.earlyFaces[r.frameId] else [];
        s.(earlyFaces := s.earlyFaces[r.frameId := earlier + [r]])
      else s
    else
      var pending := s.faceFrames[r.frameId];
      if r.probe !in pending.probes then s
      else s.(faceFrames := s.faceFrames[r.frameId := Received(pending, r)])
  }

  /** A pending frame after the answer to one of its probes. */
  function Received(pending: FaceFrame, r: FaceResult): FaceFrame
  {
    pending.(probes := pending.probes - {r.probe}, results := pending.results + [r.faces])
  }

  function PushRecognition(s: State, a: Answer): State
  {
    if s.nextRecognition >= 0 && a.frameId < s.nextRecognition then s
    else s.(recognitions := s.recognitions[a.frameId := a])
  }

  function PushIdentity(s: State, a: Answer): State
  {
    if s.nextCommit >= 0 && a.frameId < s.nextCommit then s
    else s.(identities := s.identities[a.frameId := a])
  }

  lemma OverTwice<T>(m: map<int, T>, k: int, a: T, b: T)
    ensures m[k := a][k := b] == m[k := b]
  {
  }

  lemma LastFrameCounts(s: State, f: Frame, was: Frame)
    requires was.id == f.id
    ensures PushFrame(PushFrame(s, was), f) == PushFrame(s, f)
  {
    OverTwice(s.frames, f.id, was, f);
    if s.nextTracker >= 0 && f.id < s.nextTracker {
    } else {
    }
  }

  lemma LastDetectionCounts(s: State, id: int, boxes: seq<Box>, was: seq<Box>)
    ensures PushDetection(PushDetection(s, id, was), id, boxes) == PushDetection(s, id, boxes)
  {
    OverTwice(s.detections, id, was, boxes);
    if s.nextTracker >= 0 && id < s.nextTracker {
    } else {
    }
  }

  lemma LastAnswerCounts(s: State, a: Answer, was: Answer)
    requires was.frameId == a.frameId
    ensures PushRecognition(PushRecognition(s, was), a) == PushRecognition(s, a)
  {
    OverTwice(s.recognitions, a.frameId, was, a);
    if s.nextRecognition >= 0 && a.frameId < s.nextRecognition {
    } else {
    }
  }

  lemma LastDecisionCounts(s: State, a: Answer, was: Answer)
    requires was.frameId == a.frameId
    ensures PushIdentity(PushIdentity(s, was), a) == PushIdentity(s, a)
  {
    OverTwice(s.identities, a.frameId, was, a);
    if s.nextCommit >= 0 && a.frameId < s.nextCommit {
    } else {
    }
  }

  /** Of two inputs for one frame the later one counts, as if the earlier one had not been. */
  lemma LastInputCounts(s: State, f: Frame, g: Frame, id: int, boxes: seq<Box>, before: seq<Box>, a: Answer, was: Answer)
    requires g.id == f.id && was.frameId == a.frameId
    ensures PushFrame(PushFrame(s, g), f) == PushFrame(s, f)
    ensures PushDetection(PushDetection(s, id, before), id, boxes) == PushDetection(s, id, boxes)
    ensures PushRecognition(PushRecognition(s, was), a) == PushRecognition(s, a)
    ensures PushIdentity(PushIdentity(s, was), a) == PushIdentity(s, a)
  {
    hide *;
    LastFrameCounts(s, f, g);
    LastDetectionCounts(s, id, boxes, before);
    LastAnswerCounts(s, a, was);
    LastDecisionCounts(s, a, was);
  }

  // ---------------------------------------------------------------- probes ahead of tracking

  function FullProbe(id: int): ProbeId { ProbeId(id, "full") }

  /** The probes planned for a frame: one over the full frame, none without an inference image. */
  function Planned(frame: Frame): seq<FaceTask>
  {
    if frame.infEmpty then [] else [FaceTask(frame.id, FullProbe(frame.id))]
  }

  function ProbeIds(tasks: seq<FaceTask>): set<ProbeId>
  {
    set t | t in tasks :: t.probe
  }

  function ProbeEarly(s: State, id: int): State
    requires id in s.frames
  {
    var tasks := Planned(s.frames[id]);
    if (s.nextTracker >= 0 && id < s.nextTracker) || id in s.queuedProbes || id in s.faceFrames || tasks == [] then s
    else s.(queuedProbes := s.queuedProbes[id := ProbeIds(tasks)],
            latestFace := Later(s.latestFace, id),
            faceTasks := s.faceTasks + tasks)
  }

  function ProbeEarlyAll(s: State, todo: set<int>): State
    requires todo <= s.frames.Keys
    decreases |todo|
  {
    if todo == {} then s
    else
      var id := Least(todo);
      ProbeEarlyAll(ProbeEarly(s, id), todo - {id})
  }

  function DrainProbes(c: Config, s: State): State
  {
    if c.EarlyProbes() then ProbeEarlyAll(s, s.frames.Keys) else s
  }

  // ---------------------------------------------------------------- tracking

  /** Early answers that belong to a frame's outstanding probes, consumed in order. */
  function ReceivedEarly(pending: FaceFrame, early: seq<FaceResult>): FaceFrame
  {
    if early == [] then pending
    else
      var rest := ReceivedEarly(pending, early[..|early| - 1]);
      var r := early[|early| - 1];
      if r.probe in rest.probes then Received(rest, r) else rest
  }

  function Cleared(tracks: seq<Box>): seq<Box> { FacePolicy.Reset(tracks) }

  /** The tracker's inputs are untouched. */
  predicate SameInputs(s: State, r: State)
  {
    && r.frames == s.frames
    && r.detections == s.detections
    && r.nextTracker == s.nextTracker
  }

  /** What process_tracked_frame_ puts down for a frame before early answers are looked at. */
  function Tracked(c: Config, s: State, frame: Frame, boxes: seq<Box>): (r: (State, FaceFrame, seq<FaceTask>))
    ensures SameInputs(s, r.0)
  {
    var calls := s.trackerCalls + [TrackerCall(frame.id, boxes)];
    var tracks := c.tracker(calls);
    var s1 := s.(trackerCalls := calls, nextCommit := if s.nextCommit < 0 then frame.id else s.nextCommit);
    if !c.faceEnabled then
      (s1, FaceFrame(frame, Cleared(tracks), {}, [], false), [])
    else if c.independent && frame.id in s.queuedProbes then
      (s1.(queuedProbes := s.queuedProbes - {frame.id}), FaceFrame(frame, tracks, s.queuedProbes[frame.id], [], false), [])
    else
      (s1, FaceFrame(frame, Cleared(tracks), {}, [], false), Planned(frame))
  }

  /** Tracks a frame and starts its face detection, or queues it for recognition at once. */
  function ProcessFrame(c: Config, s: State, frame: Frame, boxes: seq<Box>): (r: State)
    ensures SameInputs(s, r)
  {
    var (s1, pending, tasks) := Tracked(c, s, frame, boxes);
    var early := if frame.id in s.earlyFaces then s.earlyFaces[frame.id] else [];
    StartFaces(c, s1.(earlyFaces := s1.earlyFaces - {frame.id}), ReceivedEarly(pending, early), tasks)
  }

  /** Puts a tracked frame down with its outstanding probes; without any it is recognised next. */
  function StartFaces(c: Config, s: State, pending: FaceFrame, tasks: seq<FaceTask>): (r: State)
    ensures SameInputs(s, r)
  {
    var id := pending.frame.id;
    if tasks == [] then
      var s1 := s.(faceFrames := s.faceFrames[id := pending]);
      if pending.probes == {} then QueueRecognition(c, s1, id) else s1
    else
      s.(faceFrames := s.faceFrames[id := pending.(probes := pending.probes + ProbeIds(tasks))],
         latestFace := Later(s.latestFace, id),
         faceTasks := s.faceTasks + tasks)
  }

  function QueueRecognition(c: Config, s: State, id: int): (r: State)
    requires id in s.faceFrames
    ensures SameInputs(s, r)
    ensures r.faceFrames.Keys == s.faceFrames.Keys
  {
    var pending := s.faceFrames[id];
    if pending.queued then s
    else
      var tracks := FacePolicy.Applied(c.Face(), pending.tracks, pending.results, pending.frame.id);
      s.(faceFrames := s.faceFrames[id := pending.(tracks := tracks, queued := true)],
         latestRecognition := Later(s.latestRecognition, pending.frame.id),
         recognitionTasks := s.recognitionTasks + [Task(pending.frame.id, pending.frame, tracks)])
  }

  /** The newest frame id seen in frames or detections. */
  function LatestSeen(s: State): int
    requires s.frames.Keys != {}
  {
    Later(Greatest(s.frames.Keys), if s.detections.Keys == {} then s.nextTracker else Greatest(s.detections.Keys))
  }

  /** The frame at the cursor leaves for the tracker. */
  function TrackNext(c: Config, s: State, boxes: seq<Box>): State
    requires s.nextTracker in s.frames
  {
    var id := s.nextTracker;
    var s1 := ProcessFrame(c, s, s.frames[id], boxes);
    s1.(frames := s1.frames - {id}, detections := s1.detections - {id}, nextTracker := id + 1)
  }

  /** The tracking loop has something to do: a joined frame, a gap to jump, or a frame to give up waiting for. */
  predicate TrackBusy(c: Config, s: State)
  {
    && s.nextTracker >= 0
    && if s.nextTracker in s.frames then s.nextTracker in s.detections || LatestSeen(s) - s.nextTracker > c.window
       else s.frames.Keys != {} && Least(s.frames.Keys) > s.nextTracker
  }

  function TrackStep(c: Config, s: State): State
    requires TrackBusy(c, s)
  {
    var id := s.nextTracker;
    if id in s.frames then TrackNext(c, s, if id in s.detections then s.detections[id] else [])
    else s.(nextTracker := Least(s.frames.Keys))
  }

  function Gap(s: State): nat
  {
    if s.frames.Keys != {} && Least(s.frames.Keys) > s.nextTracker then 1 else 0
  }

  lemma TrackStepShrinks(c: Config, s: State)
    requires TrackBusy(c, s)
    ensures var r := TrackStep(c, s);
      |r.frames| < |s.frames| || (|r.frames| == |s.frames| && Gap(r) < Gap(s))
  {
    var id := s.nextTracker;
    if id in s.frames {
      hide ProcessFrame;
      RemovalShrinks(s.frames, id);
    }
  }

  function TrackLoop(c: Config, s: State): State
    decreases |s.frames|, Gap(s)
  {
    if TrackBusy(c, s) then
      TrackStepShrinks(c, s);
      TrackLoop(c, TrackStep(c, s))
    else s
  }

  /** An unset tracking cursor starts at the oldest entry. */
  function SeedTracker(s: State): State
  {
    if s.nextTracker < 0 && s.frames.Keys != {} then s.(nextTracker := Least(s.frames.Keys)) else s
  }

  function DrainTracking(c: Config, s: State): State
  {
    var s1 := SeedTracker(s);
    var s2 := TrackLoop(c, s1);
    s2.(detections := DropBelow(s2.detections, s2.nextTracker))
  }

  // ---------------------------------------------------------------- faces

  predicate FaceTimedOut(c: Config, s: State, id: int)
    requires id in s.faceFrames
  {
    s.faceFrames[id].probes != {} && s.latestFace >= 0 && s.latestFace - id > c.window
  }

  function DrainFace(c: Config, s: State, id: int): State
    requires id in s.faceFrames
  {
    var pending := s.faceFrames[id];
    var s1 := if !pending.queued && (pending.probes == {} || FaceTimedOut(c, s, id))
              then QueueRecognition(c, s.(faceFrames := s.faceFrames[id := pending.(probes := {})]), id)
              else s;
    if s1.faceFrames[id].queued then s1.(faceFrames := s1.faceFrames - {id}) else s1
  }

  function DrainFaces(c: Config, s: State, todo: set<int>): State
    requires todo <= s.faceFrames.Keys
    decreases |todo|
  {
    if todo == {} then s
    else
      var id := Least(todo);
      DrainFaces(c, DrainFace(c, s, id), todo - {id})
  }

  // ---------------------------------------------------------------- recognition to identity

  function QueueIdentity(s: State, a: Answer): State
  {
    if a.frame == None then s
    else s.(latestIdentity := Later(s.latestIdentity, a.frameId),
            identityTasks := s.identityTasks + [Task(a.frameId, a.frame.value, a.tracks)])
  }

  lemma RemovalShrinks<T>(m: map<int, T>, k: int)
    requires k in m
    ensures |m - {k}| == |m| - 1
  {
    var rest := m - {k};
    assert m.Keys == rest.Keys + {k};
  }

  predicate RecognitionBusy(c: Config, s: State)
  {
    && s.nextRecognition >= 0
    && (s.nextRecognition in s.recognitions
        || (s.latestRecognition >= 0 && s.latestRecognition - s.nextRecognition > c.window))
  }

  function RecognitionStep(s: State): State
  {
    var id := s.nextRecognition;
    if id in s.recognitions then
      QueueIdentity(s, s.recognitions[id]).(recognitions := s.recognitions - {id}, nextRecognition := id + 1)
    else s.(nextRecognition := id + 1)
  }

  function RecognitionMeasure(s: State): nat
  {
    |s.recognitions| + Later(0, s.latestRecognition - s.nextRecognition)
  }

  lemma RecognitionStepShrinks(c: Config, s: State)
    requires RecognitionBusy(c, s)
    ensures RecognitionMeasure(RecognitionStep(s)) < RecognitionMeasure(s)
  {
    if s.nextRecognition in s.recognitions {
      RemovalShrinks(s.recognitions, s.nextRecognition);
    }
  }

  function RecognitionLoop(c: Config, s: State): State
    decreases RecognitionMeasure(s)
  {
    if RecognitionBusy(c, s) then
      RecognitionStepShrinks(c, s);
      RecognitionLoop(c, RecognitionStep(s))
    else s
  }

  /** An unset recognition cursor starts at the oldest entry. */
  function SeedRecognition(s: State): State
  {
    if s.nextRecognition < 0 && s.recognitions.Keys != {} then s.(nextRecognition := Least(s.recognitions.Keys)) else s
  }

  function DrainRecognition(c: Config, s: State): State
  {
    var s1 := SeedRecognition(s);
    var s2 := RecognitionLoop(c, s1);
    s2.(recognitions := DropBelow(s2.recognitions, s2.nextRecognition))
  }

  // ---------------------------------------------------------------- identity to commit

  function CommitAnswer(s: State, a: Answer): State
  {
    if a.frame == None then s
    else s.(commits := s.commits + [Commit(a.frame.value, a.tracks)])
  }

  predicate CommitBusy(c: Config, s: State)
  {
    && s.nextCommit >= 0
    && (s.nextCommit in s.identities
        || (s.latestIdentity >= 0 && s.latestIdentity - s.nextCommit > c.window))
  }

  function CommitStep(s: State): State
  {
    var id := s.nextCommit;
    if id in s.identities then
      CommitAnswer(s, s.identities[id]).(identities := s.identities - {id}, nextCommit := id + 1)
    else s.(nextCommit := id + 1)
  }

  function CommitMeasure(s: State): nat
  {
    |s.identities| + Later(0, s.latestIdentity - s.nextCommit)
  }

  lemma CommitStepShrinks(c: Config, s: State)
    requires CommitBusy(c, s)
    ensures CommitMeasure(CommitStep(s)) < CommitMeasure(s)
  {
    if s.nextCommit in s.identities {
      RemovalShrinks(s.identities, s.nextCommit);
    }
  }

  function CommitLoop(c: Config, s: State): State
    decreases CommitMeasure(s)
  {
    if CommitBusy(c, s) then
      CommitStepShrinks(c, s);
      CommitLoop(c, CommitStep(s))
    else s
  }

  /** An unset commit cursor starts at the oldest entry. */
  function SeedCommit(s: State): State
  {
    if s.nextCommit < 0 && s.identities.Keys != {} then s.(nextCommit := Least(s.identities.Keys)) else s
  }

  function DrainCommit(c: Config, s: State): State
  {
    var s1 := SeedCommit(s);
    var s2 := CommitLoop(c, s1);
    s2.(identities := DropBelow(s2.identities, s2.nextCommit))
  }

  // ---------------------------------------------------------------- trimming

  /** Erases the oldest face frame and moves the commit cursor past it. */
  function TrimFaceStep(s: State): (r: State)
    requires s.faceFrames.Keys != {}
    ensures |r.faceFrames| < |s.faceFrames|
  {
    var id := Least(s.faceFrames.Keys);
    RemovalShrinks(s.faceFrames, id);
    s.(nextCommit := if s.nextCommit < 0 || id >= s.nextCommit then id + 1 else s.nextCommit,
       faceFrames := s.faceFrames - {id})
  }

  function TrimFaces(s: State, limit: nat): State
    decreases |s.faceFrames|
  {
    if |s.faceFrames| <= limit then s
    else
      assert s.faceFrames.Keys != {};
      TrimFaces(TrimFaceStep(s), limit)
  }

  function Trim(c: Config, s: State): State
  {
    var s1 := s.(frames := Trimmed(s.frames, c.limit),
                 detections := Trimmed(s.detections, c.limit),
                 queuedProbes := Trimmed(s.queuedProbes, c.limit),
                 earlyFaces := Trimmed(s.earlyFaces, c.limit));
    var s2 := TrimFaces(s1, c.limit);
    s2.(recognitions := Trimmed(s2.recognitions, c.limit), identities := Trimmed(s2.identities, c.limit))
  }

  // ---------------------------------------------------------------- a whole drain

  /** Everything up to the trim. */
  function Drained(c: Config, s: State): State
  {
    var s1 := DrainProbes(c, s);
    var s2 := DrainTracking(c, s1);
    var s3 := DrainFaces(c, s2, s2.faceFrames.Keys);
    var s4 := DrainRecognition(c, s3);
    DrainCommit(c, s4)
  }

  function DrainReady(c: Config, s: State): State
  {
    Trim(c, Drained(c, s))
  }
}
