/**
  No frame is sent to the face detector twice, not even when probes go out ahead of tracking and the
  pending maps overflow: an overflow that forgets a probe has already forgotten its frame.
*/
module CoordinatorProbes {
  import opened Sets
  import opened Types
  import opened Coordinator
  import opened CoordinatorSafety

  ghost function ProbedIds(tasks: seq<FaceTask>): set<int>
  {
    set t | t in tasks :: t.frameId
  }

  ghost predicate DistinctProbes(tasks: seq<FaceTask>)
  {
    forall i, j :: 0 <= i < j < |tasks| ==> tasks[i].frameId != tasks[j].frameId
  }

  ghost function Above(s: set<int>, k: int): set<int>
  {
    set x | x in s && x > k
  }

  /** A remembered probe belongs to a waiting frame, or to a passed one, or at least `limit` newer frames wait. */
  ghost predicate Remembered(probes: set<int>, frames: set<int>, next: int, limit: nat)
  {
    forall k :: k in probes ==> k in frames || k < next || |Above(frames, k)| >= limit
  }

  ghost predicate ProbeInv(c: Config, s: State, pushed: set<int>)
  {
    && DistinctProbes(s.faceTasks)
    && ProbedIds(s.faceTasks) <= pushed
    && (!c.EarlyProbes() ==> s.queuedProbes == map[])
    && (forall k :: k in s.frames && k in ProbedIds(s.faceTasks) ==> k in s.queuedProbes)
    && Remembered(s.queuedProbes.Keys, s.frames.Keys, s.nextTracker, c.limit)
  }

  lemma ProbeAppended(tasks: seq<FaceTask>, x: FaceTask)
    ensures ProbedIds(tasks + [x]) == ProbedIds(tasks) + {x.frameId}
  {
    assert x in tasks + [x];
  }

  lemma ProbedIndex(tasks: seq<FaceTask>, k: int)
    ensures k in ProbedIds(tasks) <==> exists i :: 0 <= i < |tasks| && tasks[i].frameId == k
  {
    if k in ProbedIds(tasks) {
      var x :| x in tasks && x.frameId == k;
      var i :| 0 <= i < |tasks| && tasks[i] == x;
    }
  }

  lemma NewProbeDistinct(tasks: seq<FaceTask>, x: FaceTask)
    requires DistinctProbes(tasks) && x.frameId !in ProbedIds(tasks)
    ensures DistinctProbes(tasks + [x])
  {
    ProbedIndex(tasks, x.frameId);
  }

  // ---------------------------------------------------------------- trimming keeps the newest

  lemma {:induction false} TrimmedKeepsNewest<T>(m: map<int, T>, limit: nat)
    ensures var r := Trimmed(m, limit);
      && r.Keys <= m.Keys
      && |r| <= limit
      && forall k :: k in m && k !in r ==> |r| == limit && forall j :: j in r ==> j > k
    decreases |m|
  {
    if |m| > limit {
      assert m.Keys != {};
      var least := Least(m.Keys);
      RemovalShrinks(m, least);
      TrimmedKeepsNewest(m - {least}, limit);
      var r := Trimmed(m - {least}, limit);
      if |m - {least}| > limit {
        assert (m - {least}).Keys != {};
        var next := Least((m - {least}).Keys);
      }
      forall k | k in m && k !in r
        ensures |r| == limit && forall j :: j in r ==> j > k
      {
        TrimmedReaches(m - {least}, limit);
      }
    }
  }

  lemma {:induction false} TrimmedReaches<T>(m: map<int, T>, limit: nat)
    ensures |m| >= limit ==> |Trimmed(m, limit)| == limit
    decreases |m|
  {
    if |m| > limit {
      assert m.Keys != {};
      RemovalShrinks(m, Least(m.Keys));
      TrimmedReaches(m - {Least(m.Keys)}, limit);
    }
  }

  /** If more than `limit` frames sit at or above k, trimming takes k. */
  lemma CrowdedOut<T>(frames: map<int, T>, limit: nat, k: int)
    requires k in frames && |Above(frames.Keys, k)| >= limit
    ensures k !in Trimmed(frames, limit)
  {
    TrimmedKeepsNewest(frames, limit);
    var r := Trimmed(frames, limit);
    if k in r {
      var crowd := Above(frames.Keys, k);
      assert crowd <= r.Keys;
      assert crowd + {k} <= r.Keys;
      SubsetSize(crowd + {k}, r.Keys);
      assert false;
    }
  }

  lemma RememberedAfterTrim<T, U>(probes: map<int, U>, frames: map<int, T>, next: int, limit: nat)
    requires Remembered(probes.Keys, frames.Keys, next, limit)
    ensures Remembered(Trimmed(probes, limit).Keys, Trimmed(frames, limit).Keys, next, limit)
  {
    var probes', frames' := Trimmed(probes, limit), Trimmed(frames, limit);
    TrimmedKeepsNewest(probes, limit);
    TrimmedKeepsNewest(frames, limit);
    hide Trimmed;
    forall k | k in probes' && k !in frames' && k >= next
      ensures |Above(frames'.Keys, k)| >= limit
    {
      if k in frames {
        assert Above(frames'.Keys, k) == frames'.Keys;
      } else if exists x :: x in frames.Keys && x !in frames' {
        AboveAfterTrim(frames.Keys, frames'.Keys, limit, k);
      } else {
        assert frames'.Keys == frames.Keys;
      }
    }
  }

  /** Losing only older entries does not thin out a crowd of `limit` newer ones. */
  lemma AboveAfterTrim(all: set<int>, kept: set<int>, limit: nat, k: int)
    requires kept <= all && |kept| == limit && |Above(all, k)| >= limit
    requires forall x :: x in all && x !in kept ==> forall j :: j in kept ==> j > x
    ensures |Above(kept, k)| >= limit
  {
    if forall x :: x in kept ==> x > k {
      assert Above(kept, k) == kept;
    } else {
      var low :| low in kept && low <= k;
      assert Above(all, k) + {low} <= kept;
      SubsetSize(Above(all, k) + {low}, kept);
      assert false;
    }
  }

  /** A frame that survives the trim keeps its probe. */
  lemma ProbeSurvivesWithFrame<T, U>(probes: map<int, U>, frames: map<int, T>, next: int, limit: nat, k: int)
    requires Remembered(probes.Keys, frames.Keys, next, limit)
    requires k in Trimmed(frames, limit) && k in probes && k >= next
    ensures k in Trimmed(probes, limit)
  {
    TrimmedKeepsNewest(frames, limit);
    TrimmedKeepsNewest(probes, limit);
    var newer := Trimmed(probes, limit).Keys;
    hide Trimmed;
    if k !in newer {
      if forall x :: x in newer ==> x in frames {
        assert newer <= Above(frames.Keys, k);
        SubsetSize(newer, Above(frames.Keys, k));
      } else {
        var stale :| stale in newer && stale !in frames;
        assert Above(frames.Keys, stale) <= Above(frames.Keys, k);
        SubsetSize(Above(frames.Keys, stale), Above(frames.Keys, k));
      }
      CrowdedOut(frames, limit, k);
      assert false;
    }
  }

  // ---------------------------------------------------------------- every step keeps the invariant

  /** The step touches nothing the probe invariant reads. */
  predicate SameProbing(s: State, r: State)
  {
    && r.frames == s.frames
    && r.queuedProbes == s.queuedProbes
    && r.nextTracker == s.nextTracker
    && r.faceTasks == s.faceTasks
  }

  lemma SameProbingKeeps(c: Config, s: State, r: State, pushed: set<int>)
    requires ProbeInv(c, s, pushed) && SameProbing(s, r)
    ensures ProbeInv(c, r, pushed)
  {
  }

  lemma PushFrameKeepsProbes(c: Config, s: State, frame: Frame, pushed: set<int>)
    requires ProbeInv(c, s, pushed) && frame.id !in pushed
    ensures ProbeInv(c, PushFrame(s, frame), pushed + {frame.id})
  {
    var r := PushFrame(s, frame);
    forall k | k in s.queuedProbes && k !in r.frames && k >= s.nextTracker
      ensures |Above(r.frames.Keys, k)| >= c.limit
    {
      SubsetSize(Above(s.frames.Keys, k), Above(r.frames.Keys, k));
    }
  }

  lemma ProbeEarlyKeepsProbes(c: Config, s: State, id: int, pushed: set<int>)
    requires ProbeInv(c, s, pushed) && Inv(s, pushed) && c.EarlyProbes() && id in s.frames
    ensures ProbeInv(c, ProbeEarly(s, id), pushed)
  {
    var r := ProbeEarly(s, id);
    if r != s {
      var x := FaceTask(id, FullProbe(id));
      assert s.frames[id].id == id;
      ProbeAppended(s.faceTasks, x);
      NewProbeDistinct(s.faceTasks, x);
    }
  }

  lemma {:induction false} ProbeEarlyAllKeepsProbes(c: Config, s: State, todo: set<int>, pushed: set<int>)
    requires ProbeInv(c, s, pushed) && Inv(s, pushed) && c.EarlyProbes() && todo <= s.frames.Keys
    ensures ProbeInv(c, ProbeEarlyAll(s, todo), pushed)
    decreases |todo|
  {
    if todo != {} {
      var id := Least(todo);
      ProbeEarlyKeepsProbes(c, s, id, pushed);
      ProbeEarlyKeeps(s, id, pushed);
      assert ProbeEarly(s, id).frames == s.frames;
      hide Inv, ProbeInv, ProbeEarly;
      ProbeEarlyAllKeepsProbes(c, ProbeEarly(s, id), todo - {id}, pushed);
    }
  }

  /** Tracking a frame probes it only when no early probe of it is remembered, which it then forgets. */
  ghost predicate TrackedProbes(c: Config, s: State, r: State, frame: Frame)
  {
    && r.frames == s.frames
    && r.nextTracker == s.nextTracker
    && r.queuedProbes == (if c.EarlyProbes() then s.queuedProbes - {frame.id} else s.queuedProbes)
    && (r.faceTasks == s.faceTasks
        || (r.faceTasks == s.faceTasks + [FaceTask(frame.id, FullProbe(frame.id))]
            && (c.EarlyProbes() ==> frame.id !in s.queuedProbes)))
  }

  lemma StartProbes(c: Config, s: State, pending: FaceFrame, tasks: seq<FaceTask>)
    ensures var r := StartFaces(c, s, pending, tasks);
      && r.frames == s.frames
      && r.nextTracker == s.nextTracker
      && r.queuedProbes == s.queuedProbes
      && r.faceTasks == s.faceTasks + tasks
  {
    hide FacePolicy.Applied, Later, ProbeIds;
    if tasks == [] {
      assert s.faceTasks + tasks == s.faceTasks;
      hide StartFaces;
      StartWithoutProbes(c, s, pending);
    }
  }

  lemma StartWithoutProbes(c: Config, s: State, pending: FaceFrame)
    ensures SameProbing(s, StartFaces(c, s, pending, []))
  {
    hide FacePolicy.Applied, Later;
    if pending.probes == {} {
      var s1 := s.(faceFrames := s.faceFrames[pending.frame.id := pending]);
      assert SameProbing(s1, QueueRecognition(c, s1, pending.frame.id));
    }
  }

  lemma ProcessProbes(c: Config, s: State, frame: Frame, boxes: seq<Box>)
    ensures TrackedProbes(c, s, ProcessFrame(c, s, frame, boxes), frame)
  {
    hide StartFaces, ReceivedEarly, Tracked;
    var (s1, pending, tasks) := Tracked(c, s, frame, boxes);
    TrackedTasks(c, s, frame, boxes);
    var early := if frame.id in s.earlyFaces then s.earlyFaces[frame.id] else [];
    var s2 := s1.(earlyFaces := s1.earlyFaces - {frame.id});
    StartProbes(c, s2, ReceivedEarly(pending, early), tasks);
    assert s2.faceTasks + [] == s2.faceTasks;
  }

  /** The probes a tracked frame still needs. */
  lemma TrackedTasks(c: Config, s: State, frame: Frame, boxes: seq<Box>)
    ensures var (r, pending, tasks) := Tracked(c, s, frame, boxes);
      && r.frames == s.frames
      && r.nextTracker == s.nextTracker
      && r.faceTasks == s.faceTasks
      && r.queuedProbes == (if c.EarlyProbes() then s.queuedProbes - {frame.id} else s.queuedProbes)
      && (tasks == [] || (tasks == [FaceTask(frame.id, FullProbe(frame.id))] && (c.EarlyProbes() ==> frame.id !in s.queuedProbes)))
  {
    hide FacePolicy.Reset;
    if c.EarlyProbes() {
      if frame.id in s.queuedProbes {
      } else {
        assert s.queuedProbes - {frame.id} == s.queuedProbes;
      }
    } else {
    }
  }

  lemma FramesArePushed(s: State, pushed: set<int>, id: int)
    requires Inv(s, pushed) && id in s.frames
    ensures s.frames[id].id == id && id in pushed
  {
  }

  lemma TrackNextKeepsProbes(c: Config, s: State, boxes: seq<Box>, pushed: set<int>)
    requires ProbeInv(c, s, pushed) && Inv(s, pushed) && s.nextTracker >= 0 && s.nextTracker in s.frames
    ensures ProbeInv(c, TrackNext(c, s, boxes), pushed)
  {
    hide Inv, ProcessFrame;
    var id := s.nextTracker;
    var frame := s.frames[id];
    var p := ProcessFrame(c, s, frame, boxes);
    ProcessProbes(c, s, frame, boxes);
    FramesArePushed(s, pushed, id);
    var x := FaceTask(id, FullProbe(id));
    if p.faceTasks != s.faceTasks {
      ProbeAppended(s.faceTasks, x);
      NewProbeDistinct(s.faceTasks, x);
    }
    var r := TrackNext(c, s, boxes);
    forall k | k in r.queuedProbes && k !in r.frames && k >= id + 1
      ensures |Above(r.frames.Keys, k)| >= c.limit
    {
      assert Above(r.frames.Keys, k) == Above(s.frames.Keys, k);
    }
  }

  lemma TrackStepKeepsProbes(c: Config, s: State, pushed: set<int>)
    requires ProbeInv(c, s, pushed) && Inv(s, pushed) && TrackBusy(c, s)
    ensures ProbeInv(c, TrackStep(c, s), pushed)
  {
    hide Inv, TrackNext;
    var id := s.nextTracker;
    if id in s.frames {
      TrackNextKeepsProbes(c, s, if id in s.detections then s.detections[id] else [], pushed);
    }
  }

  lemma {:induction false} TrackLoopKeepsProbes(c: Config, s: State, pushed: set<int>)
    requires ProbeInv(c, s, pushed) && Inv(s, pushed)
    ensures ProbeInv(c, TrackLoop(c, s), pushed)
    decreases |s.frames|, Gap(s)
  {
    hide Inv, ProbeInv, TrackStep, Gap, TrackBusy;
    if TrackBusy(c, s) {
      TrackStepShrinks(c, s);
      TrackStepKeeps(c, s, pushed);
      TrackStepKeepsProbes(c, s, pushed);
      TrackLoopKeepsProbes(c, TrackStep(c, s), pushed);
    }
  }

  lemma {:induction false} DrainFacesSameProbing(c: Config, s: State, todo: set<int>)
    requires todo <= s.faceFrames.Keys
    ensures SameProbing(s, DrainFaces(c, s, todo))
    decreases |todo|
  {
    if todo != {} {
      var id := Least(todo);
      DrainFaceEffect(c, s, id);
      hide DrainFace;
      DrainFacesSameProbing(c, DrainFace(c, s, id), todo - {id});
    }
  }

  lemma {:induction false} RecognitionLoopSameProbing(c: Config, s: State)
    ensures SameProbing(s, RecognitionLoop(c, s))
    decreases RecognitionMeasure(s)
  {
    hide RecognitionBusy, RecognitionStep, RecognitionMeasure;
    if RecognitionBusy(c, s) {
      RecognitionStepShrinks(c, s);
      RecognitionStepSameProbing(s);
      RecognitionLoopSameProbing(c, RecognitionStep(s));
    }
  }

  lemma RecognitionStepSameProbing(s: State)
    ensures SameProbing(s, RecognitionStep(s))
  {
    if s.nextRecognition in s.recognitions {
      if s.recognitions[s.nextRecognition].frame == None {
      } else {
      }
    } else {
    }
  }

  lemma CommitStepSameProbing(s: State)
    ensures SameProbing(s, CommitStep(s))
  {
    if s.nextCommit in s.identities {
      if s.identities[s.nextCommit].frame == None {
      } else {
      }
    } else {
    }
  }

  lemma {:induction false} CommitLoopSameProbing(c: Config, s: State)
    ensures SameProbing(s, CommitLoop(c, s))
    decreases CommitMeasure(s)
  {
    hide CommitBusy, CommitStep, CommitMeasure;
    if CommitBusy(c, s) {
      CommitStepShrinks(c, s);
      CommitStepSameProbing(s);
      CommitLoopSameProbing(c, CommitStep(s));
    }
  }

  lemma TrimKeepsProbes(c: Config, s: State, pushed: set<int>)
    requires ProbeInv(c, s, pushed) && Inv(s, pushed)
    ensures ProbeInv(c, Trim(c, s), pushed)
  {
    var r := Trim(c, s);
    TrimFacesChanges(s.(frames := Trimmed(s.frames, c.limit),
                        detections := Trimmed(s.detections, c.limit),
                        queuedProbes := Trimmed(s.queuedProbes, c.limit),
                        earlyFaces := Trimmed(s.earlyFaces, c.limit)), c.limit);
    hide TrimFaces;
    RememberedAfterTrim(s.queuedProbes, s.frames, s.nextTracker, c.limit);
    TrimmedIsPart(s.queuedProbes, c.limit);
    TrimmedIsPart(s.frames, c.limit);
    forall k | k in r.frames && k in ProbedIds(s.faceTasks)
      ensures k in r.queuedProbes
    {
      ProbeSurvivesWithFrame(s.queuedProbes, s.frames, s.nextTracker, c.limit, k);
    }
  }

  lemma DrainReadyKeepsProbes(c: Config, s: State, pushed: set<int>)
    requires ProbeInv(c, s, pushed) && Inv(s, pushed)
    ensures ProbeInv(c, DrainReady(c, s), pushed)
  {
    hide Inv, ProbeInv;
    var s1 := DrainProbes(c, s);
    if c.EarlyProbes() {
      ProbeEarlyAllKeepsProbes(c, s, s.frames.Keys, pushed);
    }
    ProbeEarlyAllKeeps(s, s.frames.Keys, pushed);
    var s2 := DrainTracking(c, s1);
    TrackingKeepsProbes(c, s1, pushed);
    DrainTrackingKeeps(c, s1, pushed);
    hide DrainTracking, DrainProbes, ProbeEarlyAll;
    var s3 := DrainFaces(c, s2, s2.faceFrames.Keys);
    DrainFacesSameProbing(c, s2, s2.faceFrames.Keys);
    SameProbingKeeps(c, s2, s3, pushed);
    DrainFacesKeeps(c, s2, s2.faceFrames.Keys, pushed);
    hide DrainFaces;
    var s4 := DrainRecognition(c, s3);
    AnswersSameProbing(c, s3);
    SameProbingKeeps(c, s3, s4, pushed);
    DrainRecognitionKeeps(c, s3, pushed);
    var s5 := DrainCommit(c, s4);
    AnswersSameProbing(c, s4);
    SameProbingKeeps(c, s4, s5, pushed);
    DrainCommitKeeps(c, s4, pushed);
    TrimKeepsProbes(c, s5, pushed);
  }

  lemma AnswersSameProbing(c: Config, s: State)
    ensures SameProbing(s, DrainRecognition(c, s))
    ensures SameProbing(s, DrainCommit(c, s))
  {
    var s1 := SeedRecognition(s);
    RecognitionLoopSameProbing(c, s1);
    var s2 := SeedCommit(s);
    CommitLoopSameProbing(c, s2);
    hide RecognitionLoop, CommitLoop;
  }

  lemma TrackingKeepsProbes(c: Config, s: State, pushed: set<int>)
    requires ProbeInv(c, s, pushed) && Inv(s, pushed)
    ensures ProbeInv(c, DrainTracking(c, s), pushed)
  {
    var s1 := SeedTracker(s);
    assert ProbeInv(c, s1, pushed);
    assert Inv(s1, pushed);
    TrackLoopKeepsProbes(c, s1, pushed);
    hide TrackLoop, Inv;
  }

  // ---------------------------------------------------------------- over every run

  lemma StepKeepsProbes(c: Config, s: State, e: Event, pushed: set<int>)
    requires ProbeInv(c, s, pushed) && Inv(s, pushed) && Permitted(s, pushed, e)
    ensures ProbeInv(c, Step(c, s, e), if e.FramePushed? then pushed + {e.frame.id} else pushed)
  {
    hide Inv;
    match e
    case FramePushed(frame) => hide ProbeInv, PushFrame; PushFrameKeepsProbes(c, s, frame, pushed);
    case DrainCalled => hide ProbeInv, DrainReady; DrainReadyKeepsProbes(c, s, pushed);
    case _ => hide ProbeInv; PushSameProbing(c, s, e); hide Step; SameProbingKeeps(c, s, Step(c, s, e), pushed);
  }

  lemma PushSameProbing(c: Config, s: State, e: Event)
    requires !e.FramePushed? && !e.DrainCalled?
    ensures SameProbing(s, Step(c, s, e))
  {
    hide SameProbing, PushDetection, PushFace, PushRecognition, PushIdentity;
    match e
    case DetectionPushed(id, boxes) => DetectionSameProbing(s, id, boxes);
    case FacePushed(r) => FaceSameProbing(c, s, r);
    case RecognitionPushed(a) => AnswerSameProbing(s, a);
    case IdentityPushed(a) => AnswerSameProbing(s, a);
  }

  lemma DetectionSameProbing(s: State, id: int, boxes: seq<Box>)
    ensures SameProbing(s, PushDetection(s, id, boxes))
  {
  }

  lemma FaceSameProbing(c: Config, s: State, r: FaceResult)
    ensures SameProbing(s, PushFace(c, s, r))
  {
    hide Received;
  }

  lemma AnswerSameProbing(s: State, a: Answer)
    ensures SameProbing(s, PushRecognition(s, a))
    ensures SameProbing(s, PushIdentity(s, a))
  {
  }

  lemma {:induction false} RunKeepsProbeInv(c: Config, run: seq<Event>)
    requires Legal(c, run)
    ensures ProbeInv(c, After(c, run), PushedIds(run))
  {
    if run != [] {
      var earlier, last := run[..|run| - 1], run[|run| - 1];
      RunKeepsProbeInv(c, earlier);
      RunKeepsInv(c, earlier);
      PushedAfter(run);
      hide Inv, ProbeInv, PushedIds, Step;
      StepKeepsProbes(c, After(c, earlier), last, PushedIds(earlier));
    }
  }

  /** On every run, every frame is sent to the face detector at most once. */
  lemma EveryFrameProbedAtMostOnce(c: Config, run: seq<Event>)
    requires Legal(c, run)
    ensures DistinctProbes(After(c, run).faceTasks)
    ensures ProbedIds(After(c, run).faceTasks) <= PushedIds(run)
  {
    RunKeepsProbeInv(c, run);
  }
}
