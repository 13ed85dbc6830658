/**
  Exactly when unearned identities can be shown: runs that carry a harmful tracker box, past probes
  sent ahead of tracking and a recognizer that throws, into a commit.
*/
module PrivacyLeaks {
  import opened Sets
  import opened Types
  import opened Coordinator
  import opened CoordinatorOrder
  import opened PrivacyChain
  import opened PrivacyRuns
  import Safety = CoordinatorSafety
  import Face = FacePolicy
  import R = RecognitionCache
  import W = RecognitionWorkers
  import I = IdentityDecider

  // ---------------------------------------------------------------- the answers held back

  /** All cursors, marks and answers belong to frames below b, and at most one answer of each kind waits. */
  ghost predicate Bounded(s: State, b: int)
  {
    && b >= 0
    && s.nextCommit <= b
    && s.nextRecognition <= b
    && s.latestRecognition < b
    && s.latestIdentity < b
    && (forall k :: k in s.recognitions ==> 0 <= k < b && s.recognitions[k].frameId == k)
    && (forall k :: k in s.identities ==> 0 <= k < b)
    && |s.recognitions.Keys| <= 1
    && |s.identities.Keys| <= 1
  }

  /** The recognition answer for frame k will still be handed on, or was. */
  predicate Heard(s: State, k: int)
  {
    || (k in s.recognitions && s.recognitions[k].frame.Some? && s.recognitions[k].frameId == k && s.nextRecognition <= k)
    || s.latestIdentity >= k
  }

  /** The frame will still be committed like this, or was. */
  predicate Owed(s: State, k: int, x: Commit)
  {
    || (k in s.identities && s.identities[k].frame == Some(x.frame) && s.identities[k].tracks == x.tracks && s.nextCommit <= k)
    || x in s.commits
  }

  /** What the answer stages keep while they move on. */
  ghost predicate Onward(s: State, r: State)
  {
    && SameFront(s, r)
    && s.identityTasks <= r.identityTasks
    && (forall x :: x in s.commits ==> x in r.commits)
    && (s.nextRecognition >= 0 ==> r.nextRecognition >= s.nextRecognition)
    && (s.nextCommit >= 0 ==> r.nextCommit >= s.nextCommit)
  }

  /** No recognition has been answered yet. */
  predicate Silent(s: State)
  {
    s.recognitions == map[] && s.nextRecognition < 0 && s.identityTasks == []
  }

  /** No recognition answer waits, and the cursor has not passed frame k. */
  predicate Calm(s: State, k: int)
  {
    s.recognitions == map[] && s.nextRecognition <= k && s.latestRecognition <= k
  }

  /** No identity answer waits, and the cursor has not passed frame k. */
  predicate Quiet(s: State, k: int)
  {
    && s.identities == map[]
    && s.nextCommit <= k
    && s.latestIdentity <= k
    && forall j :: j in s.recognitions ==> s.recognitions[j].frameId <= k
  }

  ghost predicate Rests(s: State, r: State)
  {
    && (Silent(s) ==> Silent(r))
    && (forall k :: Calm(s, k) ==> Calm(r, k))
    && (forall k :: Quiet(s, k) ==> Quiet(r, k))
  }

  /** A step that keeps whatever is bounded, heard and owed, and does not begin on its own. */
  ghost predicate Keeps(s: State, r: State)
  {
    && Onward(s, r)
    && Rests(s, r)
    && (forall b :: Bounded(s, b) ==> Bounded(r, b))
    && (forall k :: Heard(s, k) ==> Heard(r, k))
    && (forall k, x :: Owed(s, k, x) ==> Owed(r, k, x))
  }

  lemma KeepsOn(s: State, mid: State, r: State)
    requires Keeps(s, mid) && Keeps(mid, r)
    ensures Keeps(s, r)
  {
    hide Bounded, Heard, Owed, Silent, Calm, Quiet;
  }

  /** The fields after a recognition answer was handed on. */
  predicate HandedOn(s: State, r: State, id: int)
  {
    && id == s.nextRecognition
    && id in s.recognitions
    && OnlyRecognition(s, r)
    && r.recognitions == s.recognitions - {id}
    && r.nextRecognition == id + 1
    && var a := s.recognitions[id];
       && r.latestIdentity == (if a.frame == None then s.latestIdentity else Later(s.latestIdentity, a.frameId))
       && r.identityTasks == s.identityTasks + (if a.frame == None then [] else [Task(a.frameId, a.frame.value, a.tracks)])
  }

  lemma HandOnFields(s: State, id: int)
    requires id == s.nextRecognition && id in s.recognitions
    ensures HandedOn(s, RecognitionStep(s), id)
  {
    if s.recognitions[id].frame == None {
    } else {
    }
  }

  lemma HandedOnBounded(s: State, r: State, id: int, b: int)
    requires HandedOn(s, r, id) && Bounded(s, b)
    ensures Bounded(r, b)
  {
    assert r.recognitions.Keys == s.recognitions.Keys - {id};
    SubsetSize(s.recognitions.Keys - {id}, s.recognitions.Keys);
    hide SameFront;
  }

  lemma HandOnKeeps(s: State, id: int)
    requires id == s.nextRecognition && id in s.recognitions
    ensures Keeps(s, RecognitionStep(s))
  {
    HandOnFields(s, id);
    var r := RecognitionStep(s);
    assert Rests(s, r);
    hide RecognitionStep, SameFront, Bounded, Rests;
    forall b | Bounded(s, b)
      ensures Bounded(r, b)
    {
      HandedOnBounded(s, r, id, b);
    }
    assert forall k, x :: Owed(s, k, x) ==> Owed(r, k, x);
    hide Owed;
    assert forall k :: Heard(s, k) ==> Heard(r, k);
    hide Heard;
  }

  lemma RecognitionStepKeepsAll(c: Config, s: State)
    requires RecognitionBusy(c, s)
    ensures Keeps(s, RecognitionStep(s))
  {
    if s.nextRecognition in s.recognitions {
      HandOnKeeps(s, s.nextRecognition);
    } else {
    }
  }

  lemma {:induction false} RecognitionLoopKeepsAll(c: Config, s: State)
    ensures Keeps(s, RecognitionLoop(c, s)) && !RecognitionBusy(c, RecognitionLoop(c, s))
    decreases RecognitionMeasure(s)
  {
    if RecognitionBusy(c, s) {
      RecognitionStepShrinks(c, s);
      RecognitionStepKeepsAll(c, s);
      hide Keeps, RecognitionBusy, RecognitionStep, RecognitionMeasure;
      RecognitionLoopKeepsAll(c, RecognitionStep(s));
      KeepsOn(s, RecognitionStep(s), RecognitionLoop(c, s));
    }
  }

  /** The fields after an identity answer was committed. */
  lemma CommitFields(s: State, id: int)
    requires id == s.nextCommit && id in s.identities
    ensures var r := CommitStep(s);
      var a := s.identities[id];
      && OnlyCommit(s, r)
      && r.identities == s.identities - {id}
      && r.nextCommit == id + 1
      && r.commits == s.commits + (if a.frame == None then [] else [Commit(a.frame.value, a.tracks)])
  {
    if s.identities[id].frame == None {
    } else {
    }
  }

  lemma CommitKeeps(s: State, id: int)
    requires id == s.nextCommit && id in s.identities
    ensures Keeps(s, CommitStep(s))
  {
    CommitFields(s, id);
    var r, a := CommitStep(s), s.identities[id];
    hide CommitStep;
    assert Rests(s, r);
    hide Rests;
    assert r.identities.Keys == s.identities.Keys - {id};
    SubsetSize(s.identities.Keys - {id}, s.identities.Keys);
    hide SameFront;
    if a.frame.Some? {
      assert r.commits[|s.commits|] == Commit(a.frame.value, a.tracks);
    }
    assert forall k, x :: Owed(s, k, x) ==> Owed(r, k, x);
    hide Owed;
    assert forall k :: Heard(s, k) ==> Heard(r, k);
    hide Heard;
  }

  lemma CommitStepKeepsAll(c: Config, s: State)
    requires CommitBusy(c, s)
    ensures Keeps(s, CommitStep(s))
  {
    if s.nextCommit in s.identities {
      CommitKeeps(s, s.nextCommit);
    } else {
    }
  }

  lemma {:induction false} CommitLoopKeepsAll(c: Config, s: State)
    ensures Keeps(s, CommitLoop(c, s)) && !CommitBusy(c, CommitLoop(c, s))
    decreases CommitMeasure(s)
  {
    if CommitBusy(c, s) {
      CommitStepShrinks(c, s);
      CommitStepKeepsAll(c, s);
      hide Keeps, CommitBusy, CommitStep, CommitMeasure;
      CommitLoopKeepsAll(c, CommitStep(s));
      KeepsOn(s, CommitStep(s), CommitLoop(c, s));
    }
  }

  lemma DropRecognitionsKeeps(s: State)
    ensures Keeps(s, s.(recognitions := DropBelow(s.recognitions, s.nextRecognition)))
  {
    SubsetSize(DropBelow(s.recognitions, s.nextRecognition).Keys, s.recognitions.Keys);
  }

  lemma DropIdentitiesKeeps(s: State)
    ensures Keeps(s, s.(identities := DropBelow(s.identities, s.nextCommit)))
  {
    SubsetSize(DropBelow(s.identities, s.nextCommit).Keys, s.identities.Keys);
  }

  lemma CursorKeeps(s: State, n: int)
    requires s.nextRecognition < 0 && n in s.recognitions && forall k :: k in s.recognitions ==> n <= k
    ensures Keeps(s, s.(nextRecognition := n))
  {
  }

  lemma CommitCursorKeeps(s: State, n: int)
    requires s.nextCommit < 0 && n in s.identities && forall k :: k in s.identities ==> n <= k
    ensures Keeps(s, s.(nextCommit := n))
  {
  }

  lemma NothingKeeps(s: State)
    ensures Keeps(s, s)
  {
  }

  lemma SeedKeeps(s: State)
    ensures Keeps(s, SeedRecognition(s)) && Keeps(s, SeedCommit(s))
  {
    NothingKeeps(s);
    hide Keeps;
    if s.nextRecognition < 0 && s.recognitions.Keys != {} {
      CursorKeeps(s, Least(s.recognitions.Keys));
    }
    if s.nextCommit < 0 && s.identities.Keys != {} {
      CommitCursorKeeps(s, Least(s.identities.Keys));
    }
  }

  /** Both answer stages of a drain. */
  function Answered(c: Config, s: State): State { DrainCommit(c, DrainRecognition(c, s)) }

  /** No cursor lags behind its mark by more than the window. */
  predicate CaughtUp(c: Config, s: State)
  {
    && (s.nextRecognition >= 0 ==> s.latestRecognition - s.nextRecognition <= c.window || s.latestRecognition < 0)
    && (s.nextCommit >= 0 ==> s.latestIdentity - s.nextCommit <= c.window || s.latestIdentity < 0)
  }

  lemma AnsweredKeeps(c: Config, s: State)
    ensures Keeps(s, Answered(c, s)) && CaughtUp(c, Answered(c, s))
  {
    hide Keeps, RecognitionLoop, CommitLoop;
    var s1 := SeedRecognition(s);
    SeedKeeps(s);
    RecognitionLoopKeepsAll(c, s1);
    var s2 := RecognitionLoop(c, s1);
    KeepsOn(s, s1, s2);
    var s3 := DrainRecognition(c, s);
    DropRecognitionsKeeps(s2);
    KeepsOn(s, s2, s3);
    var t1 := SeedCommit(s3);
    SeedKeeps(s3);
    CommitLoopKeepsAll(c, t1);
    var t2 := CommitLoop(c, t1);
    KeepsOn(s3, t1, t2);
    DropIdentitiesKeeps(t2);
    KeepsOn(s3, t2, Answered(c, s));
    KeepsOn(s, s3, Answered(c, s));
    assert CaughtUp(c, Answered(c, s)) by {
      CommitLoopEffect(c, t1);
      hide SeedRecognition, SeedCommit;
    }
  }

  // ---------------------------------------------------------------- one frame at a time

  /** Nothing waits ahead of recognition. */
  predicate Rested(s: State)
  {
    s.frames == map[] && s.detections == map[] && s.queuedProbes == map[] && s.earlyFaces == map[] && s.faceFrames == map[]
  }

  function Image(id: int): Frame { Frame(id, false) }

  function NoFaces(id: int): FaceResult { FaceResult(id, FullProbe(id), []) }

  /** The frame arrived, and its probe goes out. */
  function Probed(s: State, id: int): State
  {
    s.(frames := map[id := Image(id)], queuedProbes := map[id := {FullProbe(id)}], nextTracker := id,
       latestFace := Later(s.latestFace, id), faceTasks := s.faceTasks + [FaceTask(id, FullProbe(id))])
  }

  lemma OnlyKey(id: int)
    ensures Least({id}) == id && Greatest({id}) == id
  {
  }

  lemma ProbeOne(c: Config, s: State, id: int)
    requires c.EarlyProbes() && s.frames == map[id := Image(id)] && s.queuedProbes == map[] && s.faceFrames == map[]
    requires id >= 0 && s.nextTracker <= id
    ensures DrainProbes(c, s) == s.(queuedProbes := map[id := {FullProbe(id)}], latestFace := Later(s.latestFace, id),
                                    faceTasks := s.faceTasks + [FaceTask(id, FullProbe(id))])
  {
    OnlyKey(id);
    assert s.frames.Keys == {id};
    assert ProbeIds(Planned(Image(id))) == {FullProbe(id)} by {
      assert Planned(Image(id)) == [FaceTask(id, FullProbe(id))];
    }
    var r := ProbeEarly(s, id);
    assert {id} - {id} == {};
    assert ProbeEarlyAll(s, {id}) == ProbeEarlyAll(r, {});
  }

  /** With one frame and no detections, tracking only moves its cursor there. */
  lemma TrackNone(c: Config, s: State, id: int)
    requires s.frames == map[id := Image(id)] && s.detections == map[] && id >= 0 && s.nextTracker <= id
    ensures DrainTracking(c, s) == s.(nextTracker := id)
  {
    OnlyKey(id);
    assert s.frames.Keys == {id};
    var s1 := SeedTracker(s);
    var s2 := s.(nextTracker := id);
    assert s2.frames.Keys == {id} && s2.detections.Keys == {};
    assert !TrackBusy(c, s2);
    if s1.nextTracker != id {
      assert TrackBusy(c, s1) && TrackStep(c, s1) == s2;
    }
    assert TrackLoop(c, s1) == s2;
    assert DropBelow(s2.detections, id) == map[];
  }

  /** Tracking one frame with its detections: its early face answer sends it on to recognition at once. */
  function Sent(c: Config, s: State, id: int, boxes: seq<Box>): State
  {
    var calls := s.trackerCalls + [TrackerCall(id, boxes)];
    s.(frames := map[], detections := map[], queuedProbes := map[], earlyFaces := map[], trackerCalls := calls, nextTracker := id + 1,
       nextCommit := if s.nextCommit < 0 then id else s.nextCommit,
       latestRecognition := Later(s.latestRecognition, id),
       recognitionTasks := s.recognitionTasks + [Task(id, Image(id), c.tracker(calls))])
  }

  /** The tracked frame with its probe answered: no face was found. */
  function Tracked1(id: int, tracks: seq<Box>): FaceFrame { FaceFrame(Image(id), tracks, {}, [[]], true) }

  lemma NoFaceApplied(f: Face.Config, tracks: seq<Box>, id: int)
    ensures Face.Applied(f, tracks, [[]], id) == tracks
  {
    var none: seq<seq<FaceObservation>> := [[]];
    assert none[..0] == [];
    assert Face.Sorted([]) == [];
    assert Face.Applied(f, tracks, [], id) == tracks;
  }

  /** A frame is ready: it waits with its detections, its probe is out and answered early. */
  predicate Ready(s: State, id: int, boxes: seq<Box>)
  {
    && s.frames == map[id := Image(id)]
    && s.detections == map[id := boxes]
    && s.queuedProbes == map[id := {FullProbe(id)}]
    && s.earlyFaces == map[id := [NoFaces(id)]]
    && s.faceFrames == map[]
    && s.nextTracker == id >= 0
  }

  lemma AnsweredEarly(pending: FaceFrame, id: int)
    requires pending.probes == {FullProbe(id)}
    ensures ReceivedEarly(pending, [NoFaces(id)]) == pending.(probes := {}, results := pending.results + [[]])
  {
    var one := [NoFaces(id)];
    assert one[..0] == [];
    assert ReceivedEarly(pending, []) == pending;
    assert pending.probes - {FullProbe(id)} == {};
  }

  lemma ProcessOne(c: Config, s: State, id: int, boxes: seq<Box>)
    requires c.EarlyProbes() && Ready(s, id, boxes)
    ensures var calls := s.trackerCalls + [TrackerCall(id, boxes)];
      ProcessFrame(c, s, Image(id), boxes)
      == s.(trackerCalls := calls, nextCommit := if s.nextCommit < 0 then id else s.nextCommit, queuedProbes := map[], earlyFaces := map[],
            faceFrames := map[id := Tracked1(id, c.tracker(calls))],
            latestRecognition := Later(s.latestRecognition, id),
            recognitionTasks := s.recognitionTasks + [Task(id, Image(id), c.tracker(calls))])
  {
    var calls := s.trackerCalls + [TrackerCall(id, boxes)];
    var tracks := c.tracker(calls);
    var (s1, pending, tasks) := Tracked(c, s, Image(id), boxes);
    assert pending == FaceFrame(Image(id), tracks, {FullProbe(id)}, [], false) && tasks == [];
    assert s1.queuedProbes == map[] && s1.earlyFaces - {id} == map[];
    AnsweredEarly(pending, id);
    var answered := ReceivedEarly(pending, s.earlyFaces[id]);
    assert answered == FaceFrame(Image(id), tracks, {}, [[]], false);
    NoFaceApplied(c.Face(), tracks, id);
    hide Face.Applied, ReceivedEarly, Tracked;
    var s2 := s1.(earlyFaces := map[]);
    var s3 := s2.(faceFrames := s2.faceFrames[id := answered]);
    assert QueueRecognition(c, s3, id).faceFrames == map[id := Tracked1(id, tracks)];
  }

  lemma TrackOne(c: Config, s: State, id: int, boxes: seq<Box>)
    requires c.EarlyProbes() && Ready(s, id, boxes)
    ensures DrainTracking(c, s)
         == Sent(c, s, id, boxes).(faceFrames := map[id := Tracked1(id, c.tracker(s.trackerCalls + [TrackerCall(id, boxes)]))])
  {
    ProcessOne(c, s, id, boxes);
    hide ProcessFrame;
    assert TrackBusy(c, s);
    var r := TrackStep(c, s);
    assert r.frames == map[] && r.detections == map[];
    assert r.frames.Keys == {};
    assert !TrackBusy(c, r);
    assert TrackLoop(c, r) == r;
    hide TrackStep, TrackBusy;
    assert TrackLoop(c, s) == r;
    assert DropBelow(r.detections, r.nextTracker) == map[];
  }

  lemma FaceLeaves(c: Config, s: State, id: int, tracks: seq<Box>)
    requires s.faceFrames == map[id := Tracked1(id, tracks)]
    ensures DrainFaces(c, s, s.faceFrames.Keys) == s.(faceFrames := map[])
  {
    OnlyKey(id);
    assert s.faceFrames.Keys == {id};
    var r := DrainFace(c, s, id);
    assert r == s.(faceFrames := s.faceFrames - {id}) && s.faceFrames - {id} == map[];
    assert {id} - {id} == {};
    assert DrainFaces(c, s, {id}) == DrainFaces(c, r, {});
  }

  lemma TrimNothing(c: Config, s: State)
    requires |s.frames| <= c.limit && |s.detections| <= c.limit && |s.queuedProbes| <= c.limit && |s.earlyFaces| <= c.limit
    requires |s.faceFrames| <= c.limit && |s.recognitions| <= c.limit && |s.identities| <= c.limit
    ensures Trim(c, s) == s
  {
    assert TrimFaces(s, c.limit) == s;
  }

  lemma FewAnswers(s: State, b: int)
    requires Bounded(s, b)
    ensures |s.recognitions| <= 1 && |s.identities| <= 1
  {
    assert |s.recognitions| == |s.recognitions.Keys| && |s.identities| == |s.identities.Keys|;
  }

  lemma ProbeDrain(c: Config, s: State, id: int, b: int)
    requires c.EarlyProbes() && c.limit >= 1 && Rested(s) && Bounded(s, b) && id >= 0 && s.nextTracker <= id
    ensures DrainReady(c, s.(frames := map[id := Image(id)])) == Answered(c, Probed(s, id))
    ensures Keeps(Probed(s, id), Answered(c, Probed(s, id)))
  {
    hide DrainProbes, DrainTracking, DrainRecognition, DrainCommit, Bounded, CaughtUp, Trim;
    var s1, m := s.(frames := map[id := Image(id)]), Probed(s, id);
    ProbeOne(c, s1, id);
    TrackNone(c, DrainProbes(c, s1), id);
    assert m.faceFrames.Keys == {};
    AnsweredKeeps(c, m);
    ProbedKeeps(s, id, b);
    var r := Answered(c, m);
    FewAnswers(r, b);
    assert Drained(c, s1) == r;
    TrimNothing(c, r);
  }

  lemma TrackDrain(c: Config, s: State, id: int, boxes: seq<Box>, b: int)
    requires c.EarlyProbes() && c.limit >= 1 && Ready(s, id, boxes) && Bounded(Sent(c, s, id, boxes), b)
    ensures DrainReady(c, s) == Answered(c, Sent(c, s, id, boxes))
    ensures Keeps(Sent(c, s, id, boxes), Answered(c, Sent(c, s, id, boxes)))
    ensures CaughtUp(c, Answered(c, Sent(c, s, id, boxes)))
  {
    var m := Sent(c, s, id, boxes);
    var tracks := c.tracker(s.trackerCalls + [TrackerCall(id, boxes)]);
    OnlyKey(id);
    assert s.frames.Keys == {id} && {id} - {id} == {};
    assert DrainProbes(c, s) == s by {
      assert ProbeEarly(s, id) == s;
      assert ProbeEarlyAll(s, {id}) == ProbeEarlyAll(s, {});
    }
    TrackOne(c, s, id, boxes);
    var t := DrainTracking(c, s);
    FaceLeaves(c, t, id, tracks);
    assert t.(faceFrames := map[]) == m;
    hide DrainProbes, DrainTracking, DrainFaces;
    AnsweredKeeps(c, m);
    var r := Answered(c, m);
    FewAnswers(r, b);
    assert Drained(c, s) == r;
    hide DrainRecognition, DrainCommit, Bounded;
    TrimNothing(c, r);
  }

  lemma IdleDrain(c: Config, s: State, b: int)
    requires c.limit >= 1 && Rested(s) && Bounded(s, b)
    ensures DrainReady(c, s) == Answered(c, s) && Keeps(s, Answered(c, s)) && CaughtUp(c, Answered(c, s))
  {
    assert s.frames.Keys == {} && s.detections.Keys == {} && s.faceFrames.Keys == {};
    assert DrainProbes(c, s) == s;
    assert !TrackBusy(c, s) && SeedTracker(s) == s;
    assert TrackLoop(c, s) == s;
    assert DropBelow(s.detections, s.nextTracker) == map[];
    assert DrainTracking(c, s) == s;
    hide DrainProbes, DrainTracking;
    AnsweredKeeps(c, s);
    var r := Answered(c, s);
    FewAnswers(r, b);
    assert Drained(c, s) == r;
    hide DrainRecognition, DrainCommit, Bounded;
    TrimNothing(c, r);
  }

  /** One frame comes, is probed, joined with its detections, and sent on. */
  function Cycled(c: Config, s: State, id: int, boxes: seq<Box>): State
  {
    var s1 := DrainReady(c, PushFrame(s, Image(id)));
    DrainReady(c, PushFace(c, PushDetection(s1, id, boxes), NoFaces(id)))
  }

  /** What a cycle does. */
  ghost predicate Advanced(c: Config, s: State, r: State, id: int, boxes: seq<Box>)
  {
    && Rested(r)
    && Bounded(r, id + 1)
    && CaughtUp(c, r)
    && r.nextTracker == id + 1
    && r.nextCommit >= 0
    && r.latestRecognition == id
    && r.trackerCalls == s.trackerCalls + [TrackerCall(id, boxes)]
    && r.recognitionTasks == s.recognitionTasks + [Task(id, Image(id), c.tracker(r.trackerCalls))]
    && NothingLost(s, r)
    && NothingPassed(s, r, id)
  }

  /** Whatever was handed on, heard or owed still is. */
  ghost predicate NothingLost(s: State, r: State)
  {
    && s.identityTasks <= r.identityTasks
    && (s.nextRecognition >= 0 ==> r.nextRecognition >= 0)
    && (s.nextCommit >= 0 ==> r.nextCommit >= 0)
    && (forall k :: Heard(s, k) ==> Heard(r, k))
    && (s.nextCommit >= 0 ==> forall k, x :: Owed(s, k, x) ==> Owed(r, k, x))
    && (Silent(s) ==> Silent(r))
  }

  /** The cursors that had not passed a frame before a cycle for it have not passed it after. */
  predicate NothingPassed(s: State, r: State, id: int)
  {
    (Calm(s, id) ==> Calm(r, id)) && (Quiet(s, id) ==> Quiet(r, id))
  }

  lemma KeptIsNotPassed(s: State, r: State, id: int)
    requires Keeps(s, r)
    ensures NothingPassed(s, r, id)
  {
    hide Heard, Owed, Bounded, Calm, Quiet;
  }

  lemma KeptIsNotLost(s: State, r: State)
    requires Keeps(s, r)
    ensures NothingLost(s, r)
  {
    hide Heard, Owed, Bounded, Silent, Calm, Quiet;
  }

  lemma NothingLostOn(s: State, mid: State, r: State)
    requires NothingLost(s, mid) && NothingLost(mid, r)
    ensures NothingLost(s, r)
  {
    hide Heard, Owed, Silent;
  }

  /** After its probe is out, a frame gets its detections and its answer. */
  function Joined(s: State, id: int, boxes: seq<Box>): State
  {
    s.(detections := map[id := boxes], earlyFaces := map[id := [NoFaces(id)]])
  }

  lemma JoinsUp(c: Config, s: State, id: int, boxes: seq<Box>)
    requires c.EarlyProbes() && s.nextTracker == id >= 0 && s.nextCommit <= id
    requires s.detections == map[] && s.earlyFaces == map[] && s.faceFrames == map[]
    ensures PushFace(c, PushDetection(s, id, boxes), NoFaces(id)) == Joined(s, id, boxes)
  {
    var early: seq<FaceResult> := [];
    assert early + [NoFaces(id)] == [NoFaces(id)];
  }

  lemma SentKeeps(c: Config, s: State, id: int, boxes: seq<Box>, b: int)
    requires Ready(s, id, boxes) && Bounded(s, b) && b <= id
    ensures var m := Sent(c, s, id, boxes);
      Bounded(m, id + 1) && NothingLost(s, m) && NothingPassed(s, m, id)
  {
  }

  lemma ProbedKeeps(s: State, id: int, b: int)
    requires Bounded(s, b)
    ensures Bounded(Probed(s, id), b) && NothingLost(s, Probed(s, id)) && NothingPassed(s, Probed(s, id), id)
  {
  }

  lemma JoinedKeeps(s: State, id: int, boxes: seq<Box>, b: int)
    requires Bounded(s, b)
    ensures Bounded(Joined(s, id, boxes), b) && NothingLost(s, Joined(s, id, boxes)) && NothingPassed(s, Joined(s, id, boxes), id)
  {
  }

  /** The first half of a cycle. */
  function Awaiting(c: Config, s: State, id: int, boxes: seq<Box>): State
  {
    PushFace(c, PushDetection(DrainReady(c, PushFrame(s, Image(id))), id, boxes), NoFaces(id))
  }

  lemma HalfCycle(c: Config, s: State, id: int, boxes: seq<Box>, b: int)
    requires c.EarlyProbes() && c.limit >= 1 && Rested(s) && Bounded(s, b) && s.nextTracker <= id && b <= id
    ensures var r := Awaiting(c, s, id, boxes);
      && Ready(r, id, boxes)
      && Bounded(r, b)
      && NothingLost(s, r)
      && NothingPassed(s, r, id)
      && r.latestRecognition == s.latestRecognition
      && r.trackerCalls == s.trackerCalls
      && r.recognitionTasks == s.recognitionTasks
  {
    assert PushFrame(s, Image(id)) == s.(frames := map[id := Image(id)]);
    ProbeDrain(c, s, id, b);
    var p := Probed(s, id);
    var r1 := Answered(c, p);
    ProbedKeeps(s, id, b);
    KeptIsNotLost(p, r1);
    KeptIsNotPassed(p, r1, id);
    assert Bounded(r1, b);
    JoinsUp(c, r1, id, boxes);
    JoinedKeeps(r1, id, boxes, b);
    hide NothingLost, Answered, DrainReady, Bounded, Heard, Owed, Calm, Quiet;
    NothingLostOn(s, p, r1);
    NothingLostOn(s, r1, Joined(r1, id, boxes));
  }

  lemma SentFields(c: Config, s: State, id: int, boxes: seq<Box>, b: int)
    requires Ready(s, id, boxes) && Bounded(s, b) && b <= id
    ensures var m := Sent(c, s, id, boxes);
      && Rested(m)
      && m.nextTracker == id + 1
      && m.nextCommit >= 0
      && m.latestRecognition == id
      && m.trackerCalls == s.trackerCalls + [TrackerCall(id, boxes)]
      && m.recognitionTasks == s.recognitionTasks + [Task(id, Image(id), c.tracker(m.trackerCalls))]
  {
  }

  /** The answer stages leave what lies before them. */
  lemma KeptFields(m: State, r: State, b: int)
    requires Keeps(m, r) && Rested(m) && Bounded(m, b) && m.nextCommit >= 0
    ensures Rested(r) && Bounded(r, b) && r.nextCommit >= 0
    ensures r.nextTracker == m.nextTracker && r.latestRecognition == m.latestRecognition
    ensures r.trackerCalls == m.trackerCalls && r.recognitionTasks == m.recognitionTasks
  {
    hide Heard, Owed, Bounded;
  }

  lemma OtherHalf(c: Config, s: State, id: int, boxes: seq<Box>, b: int)
    requires c.EarlyProbes() && c.limit >= 1 && Ready(s, id, boxes) && Bounded(s, b) && b <= id
    ensures Advanced(c, s, DrainReady(c, s), id, boxes)
  {
    hide DrainReady, Answered, Keeps, Heard, Owed, NothingLost, Rested, Ready, CaughtUp, Calm, Quiet, Silent;
    var m := Sent(c, s, id, boxes);
    SentKeeps(c, s, id, boxes, b);
    SentFields(c, s, id, boxes, b);
    hide Bounded;
    TrackDrain(c, s, id, boxes, id + 1);
    hide Sent;
    var r := Answered(c, m);
    KeptFields(m, r, id + 1);
    KeptIsNotLost(m, r);
    KeptIsNotPassed(m, r, id);
    NothingLostOn(s, m, r);
  }

  lemma CycleAdvances(c: Config, s: State, id: int, boxes: seq<Box>, b: int)
    requires c.EarlyProbes() && c.limit >= 1 && Rested(s) && Bounded(s, b) && s.nextTracker <= id && b <= id
    ensures Advanced(c, s, Cycled(c, s, id, boxes), id, boxes)
  {
    HalfCycle(c, s, id, boxes, b);
    var s2 := Awaiting(c, s, id, boxes);
    OtherHalf(c, s2, id, boxes, b);
    hide DrainReady, Bounded, Heard, Owed, NothingLost, Ready, Calm, Quiet, Rested, CaughtUp;
    NothingLostOn(s, s2, DrainReady(c, s2));
  }

  /** What the first recognition answer brings about. */
  predicate FirstTask(s: State, t: Task)
  {
    s.identityTasks != [] && s.identityTasks[0] == t && s.recognitions == map[] && s.nextRecognition >= 0
  }

  lemma TaskStays(s: State, r: State, t: Task)
    requires Keeps(s, r) && FirstTask(s, t)
    ensures FirstTask(r, t)
  {
    assert Calm(s, Later(s.nextRecognition, s.latestRecognition));
    hide Heard, Owed, Bounded, Quiet, Silent;
  }

  lemma FirstStep(c: Config, s: State, k: int, a: Answer)
    requires s.recognitions == map[k := a] && s.nextRecognition == k >= 0 && s.identityTasks == [] && a.frame.Some?
    ensures RecognitionBusy(c, s) && FirstTask(RecognitionStep(s), Task(a.frameId, a.frame.value, a.tracks))
  {
    HandOnFields(s, k);
    var r := RecognitionStep(s);
    hide RecognitionStep;
    assert r.recognitions == map[];
    assert r.identityTasks == [Task(a.frameId, a.frame.value, a.tracks)];
  }

  /** The first recognition answer goes straight to the identity stage. */
  lemma FirstHeard(c: Config, s: State, k: int, a: Answer)
    requires s.recognitions == map[k := a] && k >= 0 && Silent(s.(recognitions := map[]))
    requires a.frame.Some? && a.frameId == k
    ensures FirstTask(Answered(c, s), Task(k, a.frame.value, a.tracks))
  {
    OnlyKey(k);
    assert s.recognitions.Keys == {k};
    var s1, t := s.(nextRecognition := k), Task(k, a.frame.value, a.tracks);
    assert SeedRecognition(s) == s1;
    FirstStep(c, s1, k, a);
    hide RecognitionStep, RecognitionBusy, Keeps, FirstTask, SeedRecognition;
    var s2, s3 := RecognitionStep(s1), RecognitionLoop(c, s1);
    assert s3 == RecognitionLoop(c, s2);
    RecognitionLoopKeepsAll(c, s2);
    TaskStays(s2, s3, t);
    hide RecognitionLoop;
    var s4 := DrainRecognition(c, s);
    DropRecognitionsKeeps(s3);
    TaskStays(s3, s4, t);
    hide DrainRecognition;
    CommitDrainKeeps(c, s4);
    TaskStays(s4, DrainCommit(c, s4), t);
  }

  lemma CommitDrainKeeps(c: Config, s: State)
    ensures Keeps(s, DrainCommit(c, s))
  {
    hide Keeps, CommitLoop;
    var s1 := SeedCommit(s);
    SeedKeeps(s);
    CommitLoopKeepsAll(c, s1);
    var s2 := CommitLoop(c, s1);
    KeepsOn(s, s1, s2);
    DropIdentitiesKeeps(s2);
    KeepsOn(s, s2, DrainCommit(c, s));
  }

  // ---------------------------------------------------------------- runs of the whole chain

  lemma AfterOne(p: Setup, start: Chain, run: seq<Event>, e: Event)
    ensures After(p, start, run + [e])
         == if Enabled(p, After(p, start, run), e) then Step(p, After(p, start, run), e) else After(p, start, run)
  {
    assert (run + [e])[..|run|] == run;
  }

  lemma InputRun(p: Setup, start: Chain, run: seq<Event>, x: Safety.Event) returns (more: seq<Event>)
    requires IsInput(x)
    ensures After(p, start, more) == After(p, start, run).(s := Safety.Step(p.c, After(p, start, run).s, x))
  {
    more := run + [Input(x)];
    AfterOne(p, start, run, Input(x));
  }

  lemma CycleRun(p: Setup, start: Chain, run: seq<Event>, id: int, boxes: seq<Box>) returns (more: seq<Event>)
    ensures After(p, start, more) == After(p, start, run).(s := Cycled(p.c, After(p, start, run).s, id, boxes))
  {
    hide DrainReady, PushFrame, PushFace, PushDetection;
    more := InputRun(p, start, run, Safety.FramePushed(Image(id)));
    more := InputRun(p, start, more, Safety.DrainCalled);
    more := InputRun(p, start, more, Safety.DetectionPushed(id, boxes));
    more := InputRun(p, start, more, Safety.FacePushed(NoFaces(id)));
    more := InputRun(p, start, more, Safety.DrainCalled);
  }

  /** An idle worker is at hand, and no network has judged anybody yet. */
  predicate Unjudged(z: Chain)
  {
    z.world.workers != [] && z.world.workers[0].Idle? && z.world.log == {}
  }

  /** What a task's recognizer leaves behind when it throws. */
  function Thrown(t: Task): Answer
  {
    Answer(t.frameId, Some(Frame(t.frameId, t.frame.infEmpty)), FailedTracks(t.tracks))
  }

  /** A task is taken, its recognizer throws, and its answer arrives. */
  lemma ThrownRun(p: Setup, start: Chain, run: seq<Event>, i: nat) returns (more: seq<Event>)
    requires var z := After(p, start, run); Unjudged(z) && i < |z.s.recognitionTasks|
    ensures var z, r := After(p, start, run), After(p, start, more);
      var a := Thrown(z.s.recognitionTasks[i]);
      && Unjudged(r)
      && r.s == PushRecognition(z.s, a)
      && r.decided == z.decided
  {
    var z := After(p, start, run);
    var t := z.s.recognitionTasks[i];
    AfterOne(p, start, run, Taken(0, i));
    var z1 := After(p, start, run + [Taken(0, i)]);
    assert z1.world.workers[0] == W.Working(JobOf(p, t), t.tracks, 0, W.Looking);
    AfterOne(p, start, run + [Taken(0, i)], RecognizerThrew(0));
    more := run + [Taken(0, i)] + [RecognizerThrew(0)];
    var z2 := After(p, start, more);
    assert z2.recognised == z.recognised + [Thrown(t)] && z2.s == z.s;
    AfterOne(p, start, more, RecognitionArrives(|z.recognised|));
    more := more + [RecognitionArrives(|z.recognised|)];
  }

  /** An identity task is decided, and its answer arrives. */
  lemma DecidedRun(p: Setup, start: Chain, run: seq<Event>, i: nat) returns (more: seq<Event>)
    requires var z := After(p, start, run); i < |z.s.identityTasks|
    ensures var z, r := After(p, start, run), After(p, start, more);
      var t := z.s.identityTasks[i];
      && r.world == z.world
      && r.s == PushIdentity(z.s, Answer(t.frameId, Some(t.frame), I.DecidedTracks(p.decider, true, t.tracks)))
  {
    hide After, PushIdentity;
    var z := After(p, start, run);
    AfterOne(p, start, run, Decided(i, true));
    DecidedStep(p, z, i);
    more := run + [Decided(i, true)];
    var decided := After(p, start, more);
    AfterOne(p, start, more, IdentityArrives(|z.decided|));
    ArrivedStep(p, decided, |z.decided|);
    more := more + [IdentityArrives(|z.decided|)];
    hide Step, Enabled;
  }

  lemma DecidedStep(p: Setup, z: Chain, i: nat)
    requires i < |z.s.identityTasks|
    ensures Enabled(p, z, Decided(i, true))
    ensures var t := z.s.identityTasks[i];
      Step(p, z, Decided(i, true)) == z.(decided := z.decided + [Answer(t.frameId, Some(t.frame), I.DecidedTracks(p.decider, true, t.tracks))])
  {
  }

  lemma ArrivedStep(p: Setup, z: Chain, i: nat)
    requires i < |z.decided|
    ensures Enabled(p, z, IdentityArrives(i))
    ensures Step(p, z, IdentityArrives(i)) == z.(s := PushIdentity(z.s, z.decided[i]))
  {
    hide PushIdentity;
  }

  /** The frames of these calls were tracked and sent to recognition, and nothing came back yet. */
  ghost predicate Called(p: Setup, s: State, calls: seq<TrackerCall>, b: int)
  {
    && Rested(s)
    && Bounded(s, b)
    && Silent(s)
    && Quiet(s, b - 1)
    && s.nextTracker <= b
    && s.trackerCalls == calls
    && |s.recognitionTasks| == |calls|
    && (calls == [] ==> b == 0)
    && (calls != [] ==>
          var last := calls[|calls| - 1].frameId;
          && b == last + 1
          && s.nextCommit >= 0
          && s.recognitionTasks[|calls| - 1] == Task(last, Image(last), p.c.tracker(calls)))
  }

  lemma OneMoreCalled(p: Setup, s: State, calls: seq<TrackerCall>, b: int, x: TrackerCall)
    requires p.c.EarlyProbes() && p.c.limit >= 1 && Called(p, s, calls, b) && b <= x.frameId
    ensures Called(p, Cycled(p.c, s, x.frameId, x.detections), calls + [x], x.frameId + 1)
  {
    hide Cycled, Bounded, Heard, Owed, CaughtUp, Rested, Silent;
    var id := x.frameId;
    CycleAdvances(p.c, s, id, x.detections, b);
    var r := Cycled(p.c, s, id, x.detections);
    assert Quiet(s, id);
    assert (calls + [x])[|calls|] == x;
  }

  lemma CalledBound(p: Setup, s: State, calls: seq<TrackerCall>, b: int)
    requires calls != [] && Realizable(calls) && Called(p, s, calls[..|calls| - 1], b)
    ensures b <= calls[|calls| - 1].frameId && Realizable(calls[..|calls| - 1])
  {
  }

  /** Any calls the tracker can see at all, it sees in some run. */
  lemma {:induction false} CallsRun(p: Setup, start: Chain, calls: seq<TrackerCall>) returns (run: seq<Event>, b: int)
    requires Initial(p, start) && p.c.EarlyProbes() && p.c.limit >= 1 && Realizable(calls)
    ensures After(p, start, run) == start.(s := After(p, start, run).s) && Called(p, After(p, start, run).s, calls, b)
  {
    hide Cycled;
    if calls == [] {
      run, b := [], 0;
    } else {
      hide Called, After;
      var n := |calls| - 1;
      var before;
      before, b := CallsRun(p, start, calls[..n]);
      assert calls == calls[..n] + [calls[n]];
      assert b <= calls[n].frameId by { CalledBound(p, After(p, start, before).s, calls, b); }
      run := CycleRun(p, start, before, calls[n].frameId, calls[n].detections);
      OneMoreCalled(p, After(p, start, before).s, calls[..n], b, calls[n]);
      b := calls[n].frameId + 1;
    }
  }

  // ---------------------------------------------------------------- from a call to a commit

  /** The last tracked frame's recognizer threw, and its answer was drained. */
  ghost predicate Failed(p: Setup, s: State, calls: seq<TrackerCall>, k: int)
  {
    && Rested(s)
    && Bounded(s, k + 1)
    && Quiet(s, k)
    && s.nextTracker <= k + 1
    && s.nextCommit >= 0
    && FirstTask(s, Task(k, Image(k), FailedTracks(p.c.tracker(calls))))
  }

  lemma FailureArrives(p: Setup, s: State, calls: seq<TrackerCall>, b: int)
    requires calls != [] && Called(p, s, calls, b)
    ensures var k, a := b - 1, Thrown(s.recognitionTasks[|calls| - 1]);
      var r := PushRecognition(s, a);
      && k >= 0
      && a == Answer(k, Some(Image(k)), FailedTracks(p.c.tracker(calls)))
      && r.recognitions == map[k := a]
      && r.(recognitions := map[]) == s
      && r.nextTracker <= b
      && r.nextCommit >= 0
      && Bounded(r, b)
      && Quiet(r, k)
      && Rested(r)
  {
    var k, a := b - 1, Thrown(s.recognitionTasks[|calls| - 1]);
    var r := s.(recognitions := map[k := a]);
    assert PushRecognition(s, a) == r;
    assert r.recognitions.Keys == {k};
  }

  lemma DrainsFailed(p: Setup, s: State, calls: seq<TrackerCall>, b: int)
    requires p.c.limit >= 1 && calls != [] && Called(p, s, calls, b)
    ensures var k := b - 1;
      var a := Thrown(s.recognitionTasks[|calls| - 1]);
      k >= 0 && a.frameId == k && Failed(p, DrainReady(p.c, PushRecognition(s, a)), calls, k)
  {
    hide PushRecognition, DrainReady, Answered, Rested, Bounded, Quiet, FirstTask, Keeps, FailedTracks, CaughtUp, Thrown;
    FailureArrives(p, s, calls, b);
    var k, a := b - 1, Thrown(s.recognitionTasks[|calls| - 1]);
    hide Called;
    var s1 := PushRecognition(s, a);
    assert Silent(s1.(recognitions := map[])) by {
      CalledIsSilent(p, s, calls, b);
    }
    IdleDrain(p.c, s1, b);
    FirstHeard(p.c, s1, k, a);
    var r := Answered(p.c, s1);
    KeptFields(s1, r, b);
    KeptIsNotPassed(s1, r, k);
  }

  lemma CalledIsSilent(p: Setup, s: State, calls: seq<TrackerCall>, b: int)
    requires Called(p, s, calls, b)
    ensures Silent(s)
  {
  }

  /** The decision about that frame waits for its turn. */
  ghost predicate Pending(s: State, k: int, x: Commit)
  {
    && Rested(s)
    && Bounded(s, k + 1)
    && s.nextTracker <= k + 1
    && s.nextCommit >= 0
    && s.nextRecognition >= 0
    && s.recognitions == map[]
    && Owed(s, k, x)
  }

  lemma DecisionPends(p: Setup, s: State, calls: seq<TrackerCall>, k: int, tracks: seq<Box>)
    requires k >= 0 && Failed(p, s, calls, k)
    ensures Pending(PushIdentity(s, Answer(k, Some(Image(k)), tracks)), k, Commit(Image(k), tracks))
  {
    var r := PushIdentity(s, Answer(k, Some(Image(k)), tracks));
    assert r.identities.Keys == {k};
  }

  /** A later frame's answer will push the decision out. */
  ghost predicate Pushing(s: State, k: int, x: Commit, next: int)
  {
    && Rested(s)
    && Bounded(s, next + 1)
    && s.nextTracker <= next + 1
    && s.nextCommit >= 0
    && s.nextRecognition >= 0
    && Heard(s, next)
    && Owed(s, k, x)
  }

  lemma NextFrameComes(p: Setup, s: State, k: int, x: Commit, next: int)
    requires p.c.EarlyProbes() && p.c.limit >= 1 && k >= 0 && Pending(s, k, x) && next > k
    ensures var r := Cycled(p.c, s, next, []);
      && r.recognitionTasks != []
      && Pushing(PushRecognition(r, Thrown(r.recognitionTasks[|r.recognitionTasks| - 1])), k, x, next)
  {
    hide Cycled;
    CycleAdvances(p.c, s, next, [], k + 1);
    var r := Cycled(p.c, s, next, []);
    assert Calm(s, next) && Calm(r, next) && Owed(r, k, x);
    var a := Thrown(r.recognitionTasks[|r.recognitionTasks| - 1]);
    assert a.frameId == next;
    var t := PushRecognition(r, a);
    assert t == r.(recognitions := map[next := a]);
    assert t.recognitions.Keys == {next};
  }

  lemma DecisionComesOut(p: Setup, s: State, k: int, x: Commit, next: int)
    requires p.c.EarlyProbes() && p.c.limit >= 1 && k >= 0 && next == k + p.c.window + 1 && Pushing(s, k, x, next)
    ensures x in Cycled(p.c, s, next + p.c.window + 1, []).commits
  {
    var last := next + p.c.window + 1;
    hide Cycled;
    CycleAdvances(p.c, s, last, [], next + 1);
    var r := Cycled(p.c, s, last, []);
    assert Heard(r, next) && Owed(r, k, x) && CaughtUp(p.c, r);
    assert r.nextRecognition > next;
    assert r.latestIdentity >= next;
    assert r.nextCommit > k;
  }

  /** Up to the identity decision about the last call's frame. */
  lemma DecisionRun(p: Setup, start: Chain, calls: seq<TrackerCall>) returns (run: seq<Event>, k: int)
    requires Initial(p, start) && start.world.workers != [] && p.c.EarlyProbes() && p.c.limit >= 1
    requires calls != [] && Realizable(calls)
    ensures var z := After(p, start, run);
      var tracks := I.DecidedTracks(p.decider, true, FailedTracks(p.c.tracker(calls)));
      k >= 0 && Unjudged(z) && Pending(z.s, k, Commit(Image(k), tracks))
  {
    hide After, Called, Failed, Pending, DrainReady, FirstTask;
    var b;
    run, b := CallsRun(p, start, calls);
    var z := After(p, start, run);
    assert Unjudged(z) && |z.s.recognitionTasks| == |calls| by {
      CalledTasks(p, z.s, calls, b);
    }
    DrainsFailed(p, z.s, calls, b);
    k := b - 1;
    run := ThrownRun(p, start, run, |calls| - 1);
    run := InputRun(p, start, run, Safety.DrainCalled);
    var y := After(p, start, run);
    assert Failed(p, y.s, calls, k);
    FailedTask(p, y.s, calls, k);
    run := DecidedRun(p, start, run, 0);
    DecisionPends(p, y.s, calls, k, I.DecidedTracks(p.decider, true, FailedTracks(p.c.tracker(calls))));
  }

  lemma CalledTasks(p: Setup, s: State, calls: seq<TrackerCall>, b: int)
    requires Called(p, s, calls, b)
    ensures |s.recognitionTasks| == |calls|
  {
  }

  lemma FailedTask(p: Setup, s: State, calls: seq<TrackerCall>, k: int)
    requires Failed(p, s, calls, k)
    ensures s.identityTasks != [] && s.identityTasks[0] == Task(k, Image(k), FailedTracks(p.c.tracker(calls)))
  {
  }

  /** On to its commit, by way of two later frames. */
  lemma CommitRun(p: Setup, start: Chain, before: seq<Event>, k: int, x: Commit) returns (run: seq<Event>)
    requires p.c.EarlyProbes() && p.c.limit >= 1 && k >= 0
    requires Unjudged(After(p, start, before)) && Pending(After(p, start, before).s, k, x)
    ensures Unjudged(After(p, start, run)) && x in After(p, start, run).s.commits
  {
    hide After, Cycled, Pending, Pushing;
    var next := k + p.c.window + 1;
    NextFrameComes(p, After(p, start, before).s, k, x, next);
    run := CycleRun(p, start, before, next, []);
    run := ThrownRun(p, start, run, |After(p, start, run).s.recognitionTasks| - 1);
    DecisionComesOut(p, After(p, start, run).s, k, x, next);
    run := CycleRun(p, start, run, next + p.c.window + 1, []);
  }

  /** Every box shown on any run has earned it. */
  ghost predicate OnlyEarnedShown(p: Setup, start: Chain)
  {
    forall run: seq<Event>, i: nat, t: nat ::
      i < |After(p, start, run).s.commits| && t < |After(p, start, run).s.commits[i].tracks| ==> ShownRightly(p, After(p, start, run), i, t)
  }

  ghost predicate ShownRightly(p: Setup, z: Chain, i: nat, t: nat)
    requires i < |z.s.commits| && t < |z.s.commits[i].tracks|
  {
    var b := z.s.commits[i].tracks[t];
    b.privacyAction != ANONYMIZE ==>
      && p.decider == I.Passthrough
      && b.identityKey != ""
      && Justified(EvidenceOf(p, z), z.s.commits[i].frame.id, b.id, b.identityKey, b.identityConfidence)
  }

  /** A harmful answer of the tracker, to any calls it can see, is shown in some run without a judgement of anybody. */
  lemma OpenTrackerLeaks(p: Setup, start: Chain, calls: seq<TrackerCall>, t: nat) returns (run: seq<Event>, i: nat)
    requires Initial(p, start) && start.world.workers != [] && p.c.EarlyProbes() && p.c.limit >= 1 && p.decider == I.Passthrough
    requires calls != [] && Realizable(calls) && t < |p.c.tracker(calls)| && !Harmless(p.c.tracker(calls)[t])
    ensures var z := After(p, start, run);
      i < |z.s.commits| && t < |z.s.commits[i].tracks| && !ShownRightly(p, z, i, t)
  {
    var k;
    run, k := DecisionRun(p, start, calls);
    var tracks := I.DecidedTracks(p.decider, true, FailedTracks(p.c.tracker(calls)));
    var x := Commit(Image(k), tracks);
    run := CommitRun(p, start, run, k, x);
    hide After;
    var z := After(p, start, run);
    i :| i < |z.s.commits| && z.s.commits[i] == x;
    assert tracks[t].privacyAction != ANONYMIZE;
    assert EvidenceOf(p, z).log == {};
  }

  /**
    With probes sent ahead of tracking, a recognizer worker and the passthrough decider, only earned
    identities are shown on every run exactly if the tracker is closed; without such probes they
    always are.
  */
  lemma OnlyEarnedIff(p: Setup, start: Chain)
    requires Initial(p, start) && start.world.workers != [] && p.c.limit >= 1 && p.decider == I.Passthrough
    ensures OnlyEarnedShown(p, start) <==> ClosedTracker(p.c)
  {
    hide After, ShownRightly, Harmless, Realizable;
    if ClosedTracker(p.c) {
      forall run: seq<Event>, i: nat, t: nat | i < |After(p, start, run).s.commits| && t < |After(p, start, run).s.commits[i].tracks|
        ensures ShownRightly(p, After(p, start, run), i, t)
      {
        ClosedIsShownRightly(p, start, run, i, t);
      }
    } else {
      var calls :| calls != [] && Realizable(calls) && !AllHarmless(p.c.tracker(calls));
      var t: nat :| t < |p.c.tracker(calls)| && !Harmless(p.c.tracker(calls)[t]);
      var run, i := OpenTrackerLeaks(p, start, calls, t);
    }
  }

  lemma ClosedIsShownRightly(p: Setup, start: Chain, run: seq<Event>, i: nat, t: nat)
    requires Initial(p, start) && ClosedTracker(p.c)
    requires i < |After(p, start, run).s.commits| && t < |After(p, start, run).s.commits[i].tracks|
    ensures ShownRightly(p, After(p, start, run), i, t)
  {
    OnlyEarnedIdentitiesAreShown(p, start, run, i, t);
    hide After;
  }
}
