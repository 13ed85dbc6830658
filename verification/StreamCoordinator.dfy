/**
  The coordinator as the source writes it: an object whose methods update its maps, cursors and
  high-water marks in loops. Every method is proved equal to its function in `Coordinator`.
*/
module StreamCoordinators {
  import opened Types
  import opened Coordinator
  import opened CoordinatorBoxes
  import FacePolicy

  class StreamCoordinator {
    const config: Config

    var nextTracker: int
    var nextRecognition: int
    var nextCommit: int
    var latestFace: int
    var latestRecognition: int
    var latestIdentity: int

    var frames: map<int, Frame>
    var detections: map<int, seq<Box>>
    var queuedProbes: map<int, set<ProbeId>>
    var earlyFaces: map<int, seq<FaceResult>>
    var faceFrames: map<int, FaceFrame>
    var recognitions: map<int, Answer>
    var identities: map<int, Answer>

    // The calls made so far on the tracker and on each callback.
    var trackerCalls: seq<TrackerCall>
    var faceTasks: seq<FaceTask>
    var recognitionTasks: seq<Task>
    var identityTasks: seq<Task>
    var commits: seq<Commit>

    ghost function Now(): State
      reads this
    {
      State(nextTracker, nextRecognition, nextCommit, latestFace, latestRecognition, latestIdentity,
            frames, detections, queuedProbes, earlyFaces, faceFrames, recognitions, identities,
            trackerCalls, faceTasks, recognitionTasks, identityTasks, commits)
    }

    /** A negative window counts as 0 and a limit of 0 as 1. */
    constructor (faceEnabled: bool, independent: bool, reorderWindow: int, pendingLimit: nat, minFaceScore: real,
                 tracker: seq<TrackerCall> -> seq<Box>)
      ensures config == Config(faceEnabled, independent, Later(0, reorderWindow), Later(1, pendingLimit), minFaceScore, tracker)
      ensures Now() == INITIAL
    {
      config := Config(faceEnabled, independent, Later(0, reorderWindow), Later(1, pendingLimit), minFaceScore, tracker);
      nextTracker, nextRecognition, nextCommit := -1, -1, -1;
      latestFace, latestRecognition, latestIdentity := -1, -1, -1;
      frames, detections, queuedProbes, earlyFaces, faceFrames := map[], map[], map[], map[], map[];
      recognitions, identities := map[], map[];
      trackerCalls, faceTasks, recognitionTasks, identityTasks, commits := [], [], [], [], [];
    }

    // -------------------------------------------------------------- inputs

    method PushFrame(frame: Frame)
      modifies this
      ensures Now() == Coordinator.PushFrame(old(Now()), frame)
    {
      if nextTracker >= 0 && frame.id < nextTracker {
        return;
      }
      frames := frames[frame.id := frame];
    }

    method PushDetection(id: int, boxes: seq<Box>)
      modifies this
      ensures Now() == Coordinator.PushDetection(old(Now()), id, boxes)
    {
      if nextTracker >= 0 && id < nextTracker {
        return;
      }
      detections := detections[id := boxes];
    }

    method PushFace(result: FaceResult)
      modifies this
      ensures Now() == Coordinator.PushFace(config, old(Now()), result)
    {
      var id := result.frameId;
      if id !in faceFrames {
        if config.independent && (nextCommit < 0 || id >= nextCommit) {
          var earlier := if id in earlyFaces then earlyFaces[id] else [];
          earlyFaces := earlyFaces[id := earlier + [result]];
        }
        return;
      }
      var pending := faceFrames[id];
      if result.probe !in pending.probes {
        return;
      }
      pending := pending.(probes := pending.probes - {result.probe});
      pending := pending.(results := pending.results + [result.faces]);
      faceFrames := faceFrames[id := pending];
    }

    method PushRecognition(answer: Answer)
      modifies this
      ensures Now() == Coordinator.PushRecognition(old(Now()), answer)
    {
      if nextRecognition >= 0 && answer.frameId < nextRecognition {
        return;
      }
      recognitions := recognitions[answer.frameId := answer];
    }

    method PushIdentity(answer: Answer)
      modifies this
      ensures Now() == Coordinator.PushIdentity(old(Now()), answer)
    {
      if nextCommit >= 0 && answer.frameId < nextCommit {
        return;
      }
      identities := identities[answer.frameId := answer];
    }

    // -------------------------------------------------------------- the drain

    method DrainReady()
      modifies this
      ensures Now() == Coordinator.DrainReady(config, old(Now()))
    {
      DrainIndependentFaceProbes();
      DrainTracking();
      DrainFaceReady();
      DrainRecognitionReady();
      DrainCommitReady();
      TrimPending();
    }

    method DrainIndependentFaceProbes()
      modifies this
      ensures Now() == DrainProbes(config, old(Now()))
    {
      if !config.faceEnabled || !config.independent {
        return;
      }
      var todo := frames.Keys;
      ghost var start := Now();
      while todo != {}
        invariant todo <= frames.Keys
        invariant ProbeEarlyAll(Now(), todo) == ProbeEarlyAll(start, start.frames.Keys)
        decreases |todo|
      {
        var id := Least(todo);
        todo := todo - {id};
        ProbeFrame(id);
      }
    }

    method ProbeFrame(id: int)
      requires id in frames
      modifies this
      ensures Now() == ProbeEarly(old(Now()), id)
      ensures frames == old(frames)
    {
      if nextTracker >= 0 && id < nextTracker {
        return;
      }
      if id in queuedProbes {
        return;
      }
      if id in faceFrames {
        return;
      }
      var probes := Planned(frames[id]);
      if probes == [] {
        return;
      }
      queuedProbes := queuedProbes[id := ProbeIds(probes)];
      latestFace := Later(latestFace, id);
      faceTasks := faceTasks + probes;
    }

    method DrainTracking()
      modifies this
      ensures Now() == Coordinator.DrainTracking(config, old(Now()))
    {
      if nextTracker < 0 && frames.Keys != {} {
        nextTracker := Least(frames.Keys);
      }
      TrackPending();
      DropPassedDetections();
    }

    method TrackPending()
      modifies this
      ensures Now() == TrackLoop(config, old(Now()))
    {
      ghost var start := Now();
      while nextTracker >= 0
        invariant TrackLoop(config, Now()) == TrackLoop(config, start)
        decreases |frames|, Gap(Now())
      {
        ghost var before := Now();
        var id := nextTracker;
        if id in frames && id in detections {
          TrackCursor(detections[id]);
          TrackStepShrinks(config, before);
          continue;
        }
        if id !in frames {
          if frames.Keys != {} && Least(frames.Keys) > id {
            nextTracker := Least(frames.Keys);
            TrackStepShrinks(config, before);
            continue;
          }
          break;
        }
        var latestFrame := Greatest(frames.Keys);
        var latestDetection := if detections.Keys == {} then id else Greatest(detections.Keys);
        if Later(latestFrame, latestDetection) - id > config.window {
          TrackCursor([]);
          TrackStepShrinks(config, before);
          continue;
        }
        break;
      }
      assert !TrackBusy(config, Now());
    }

    /** Hands the frame at the cursor over, with these detections, and advances. */
    method TrackCursor(boxes: seq<Box>)
      requires nextTracker in frames
      modifies this
      ensures Now() == TrackNext(config, old(Now()), boxes)
    {
      var id := nextTracker;
      ProcessTrackedFrame(frames[id], boxes);
      frames := frames - {id};
      detections := detections - {id};
      nextTracker := id + 1;
    }

    method DropPassedDetections()
      modifies this`detections
      ensures detections == DropBelow(old(detections), nextTracker)
    {
      while detections.Keys != {} && nextTracker >= 0 && Least(detections.Keys) < nextTracker
        invariant DropBelow(detections, nextTracker) == DropBelow(old(detections), nextTracker)
        decreases |detections|
      {
        RemovalShrinks(detections, Least(detections.Keys));
        detections := detections - {Least(detections.Keys)};
      }
      NothingToDrop(detections, nextTracker);
    }

    /**
      Tracks a frame and puts it down, or hands it on, with the boxes the tracker answered; they are
      anonymized and without faces of other frames if the frame was not probed ahead of tracking.
    */
    method ProcessTrackedFrame(frame: Frame, boxes: seq<Box>)
      modifies this
      ensures Now() == ProcessFrame(config, old(Now()), frame, boxes)
      ensures trackerCalls == old(trackerCalls) + [TrackerCall(frame.id, boxes)] && frame.id in faceFrames
      ensures Keeps(config, config.tracker(trackerCalls), faceFrames[frame.id].tracks)
      ensures !config.EarlyProbes() || frame.id !in old(queuedProbes) ==> Closed(frame.id, faceFrames[frame.id].tracks)
    {
      hide Tracked, ReceivedEarly, StartFaces, Keeps, Closed, CarriedFrame;
      ghost var before := Now();
      ProcessShows(config, before, frame, boxes);
      if !config.EarlyProbes() || frame.id !in queuedProbes {
        ProcessCloses(config, before, frame, boxes);
      }
      var pending, probes := TrackFrame(frame, boxes);
      if frame.id in earlyFaces {
        pending := ConsumeEarly(pending, earlyFaces[frame.id]);
      } else {
        pending := ConsumeEarly(pending, []);
      }
      earlyFaces := earlyFaces - {frame.id};
      StartFaceDetection(pending, probes);
    }

    /** Runs the tracker and decides which probes the frame still needs. */
    method TrackFrame(frame: Frame, boxes: seq<Box>) returns (pending: FaceFrame, probes: seq<FaceTask>)
      modifies this
      ensures (Now(), pending, probes) == Tracked(config, old(Now()), frame, boxes)
      ensures earlyFaces == old(earlyFaces)
    {
      trackerCalls := trackerCalls + [TrackerCall(frame.id, boxes)];
      var tracks := config.tracker(trackerCalls);
      pending := FaceFrame(frame, tracks, {}, [], false);
      probes := [];
      if config.faceEnabled {
        if config.independent && frame.id in queuedProbes {
          pending := pending.(probes := queuedProbes[frame.id]);
          queuedProbes := queuedProbes - {frame.id};
        } else {
          pending := pending.(tracks := FacePolicy.Reset(tracks));
          probes := Planned(frame);
        }
      } else {
        pending := pending.(tracks := FacePolicy.Reset(tracks));
      }
      if nextCommit < 0 {
        nextCommit := frame.id;
      }
    }

    method ConsumeEarly(pending0: FaceFrame, early: seq<FaceResult>) returns (pending: FaceFrame)
      ensures pending == ReceivedEarly(pending0, early)
    {
      pending := pending0;
      for i := 0 to |early|
        invariant pending == ReceivedEarly(pending0, early[..i])
      {
        assert early[..i + 1][..i] == early[..i];
        var r := early[i];
        if r.probe in pending.probes {
          pending := pending.(probes := pending.probes - {r.probe}, results := pending.results + [r.faces]);
        }
      }
      assert early[..|early|] == early;
    }

    method StartFaceDetection(pending: FaceFrame, probes: seq<FaceTask>)
      modifies this
      ensures Now() == StartFaces(config, old(Now()), pending, probes)
    {
      var id := pending.frame.id;
      if probes == [] {
        faceFrames := faceFrames[id := pending];
        if pending.probes == {} {
          QueueRecognition(id);
        }
        return;
      }
      latestFace := Later(latestFace, id);
      faceFrames := faceFrames[id := pending.(probes := pending.probes + ProbeIds(probes))];
      faceTasks := faceTasks + probes;
    }

    method QueueRecognition(id: int)
      requires id in faceFrames
      modifies this
      ensures Now() == Coordinator.QueueRecognition(config, old(Now()), id)
    {
      var pending := faceFrames[id];
      if pending.queued {
        return;
      }
      var tracks;
      ghost var stages, choices;
      tracks, stages, choices := FacePolicy.Apply(pending.tracks, pending.results, pending.frame.id, config.Face());
      latestRecognition := Later(latestRecognition, pending.frame.id);
      faceFrames := faceFrames[id := pending.(tracks := tracks, queued := true)];
      recognitionTasks := recognitionTasks + [Task(pending.frame.id, pending.frame, tracks)];
    }

    method DrainFaceReady()
      modifies this
      ensures Now() == DrainFaces(config, old(Now()), old(faceFrames).Keys)
    {
      var todo := faceFrames.Keys;
      ghost var start := Now();
      while todo != {}
        invariant todo <= faceFrames.Keys
        invariant DrainFaces(config, Now(), todo) == DrainFaces(config, start, start.faceFrames.Keys)
        decreases |todo|
      {
        var id := Least(todo);
        todo := todo - {id};
        DrainOneFace(id);
      }
    }

    method DrainOneFace(id: int)
      requires id in faceFrames
      modifies this
      ensures Now() == DrainFace(config, old(Now()), id)
      ensures old(faceFrames).Keys - {id} <= faceFrames.Keys
    {
      var pending := faceFrames[id];
      var timedOut := pending.probes != {} && latestFace >= 0 && latestFace - id > config.window;
      if !pending.queued && (pending.probes == {} || timedOut) {
        faceFrames := faceFrames[id := pending.(probes := {})];
        QueueRecognition(id);
      }
      if faceFrames[id].queued {
        faceFrames := faceFrames - {id};
      }
    }

    method DrainRecognitionReady()
      modifies this
      ensures Now() == DrainRecognition(config, old(Now()))
    {
      if nextRecognition < 0 && recognitions.Keys != {} {
        nextRecognition := Least(recognitions.Keys);
      }
      PassRecognitions();
      DropPassedRecognitions();
    }

    method PassRecognitions()
      modifies this
      ensures Now() == RecognitionLoop(config, old(Now()))
    {
      ghost var start := Now();
      while nextRecognition >= 0
        invariant RecognitionLoop(config, Now()) == RecognitionLoop(config, start)
        decreases RecognitionMeasure(Now())
      {
        ghost var before := Now();
        if nextRecognition in recognitions {
          PassRecognition();
          RecognitionStepShrinks(config, before);
          continue;
        }
        if latestRecognition >= 0 && latestRecognition - nextRecognition > config.window {
          nextRecognition := nextRecognition + 1;
          RecognitionStepShrinks(config, before);
          continue;
        }
        break;
      }
      assert !RecognitionBusy(config, Now());
    }

    /** The answer at the cursor goes on to identity decision. */
    method PassRecognition()
      requires nextRecognition in recognitions
      modifies this
      ensures Now() == RecognitionStep(old(Now()))
    {
      var id := nextRecognition;
      QueueIdentity(recognitions[id]);
      recognitions := recognitions - {id};
      nextRecognition := id + 1;
    }

    method QueueIdentity(answer: Answer)
      modifies this
      ensures Now() == Coordinator.QueueIdentity(old(Now()), answer)
    {
      if answer.frame == None {
        return;
      }
      latestIdentity := Later(latestIdentity, answer.frameId);
      identityTasks := identityTasks + [Task(answer.frameId, answer.frame.value, answer.tracks)];
    }

    method DropPassedRecognitions()
      modifies this`recognitions
      ensures recognitions == DropBelow(old(recognitions), nextRecognition)
    {
      while recognitions.Keys != {} && nextRecognition >= 0 && Least(recognitions.Keys) < nextRecognition
        invariant DropBelow(recognitions, nextRecognition) == DropBelow(old(recognitions), nextRecognition)
        decreases |recognitions|
      {
        RemovalShrinks(recognitions, Least(recognitions.Keys));
        recognitions := recognitions - {Least(recognitions.Keys)};
      }
      NothingToDrop(recognitions, nextRecognition);
    }

    method DrainCommitReady()
      modifies this
      ensures Now() == DrainCommit(config, old(Now()))
    {
      if nextCommit < 0 && identities.Keys != {} {
        nextCommit := Least(identities.Keys);
      }
      CommitIdentities();
      DropPassedIdentities();
    }

    method CommitIdentities()
      modifies this
      ensures Now() == CommitLoop(config, old(Now()))
    {
      ghost var start := Now();
      while nextCommit >= 0
        invariant CommitLoop(config, Now()) == CommitLoop(config, start)
        decreases CommitMeasure(Now())
      {
        ghost var before := Now();
        if nextCommit in identities {
          CommitCursor();
          CommitStepShrinks(config, before);
          continue;
        }
        if latestIdentity >= 0 && latestIdentity - nextCommit > config.window {
          nextCommit := nextCommit + 1;
          CommitStepShrinks(config, before);
          continue;
        }
        break;
      }
      assert !CommitBusy(config, Now());
    }

    /** The answer at the cursor is committed. */
    method CommitCursor()
      requires nextCommit in identities
      modifies this
      ensures Now() == CommitStep(old(Now()))
    {
      var id := nextCommit;
      var answer := identities[id];
      if answer.frame != None {
        commits := commits + [Commit(answer.frame.value, answer.tracks)];
      }
      identities := identities - {id};
      nextCommit := id + 1;
    }

    method DropPassedIdentities()
      modifies this`identities
      ensures identities == DropBelow(old(identities), nextCommit)
    {
      while identities.Keys != {} && nextCommit >= 0 && Least(identities.Keys) < nextCommit
        invariant DropBelow(identities, nextCommit) == DropBelow(old(identities), nextCommit)
        decreases |identities|
      {
        RemovalShrinks(identities, Least(identities.Keys));
        identities := identities - {Least(identities.Keys)};
      }
      NothingToDrop(identities, nextCommit);
    }

    method TrimPending()
      modifies this
      ensures Now() == Trim(config, old(Now()))
    {
      hide Trimmed, TrimFaces;
      ghost var s0 := Now();
      TrimInputs();
      ghost var s1 := s0.(frames := Trimmed(s0.frames, config.limit),
                          detections := Trimmed(s0.detections, config.limit),
                          queuedProbes := Trimmed(s0.queuedProbes, config.limit),
                          earlyFaces := Trimmed(s0.earlyFaces, config.limit));
      assert Now() == s1;
      TrimFaceFrames();
      TrimAnswers();
    }

    method TrimInputs()
      modifies this`frames, this`detections, this`queuedProbes, this`earlyFaces
      ensures frames == Trimmed(old(frames), config.limit)
      ensures detections == Trimmed(old(detections), config.limit)
      ensures queuedProbes == Trimmed(old(queuedProbes), config.limit)
      ensures earlyFaces == Trimmed(old(earlyFaces), config.limit)
    {
      hide Trimmed;
      frames := EraseOldest(frames);
      detections := EraseOldest(detections);
      queuedProbes := EraseOldest(queuedProbes);
      earlyFaces := EraseOldest(earlyFaces);
    }

    method TrimAnswers()
      modifies this`recognitions, this`identities
      ensures recognitions == Trimmed(old(recognitions), config.limit)
      ensures identities == Trimmed(old(identities), config.limit)
    {
      hide Trimmed;
      recognitions := EraseOldest(recognitions);
      identities := EraseOldest(identities);
    }

    method EraseOldest<T>(m: map<int, T>) returns (r: map<int, T>)
      ensures r == Trimmed(m, config.limit)
    {
      r := m;
      while |r| > config.limit
        invariant Trimmed(r, config.limit) == Trimmed(m, config.limit)
        decreases |r|
      {
        assert r.Keys != {};
        RemovalShrinks(r, Least(r.Keys));
        r := r - {Least(r.Keys)};
      }
    }

    method TrimFaceFrames()
      modifies this
      ensures Now() == TrimFaces(old(Now()), config.limit)
    {
      ghost var start := Now();
      while |faceFrames| > config.limit
        invariant TrimFaces(Now(), config.limit) == TrimFaces(start, config.limit)
        decreases |faceFrames|
      {
        EraseOldestFace();
      }
    }

    method EraseOldestFace()
      requires |faceFrames| > 0
      modifies this
      ensures old(faceFrames).Keys != {} && Now() == TrimFaceStep(old(Now()))
    {
      assert faceFrames.Keys != {};
      var id := Least(faceFrames.Keys);
      if nextCommit < 0 || id >= nextCommit {
        nextCommit := id + 1;
      }
      faceFrames := faceFrames - {id};
    }
  }

  lemma NothingToDrop<T>(m: map<int, T>, cursor: int)
    requires m.Keys == {} || cursor < 0 || Least(m.Keys) >= cursor
    ensures DropBelow(m, cursor) == m
  {
  }
}
