/**
  The boxes of a frame through the whole chain: coordinator, recognizer workers and identity decider
  change what is said about a box, but no frame is committed with a box of the tracker missing.
*/
module ChainBoxes {
  import opened Types
  import opened Coordinator
  import opened CoordinatorBoxes
  import opened PrivacyRuns
  import Safety = CoordinatorSafety
  import R = RecognitionCache
  import W = RecognitionWorkers
  import I = IdentityDecider

  ghost predicate SamePeople(a: seq<Box>, b: seq<Box>)
  {
    |a| == |b| && forall i :: 0 <= i < |a| ==> SamePerson(a[i], b[i])
  }

  lemma SamePeopleKeep(c: Config, a: seq<Box>, b: seq<Box>)
    requires SamePeople(a, b)
    ensures Keeps(c, b, a)
  {
  }

  // ---------------------------------------------------------------- recognizer and decider

  lemma ReplacedSame(tracks: seq<Box>, i: nat, b: Box)
    requires i < |tracks| && SamePerson(b, tracks[i])
    ensures SamePeople(tracks[i := b], tracks) && SamePeople(tracks, tracks)
  {
  }

  lemma SameTwice(a: seq<Box>, b: seq<Box>, d: seq<Box>)
    requires SamePeople(a, b) && SamePeople(b, d)
    ensures SamePeople(a, d)
  {
  }

  /** What a worker may write into a box. */
  lemma WritesSame(b: Box, d: R.Decision, m: R.Cache, k: R.Key, frame: int)
    ensures SamePerson(R.Undecided(b), b) && SamePerson(R.WithDecision(b, d), b) && SamePerson(R.Waiting(b, d), b)
    ensures SamePerson(R.CachedEffect(m, k, frame, b).box, b) && SamePerson(R.MarkEffect(m, k, frame, b).box, b)
    ensures SamePerson(R.CachedEffect(m, k, frame, R.Undecided(b)).box, b)
    ensures SamePerson(b.(recognitionState := "failed"), b)
  {
  }

  /** A step of a worker leaves the people of its job as they are. */
  lemma AdvanceSame(c: R.Config, s: W.World, x: W.Worker, raw: Option<seq<real>>)
    requires x.Busy() && R.Fits(s.gallery, c.dim)
    ensures var r := W.AdvanceStep(c, s, x, raw).worker;
      r.Working? && r.job == x.job && SamePeople(r.tracks, x.tracks)
  {
    var b, k := x.tracks[x.i], x.Current();
    var d := if x.phase.Finishing? && x.phase.decision.Some? then x.phase.decision.value else R.Pending(0);
    WritesSame(b, d, s.cache, k, x.job.frame);
    hide R.Passes, R.Embedded, R.Decide, R.CachedEffect, R.MarkEffect, SamePerson, R.Undecided, R.WithDecision;
    var r := W.AdvanceStep(c, s, x, raw).worker;
    assert r.tracks == x.tracks || r.tracks == x.tracks[x.i := r.tracks[x.i]];
    SamePersonSelf(b);
    ReplacedSame(x.tracks, x.i, r.tracks[x.i]);
  }

  lemma SamePersonSelf(b: Box)
    ensures SamePerson(b, b)
  {
  }

  /** A recognizer on its own leaves the people of a task as they are. */
  lemma {:induction false} RecognizeSame(c: R.Config, g: R.Gallery, m: R.Cache, stream: string, frame: int, noImage: bool, tracks: seq<Box>,
                                         raw: seq<Option<seq<real>>>, n: nat)
    requires n <= |tracks| == |raw| && R.Fits(g, c.dim)
    ensures SamePeople(R.TaskEffect(c, g, m, stream, frame, noImage, tracks, raw, n).1, tracks[..n])
  {
    if n > 0 {
      RecognizeSame(c, g, m, stream, frame, noImage, tracks, raw, n - 1);
      R.TrackTold(c, g, R.TaskEffect(c, g, m, stream, frame, noImage, tracks, raw, n - 1).0, stream, frame, noImage, tracks, n - 1, raw[n - 1]);
      hide R.TrackEffect, R.Passes, R.Embedded, R.Earns;
    }
  }

  lemma DecidedSame(kind: I.Kind, ok: bool, tracks: seq<Box>)
    ensures SamePeople(I.DecidedTracks(kind, ok, tracks), tracks)
  {
  }

  lemma FailedSame(tracks: seq<Box>)
    ensures SamePeople(FailedTracks(tracks), tracks)
  {
  }

  // ---------------------------------------------------------------- the invariant

  ghost predicate CarriedWorker(c: Config, calls: seq<TrackerCall>, x: W.Worker)
  {
    x.Working? ==> Shows(c, calls, x.job.frame, x.job.tracks) && SamePeople(x.tracks, x.job.tracks)
  }

  ghost predicate CarriedChain(p: Setup, z: Chain)
  {
    && Carried(p.c, z.s, true)
    && (forall w :: 0 <= w < |z.world.workers| ==> CarriedWorker(p.c, z.s.trackerCalls, z.world.workers[w]))
    && (forall i :: 0 <= i < |z.recognised| ==> CarriedAnswer(p.c, z.s.trackerCalls, z.recognised[i]))
    && (forall i :: 0 <= i < |z.decided| ==> CarriedAnswer(p.c, z.s.trackerCalls, z.decided[i]))
  }

  lemma ChainLater(p: Setup, z: Chain, s: State)
    requires CarriedChain(p, z) && Carried(p.c, s, true) && z.s.trackerCalls <= s.trackerCalls
    ensures CarriedChain(p, z.(s := s))
  {
    hide Carried, Shows, CarriedAnswer, SamePeople;
    forall i | 0 <= i < |z.recognised|
      ensures CarriedAnswer(p.c, s.trackerCalls, z.recognised[i])
    {
      AnswerLater(p.c, z.s.trackerCalls, s.trackerCalls, z.recognised[i]);
    }
    forall i | 0 <= i < |z.decided|
      ensures CarriedAnswer(p.c, s.trackerCalls, z.decided[i])
    {
      AnswerLater(p.c, z.s.trackerCalls, s.trackerCalls, z.decided[i]);
    }
    forall w | 0 <= w < |z.world.workers|
      ensures CarriedWorker(p.c, s.trackerCalls, z.world.workers[w])
    {
      var x := z.world.workers[w];
      assert CarriedWorker(p.c, z.s.trackerCalls, x);
      if x.Working? {
        ShowsLater(p.c, z.s.trackerCalls, s.trackerCalls, x.job.frame, x.job.tracks);
      }
    }
  }

  /** Only the workers change, and each of them still carries the boxes of its job. */
  lemma WorkersCarry(p: Setup, z: Chain, world: W.World)
    requires CarriedChain(p, z)
    requires forall w :: 0 <= w < |world.workers| ==> CarriedWorker(p.c, z.s.trackerCalls, world.workers[w])
    ensures CarriedChain(p, z.(world := world))
  {
    hide Carried, CarriedAnswer, CarriedWorker;
  }

  lemma WorkerAdvances(p: Setup, z: Chain, w: nat, raw: Option<seq<real>>)
    requires CarriedChain(p, z) && W.Enabled(p.r, z.world, W.Advance(w, raw))
    ensures CarriedChain(p, z.(world := W.Step(p.r, z.world, W.Advance(w, raw))))
  {
    var x := z.world.workers[w];
    hide Carried, CarriedAnswer, Shows, SamePeople, W.AdvanceStep;
    AdvanceSame(p.r, z.world, x, raw);
    var r := W.AdvanceStep(p.r, z.world, x, raw);
    assert CarriedWorker(p.c, z.s.trackerCalls, x);
    SameTwice(r.worker.tracks, x.tracks, x.job.tracks);
    WorkersCarry(p, z, W.Step(p.r, z.world, W.Advance(w, raw)));
  }

  lemma WorkerBegins(p: Setup, z: Chain, w: nat, i: nat)
    requires CarriedChain(p, z) && w < |z.world.workers| && z.world.workers[w].Idle? && i < |z.s.recognitionTasks|
    ensures CarriedChain(p, z.(world := W.Step(p.r, z.world, W.Begin(w, JobOf(p, z.s.recognitionTasks[i])))))
  {
    hide CarriedAnswer, Shows, SamePeople, R.Cleaned, Clean;
    var t := z.s.recognitionTasks[i];
    assert CarriedTask(p.c, z.s.trackerCalls, t);
    PeopleSelf(t.tracks);
    WorkersCarry(p, z, W.Step(p.r, z.world, W.Begin(w, JobOf(p, t))));
  }

  lemma PeopleSelf(tracks: seq<Box>)
    ensures SamePeople(tracks, tracks)
  {
  }

  /** What a worker publishes has the boxes of its job. */
  lemma WorkerAnswersCarry(p: Setup, z: Chain, w: nat)
    requires CarriedChain(p, z) && w < |z.world.workers| && z.world.workers[w].Working?
    ensures var x := z.world.workers[w];
      && CarriedAnswer(p.c, z.s.trackerCalls, AnswerOf(x.job, x.tracks))
      && CarriedAnswer(p.c, z.s.trackerCalls, AnswerOf(x.job, FailedTracks(x.job.tracks)))
  {
    hide Carried, Shows, SamePeople, FailedTracks;
    var x := z.world.workers[w];
    assert CarriedWorker(p.c, z.s.trackerCalls, x);
    FailedSame(x.job.tracks);
    SamePeopleKeep(p.c, x.tracks, x.job.tracks);
    SamePeopleKeep(p.c, FailedTracks(x.job.tracks), x.job.tracks);
    ShowsKept(p.c, z.s.trackerCalls, x.job.frame, x.job.tracks, x.tracks);
    ShowsKept(p.c, z.s.trackerCalls, x.job.frame, x.job.tracks, FailedTracks(x.job.tracks));
  }

  lemma WorkerLeaves(p: Setup, z: Chain, w: nat, a: Answer)
    requires CarriedChain(p, z) && w < |z.world.workers| && CarriedAnswer(p.c, z.s.trackerCalls, a)
    ensures CarriedChain(p, z.(recognised := z.recognised + [a], world := W.Step(p.r, z.world, W.Leave(w))))
  {
    hide Carried, CarriedAnswer, Shows, SamePeople;
  }

  /** What the identity worker publishes has the boxes of its task. */
  lemma DecisionCarries(p: Setup, z: Chain, i: nat, ok: bool)
    requires CarriedChain(p, z) && i < |z.s.identityTasks|
    ensures var t := z.s.identityTasks[i];
      CarriedAnswer(p.c, z.s.trackerCalls, Answer(t.frameId, Some(t.frame), I.DecidedTracks(p.decider, ok, t.tracks)))
  {
    hide Shows, Clean, SamePeople, I.DecidedTracks;
    var t := z.s.identityTasks[i];
    assert CarriedTask(p.c, z.s.trackerCalls, t);
    DecidedSame(p.decider, ok, t.tracks);
    SamePeopleKeep(p.c, I.DecidedTracks(p.decider, ok, t.tracks), t.tracks);
    ShowsKept(p.c, z.s.trackerCalls, t.frameId, t.tracks, I.DecidedTracks(p.decider, ok, t.tracks));
  }

  lemma StepCarriesChain(p: Setup, z: Chain, v: Event)
    requires CarriedChain(p, z) && Enabled(p, z, v)
    ensures CarriedChain(p, Step(p, z, v))
  {
    hide CarriedChain, Carried, CarriedAnswer, W.Step, Safety.Step, PushRecognition, PushIdentity;
    ChainParts(p, z);
    match v
    case Input(x) =>
      StepCarries(p.c, z.s, x, true);
      ChainLater(p, z, Safety.Step(p.c, z.s, x));
    case RecognitionArrives(i) =>
      AnswerCarries(p.c, z.s, z.recognised[i], true);
      SameCalls(z.s, z.recognised[i]);
      ChainLater(p, z, PushRecognition(z.s, z.recognised[i]));
    case IdentityArrives(i) =>
      AnswerCarries(p.c, z.s, z.decided[i], true);
      SameCalls(z.s, z.decided[i]);
      ChainLater(p, z, PushIdentity(z.s, z.decided[i]));
    case Taken(w, i) => WorkerBegins(p, z, w, i);
    case Worked(w, raw) => WorkerAdvances(p, z, w, raw);
    case Recognised(w) =>
      WorkerAnswersCarry(p, z, w);
      WorkerLeaves(p, z, w, AnswerOf(z.world.workers[w].job, z.world.workers[w].tracks));
    case RecognizerThrew(w) =>
      WorkerAnswersCarry(p, z, w);
      WorkerLeaves(p, z, w, AnswerOf(z.world.workers[w].job, FailedTracks(z.world.workers[w].job.tracks)));
    case Reloaded(gallery) => WorldReloaded(p, z, gallery);
    case Decided(i, ok) =>
      DecisionCarries(p, z, i, ok);
      OneMoreDecided(p, z, Step(p, z, v).decided[|z.decided|]);
  }

  lemma ChainParts(p: Setup, z: Chain)
    requires CarriedChain(p, z)
    ensures Carried(p.c, z.s, true)
    ensures forall i :: 0 <= i < |z.recognised| ==> CarriedAnswer(p.c, z.s.trackerCalls, z.recognised[i])
    ensures forall i :: 0 <= i < |z.decided| ==> CarriedAnswer(p.c, z.s.trackerCalls, z.decided[i])
  {
  }

  lemma SameCalls(s: State, a: Answer)
    ensures PushRecognition(s, a).trackerCalls == s.trackerCalls && PushIdentity(s, a).trackerCalls == s.trackerCalls
  {
  }

  lemma WorldReloaded(p: Setup, z: Chain, gallery: R.Gallery)
    requires CarriedChain(p, z) && R.Fits(gallery, p.r.dim)
    ensures CarriedChain(p, z.(world := W.Step(p.r, z.world, W.Reload(gallery))))
  {
    hide Carried, CarriedAnswer, CarriedWorker;
    WorkersCarry(p, z, W.Step(p.r, z.world, W.Reload(gallery)));
  }

  lemma OneMoreDecided(p: Setup, z: Chain, a: Answer)
    requires CarriedChain(p, z) && CarriedAnswer(p.c, z.s.trackerCalls, a)
    ensures CarriedChain(p, z.(decided := z.decided + [a]))
  {
    hide Carried, CarriedAnswer, CarriedWorker;
  }

  lemma {:induction false} RunCarriesChain(p: Setup, start: Chain, run: seq<Event>)
    requires Initial(p, start)
    ensures CarriedChain(p, After(p, start, run))
  {
    if run != [] {
      var z := After(p, start, run[..|run| - 1]);
      RunCarriesChain(p, start, run[..|run| - 1]);
      hide CarriedChain, Step, Enabled;
      if Enabled(p, z, run[|run| - 1]) {
        StepCarriesChain(p, z, run[|run| - 1]);
      }
    }
  }

  /**
    On every run of the whole chain, whatever is lost, late, repeated or thrown: a committed frame was
    tracked, and it is committed with every box the tracker answered for it, in its place and under its
    id; unless faces are looked for on their own, with no other.
  */
  lemma NobodyIsLost(p: Setup, start: Chain, run: seq<Event>, k: nat) returns (i: nat)
    requires Initial(p, start) && k < |After(p, start, run).s.commits|
    ensures var s := After(p, start, run).s;
      && i < |s.trackerCalls| && s.trackerCalls[i].frameId == s.commits[k].frame.id
      && Keeps(p.c, p.c.tracker(s.trackerCalls[..i + 1]), s.commits[k].tracks)
  {
    RunCarriesChain(p, start, run);
    var s := After(p, start, run).s;
    hide After, Keeps, CarriedAnswer;
    assert Shows(p.c, s.trackerCalls, s.commits[k].frame.id, s.commits[k].tracks);
    i :| ShowsAt(p.c, s.trackerCalls, i, s.commits[k].frame.id, s.commits[k].tracks);
  }
}
