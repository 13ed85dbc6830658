/**
  Runs of the coordinator, the recognizer workers and the identity decider together, with lost,
  delayed, reordered and repeated results, exceptions in every worker and gallery reloads.
*/
module PrivacyRuns {
  import opened Types
  import opened Coordinator
  import opened PrivacyChain
  import Safety = CoordinatorSafety
  import Order = CoordinatorOrder
  import R = RecognitionCache
  import W = RecognitionWorkers
  import I = IdentityDecider

  // ---------------------------------------------------------------- runs

  datatype Setup = Setup(c: Config, r: R.Config, stream: string, decider: I.Kind)

  /** Answers stay available once published: a result may arrive late, or twice, or never. */
  datatype Chain = Chain(s: State, world: W.World, recognised: seq<Answer>, decided: seq<Answer>)

  datatype Event =
    | Input(x: Safety.Event)
    | RecognitionArrives(i: nat)
    | IdentityArrives(i: nat)
    | Taken(w: nat, i: nat)
    | Worked(w: nat, raw: Option<seq<real>>)
    | Recognised(w: nat)
    | RecognizerThrew(w: nat)
    | Reloaded(gallery: R.Gallery)
    | Decided(i: nat, ok: bool)

  predicate IsInput(x: Safety.Event)
  {
    !x.RecognitionPushed? && !x.IdentityPushed?
  }

  predicate Enabled(p: Setup, z: Chain, e: Event)
  {
    match e
    case Input(x) => IsInput(x)
    case RecognitionArrives(i) => i < |z.recognised|
    case IdentityArrives(i) => i < |z.decided|
    case Taken(w, i) => w < |z.world.workers| && z.world.workers[w].Idle? && i < |z.s.recognitionTasks|
    case Worked(w, raw) => W.Enabled(p.r, z.world, W.Advance(w, raw))
    case Recognised(w) => w < |z.world.workers| && z.world.workers[w].Working? && !z.world.workers[w].Busy()
    case RecognizerThrew(w) => w < |z.world.workers| && z.world.workers[w].Working?
    case Reloaded(gallery) => R.Fits(gallery, p.r.dim)
    case Decided(i, ok) => i < |z.s.identityTasks|
  }

  function JobOf(p: Setup, t: Task): W.Job
  {
    W.Job(p.stream, t.frameId, t.frame.infEmpty, t.tracks)
  }

  function AnswerOf(job: W.Job, tracks: seq<Box>): Answer
  {
    Answer(job.frame, Some(Frame(job.frame, job.noImage)), tracks)
  }

  /** Tracks as they came, but for the mark that tells why nobody judged them. */
  function Marked(tracks: seq<Box>, state: string): (out: seq<Box>)
    ensures |out| == |tracks|
    ensures forall i :: 0 <= i < |tracks| ==> out[i] == tracks[i].(recognitionState := state)
  {
    seq(|tracks|, i requires 0 <= i < |tracks| => tracks[i].(recognitionState := state))
  }

  /** What is published for a task whose recognizer threw. */
  function FailedTracks(tracks: seq<Box>): (out: seq<Box>)
    ensures |out| == |tracks|
    ensures forall i :: 0 <= i < |tracks| ==> out[i] == tracks[i].(recognitionState := "failed")
  {
    Marked(tracks, "failed")
  }

  /** Of tracks nobody judged, the decider shows exactly the harmful ones, under the identity they came with. */
  lemma UnjudgedShownIff(kind: I.Kind, tracks: seq<Box>, state: string, i: nat)
    requires i < |tracks|
    ensures var b := I.DecidedTracks(kind, true, Marked(tracks, state))[i];
      && (b.privacyAction != ANONYMIZE <==> kind == I.Passthrough && !Harmless(tracks[i]))
      && (b.privacyAction != ANONYMIZE ==> b.identityKey == tracks[i].identityKey != "")
  {
    assert Marked(tracks, state)[i] == tracks[i].(recognitionState := state);
  }

  ghost function Step(p: Setup, z: Chain, e: Event): Chain
    requires Enabled(p, z, e)
  {
    match e
    case Input(x) => z.(s := Safety.Step(p.c, z.s, x))
    case RecognitionArrives(i) => z.(s := PushRecognition(z.s, z.recognised[i]))
    case IdentityArrives(i) => z.(s := PushIdentity(z.s, z.decided[i]))
    case Taken(w, i) => z.(world := W.Step(p.r, z.world, W.Begin(w, JobOf(p, z.s.recognitionTasks[i]))))
    case Worked(w, raw) => z.(world := W.Step(p.r, z.world, W.Advance(w, raw)))
    case Recognised(w) =>
      var x := z.world.workers[w];
      z.(recognised := z.recognised + [AnswerOf(x.job, x.tracks)], world := W.Step(p.r, z.world, W.Leave(w)))
    case RecognizerThrew(w) =>
      var x := z.world.workers[w];
      z.(recognised := z.recognised + [AnswerOf(x.job, FailedTracks(x.job.tracks))], world := W.Step(p.r, z.world, W.Leave(w)))
    case Reloaded(gallery) => z.(world := W.Step(p.r, z.world, W.Reload(gallery)))
    case Decided(i, ok) =>
      var t := z.s.identityTasks[i];
      z.(decided := z.decided + [Answer(t.frameId, Some(t.frame), I.DecidedTracks(p.decider, ok, t.tracks))])
  }

  /** The chain after any sequence of events; one that is not possible at its turn does nothing. */
  ghost function After(p: Setup, start: Chain, run: seq<Event>): Chain
  {
    if run == [] then start
    else
      var z := After(p, start, run[..|run| - 1]);
      if Enabled(p, z, run[|run| - 1]) then Step(p, z, run[|run| - 1]) else z
  }

  predicate Initial(p: Setup, z: Chain)
  {
    z.s == INITIAL && W.Initial(p.r, z.world) && z.recognised == [] && z.decided == []
  }

  // ---------------------------------------------------------------- the invariant

  function EvidenceOf(p: Setup, z: Chain): Evidence
  {
    Evidence(p.r, p.stream, p.decider, z.world.log)
  }

  ghost predicate FineDecision(e: Evidence, frame: int, k: R.Key, d: R.Decision)
  {
    d.action == ANONYMIZE || (k.stream == e.stream && Justified(e, frame, k.track, d.identityKey, d.confidence))
  }

  ghost predicate FineCache(e: Evidence, m: R.Cache)
  {
    forall k :: k in m ==> k.track >= 0 && FineDecision(e, 0, k, m[k])
  }

  ghost predicate FineWorker(e: Evidence, x: W.Worker)
  {
    x.Working? ==>
      && x.job.stream == e.stream
      && AllHarmless(x.job.tracks)
      && AllFine(e, x.job.frame, x.tracks)
      && (x.Busy() && x.phase == W.Marking ==> x.tracks[x.i].id >= 0)
      && (x.Busy() && x.phase.Finishing? && x.phase.decision.Some? ==>
            FineDecision(e, x.job.frame, x.Current(), x.phase.decision.value))
  }

  ghost predicate FineWorld(e: Evidence, world: W.World)
  {
    && R.Fits(world.gallery, e.r.dim)
    && FineCache(e, world.cache)
    && forall w :: 0 <= w < |world.workers| ==> FineWorker(e, world.workers[w])
  }

  ghost predicate Inv(e: Evidence, z: Chain)
  {
    && Guarded(e, z.s)
    && Order.Ordered(z.s)
    && FineWorld(e, z.world)
    && (forall i :: 0 <= i < |z.recognised| ==> FineAnswer(e, z.recognised[i]))
    && (forall i :: 0 <= i < |z.decided| ==> ShowableAnswer(e, z.decided[i]))
  }

  // ---------------------------------------------------------------- the workers

  lemma DecisionMakesFine(e: Evidence, frame: int, k: R.Key, d: R.Decision, b: Box)
    requires FineDecision(e, frame, k, d) && k.track == b.id
    ensures Fine(e, frame, R.WithDecision(b, d))
  {
  }

  lemma BoxReplaced(e: Evidence, frame: int, tracks: seq<Box>, i: nat, b: Box)
    requires AllFine(e, frame, tracks) && i < |tracks| && Fine(e, frame, b)
    ensures AllFine(e, frame, tracks[i := b])
  {
    hide Fine;
  }

  ghost predicate FineLocal(e: Evidence, r: W.Local)
  {
    FineCache(e, r.cache) && FineWorker(e, r.worker)
  }

  /** The evidence for a track with an id is good in every frame. */
  lemma AnyFrame(e: Evidence, frame: int, other: int, k: R.Key, d: R.Decision)
    requires FineDecision(e, frame, k, d) && k.track >= 0
    ensures FineDecision(e, other, k, d)
  {
    if d.action != ANONYMIZE {
      var j :| j in e.log && j.key == R.Key(e.stream, k.track) && Earned(e, j, d.identityKey, d.confidence);
      assert Justified(e, other, k.track, d.identityKey, d.confidence);
    }
  }

  lemma CachedKeeps(e: Evidence, m: R.Cache, k: R.Key, frame: int, b: Box)
    requires FineCache(e, m) && k.track == b.id && Fine(e, frame, b)
    ensures FineCache(e, R.CachedEffect(m, k, frame, b).cache)
    ensures Fine(e, frame, R.CachedEffect(m, k, frame, b).box)
  {
    if k in m {
      AnyFrame(e, 0, frame, k, m[k]);
      DecisionMakesFine(e, frame, k, m[k], b);
    }
    hide Justified;
  }

  lemma MarkedKeeps(e: Evidence, m: R.Cache, k: R.Key, frame: int, b: Box)
    requires FineCache(e, m) && k.track == b.id >= 0 && Fine(e, frame, b)
    ensures FineCache(e, R.MarkEffect(m, k, frame, b).cache)
    ensures Fine(e, frame, R.MarkEffect(m, k, frame, b).box)
  {
    CachedKeeps(e, m, k, frame, b);
    hide Justified, R.CachedEffect;
  }

  lemma LookKeeps(e: Evidence, s: W.World, x: W.Worker)
    requires x.Busy() && FineCache(e, s.cache) && FineWorker(e, x)
    ensures FineLocal(e, W.LookStep(e.r, s, x))
  {
    var b, k := R.Undecided(x.tracks[x.i]), x.Current();
    assert Fine(e, x.job.frame, b);
    CachedKeeps(e, s.cache, k, x.job.frame, b);
    BoxReplaced(e, x.job.frame, x.tracks, x.i, R.CachedEffect(s.cache, k, x.job.frame, b).box);
    BoxReplaced(e, x.job.frame, x.tracks, x.i, b);
    hide AllFine, AllHarmless, Justified, FineCache, R.CachedEffect, R.Passes;
  }

  lemma MarkKeeps(e: Evidence, s: W.World, x: W.Worker)
    requires x.Busy() && FineCache(e, s.cache) && FineWorker(e, x) && x.tracks[x.i].id >= 0
    ensures FineLocal(e, W.MarkStep(s, x))
  {
    var b, k := x.tracks[x.i], x.Current();
    assert Fine(e, x.job.frame, b);
    MarkedKeeps(e, s.cache, k, x.job.frame, b);
    BoxReplaced(e, x.job.frame, x.tracks, x.i, R.MarkEffect(s.cache, k, x.job.frame, b).box);
    hide AllFine, AllHarmless, Justified, FineCache, R.MarkEffect;
  }

  lemma FinishKeeps(e: Evidence, s: W.World, x: W.Worker)
    requires x.Busy() && x.phase.Finishing? && FineCache(e, s.cache) && FineWorker(e, x)
    ensures FineLocal(e, W.FinishStep(s, x))
  {
    var b, k := x.tracks[x.i], x.Current();
    assert Fine(e, x.job.frame, b);
    BoxReplaced(e, x.job.frame, x.tracks, x.i, b.(recognitionState := "failed"));
    if x.phase.decision.Some? {
      var d := x.phase.decision.value;
      DecisionMakesFine(e, x.job.frame, k, d, b);
      BoxReplaced(e, x.job.frame, x.tracks, x.i, R.WithDecision(b, d));
      if b.id >= 0 {
        AnyFrame(e, x.job.frame, 0, k, d);
      }
    }
    hide AllFine, AllHarmless, Justified, Fine;
  }

  /** A decision to show a box comes with the judgement that earned it, and a match at the threshold with that decision. */
  lemma JudgementJustifies(e: Evidence, x: W.Worker, embedding: seq<real>, gallery: R.Gallery)
    requires x.Busy() && x.job.stream == e.stream && R.Fits(gallery, |embedding|)
    ensures var more := e.(log := e.log + {W.Judgement(x.Current(), x.job.frame, embedding, gallery)});
      && FineDecision(more, x.job.frame, x.Current(), R.Decide(e.r, gallery, embedding, x.job.frame))
      && (R.Decide(e.r, gallery, embedding, x.job.frame).action == ALLOW <==> R.IsKnown(e.r, gallery, embedding))
  {
    R.DecisionEarns(e.r, gallery, embedding, x.job.frame);
    var j := W.Judgement(x.Current(), x.job.frame, embedding, gallery);
    var more := e.(log := e.log + {j});
    var d := R.Decide(e.r, gallery, embedding, x.job.frame);
    if d.action != ANONYMIZE {
      assert j in more.log && j.key == R.Key(e.stream, x.Current().track) && Earned(more, j, d.identityKey, d.confidence);
    }
  }

  lemma JustifiedGrows(e: Evidence, more: Evidence)
    requires more == e.(log := more.log) && e.log <= more.log
    ensures forall frame, id, key, confidence :: Justified(e, frame, id, key, confidence) ==> Justified(more, frame, id, key, confidence)
  {
    forall frame, id: int, key: string, confidence: real | Justified(e, frame, id, key, confidence)
      ensures Justified(more, frame, id, key, confidence)
    {
      var j :| j in e.log && j.key == R.Key(e.stream, id) && (id < 0 ==> j.frame == frame) && Earned(e, j, key, confidence);
      assert Earned(more, j, key, confidence);
    }
  }

  /** Further judgements leave everything as good as it was. */
  lemma AllGrows(e: Evidence, more: Evidence, z: Chain)
    requires Inv(e, z) && more == e.(log := more.log) && e.log <= more.log
    ensures Inv(more, z)
  {
    JustifiedGrows(e, more);
    hide Justified, AllHarmless;
    WorldGrows(e, more, z.world);
    GuardedGrows(e, more, z.s);
    hide Guarded, FineWorld;
  }

  lemma WorldGrows(e: Evidence, more: Evidence, world: W.World)
    requires FineWorld(e, world) && more == e.(log := more.log) && e.log <= more.log
    ensures FineWorld(more, world)
  {
    JustifiedGrows(e, more);
    hide Justified, AllHarmless;
  }

  lemma GuardedGrows(e: Evidence, more: Evidence, s: State)
    requires Guarded(e, s) && more == e.(log := more.log) && e.log <= more.log
    ensures Guarded(more, s)
  {
    JustifiedGrows(e, more);
    hide Justified, AllHarmless;
  }

  lemma EmbedKeeps(e: Evidence, s: W.World, x: W.Worker, raw: Option<seq<real>>)
    requires x.Busy() && R.Fits(s.gallery, e.r.dim) && FineCache(e, s.cache) && FineWorker(e, x) && e.log == s.log
    ensures var r := W.EmbedStep(e.r, s, x, raw);
      s.log <= r.log && r.cache == s.cache && FineWorker(e.(log := r.log), r.worker)
  {
    var r := W.EmbedStep(e.r, s, x, raw);
    var more := e.(log := r.log);
    JustifiedGrows(e, more);
    var embedding := R.Embedded(e.r, x.job.noImage, raw);
    if embedding.Some? {
      JudgementJustifies(e, x, embedding.value, s.gallery);
    }
    hide Justified, AllHarmless, R.Decide, R.Embedded;
  }

  lemma AdvanceKeeps(e: Evidence, s: W.World, w: nat, raw: Option<seq<real>>)
    requires FineWorld(e, s) && e.log == s.log && W.Enabled(e.r, s, W.Advance(w, raw))
    ensures var r := W.Step(e.r, s, W.Advance(w, raw));
      s.log <= r.log && FineWorld(e.(log := r.log), r)
  {
    var x := s.workers[w];
    var r := W.AdvanceStep(e.r, s, x, raw);
    var more := e.(log := r.log);
    assert s.log <= r.log && FineLocal(more, r) by {
      match x.phase
      case Looking => LookKeeps(e, s, x); assert more == e;
      case Marking => MarkKeeps(e, s, x); assert more == e;
      case Embedding => EmbedKeeps(e, s, x, raw); WorldGrows(e, more, s);
      case Finishing(_) => FinishKeeps(e, s, x); assert more == e;
    }
    WorldGrows(e, more, s);
    hide W.AdvanceStep, FineWorker, FineCache;
  }

  lemma OtherWorkerStepsKeep(e: Evidence, s: W.World, v: W.Event)
    requires FineWorld(e, s) && e.log == s.log && W.Enabled(e.r, s, v) && !v.Advance?
    requires v.Begin? ==> v.job.stream == e.stream && AllHarmless(v.job.tracks)
    ensures W.Step(e.r, s, v).log == s.log && FineWorld(e, W.Step(e.r, s, v))
  {
    hide W.AdvanceStep, Justified;
  }

  // ---------------------------------------------------------------- the chain

  lemma FailedIsFine(e: Evidence, frame: int, tracks: seq<Box>)
    requires AllHarmless(tracks)
    ensures AllFine(e, frame, FailedTracks(tracks))
  {
  }

  lemma DecidedIsShowable(e: Evidence, frame: int, ok: bool, tracks: seq<Box>)
    requires AllFine(e, frame, tracks)
    ensures AllShowable(e, frame, I.DecidedTracks(e.decider, ok, tracks))
  {
    hide Justified;
  }

  lemma InputKeeps(p: Setup, e: Evidence, s: State, x: Safety.Event)
    requires Guarded(e, s) && Order.Ordered(s) && ClosedTracker(p.c) && IsInput(x)
    ensures Guarded(e, Safety.Step(p.c, s, x))
    ensures Order.Ordered(Safety.Step(p.c, s, x))
  {
    hide Guarded, Order.Ordered, DrainReady, PushFrame, PushDetection, PushFace, PushRecognition, PushIdentity;
    Order.StepOrdered(p.c, s, x);
    if x.DrainCalled? {
      DrainReadyKeeps(p.c, e, s);
    } else {
      PushKeeps(p.c, e, s, x);
    }
  }

  lemma AnswersKept(e: Evidence, z: Chain, r: Chain, a: Answer)
    requires Inv(e, z) && FineAnswer(e, a)
    requires r == z.(recognised := z.recognised + [a], world := r.world) && FineWorld(e, r.world)
    ensures Inv(e, r)
  {
    hide Guarded, FineWorld, FineAnswer, ShowableAnswer;
  }

  lemma WorkerAnswers(p: Setup, z: Chain, w: nat, e: Evidence)
    requires Inv(e, z) && e == EvidenceOf(p, z) && w < |z.world.workers| && z.world.workers[w].Working?
    ensures var x := z.world.workers[w];
      && FineAnswer(e, AnswerOf(x.job, x.tracks))
      && FineAnswer(e, AnswerOf(x.job, FailedTracks(x.job.tracks)))
  {
    var x := z.world.workers[w];
    assert FineWorker(e, x);
    FailedIsFine(e, x.job.frame, x.job.tracks);
  }

  lemma StepKeeps(p: Setup, z: Chain, v: Event)
    requires Inv(EvidenceOf(p, z), z) && ClosedTracker(p.c) && Enabled(p, z, v)
    ensures Inv(EvidenceOf(p, Step(p, z, v)), Step(p, z, v))
  {
    var e := EvidenceOf(p, z);
    hide Guarded, FineWorld, FineAnswer, ShowableAnswer, W.Step, Safety.Step, Order.Ordered;
    match v
    case Input(x) => InputKeeps(p, e, z.s, x);
    case RecognitionArrives(i) =>
      PushKeeps(p.c, e, z.s, Safety.RecognitionPushed(z.recognised[i]));
      Order.StepOrdered(p.c, z.s, Safety.RecognitionPushed(z.recognised[i]));
      PushIsStep(p.c, z.s, z.recognised[i]);
    case IdentityArrives(i) =>
      PushKeeps(p.c, e, z.s, Safety.IdentityPushed(z.decided[i]));
      Order.StepOrdered(p.c, z.s, Safety.IdentityPushed(z.decided[i]));
      PushIsStep(p.c, z.s, z.decided[i]);
    case Taken(w, i) =>
      TaskIsHarmless(e, z.s, i);
      OtherWorkerStepsKeep(e, z.world, W.Begin(w, JobOf(p, z.s.recognitionTasks[i])));
    case Worked(w, raw) =>
      AdvanceKeeps(e, z.world, w, raw);
      AllGrows(e, EvidenceOf(p, Step(p, z, v)), z);
    case Recognised(w) =>
      WorkerAnswers(p, z, w, e);
      OtherWorkerStepsKeep(e, z.world, W.Leave(w));
      AnswersKept(e, z, Step(p, z, v), AnswerOf(z.world.workers[w].job, z.world.workers[w].tracks));
    case RecognizerThrew(w) =>
      WorkerAnswers(p, z, w, e);
      OtherWorkerStepsKeep(e, z.world, W.Leave(w));
      AnswersKept(e, z, Step(p, z, v), AnswerOf(z.world.workers[w].job, FailedTracks(z.world.workers[w].job.tracks)));
    case Reloaded(gallery) => OtherWorkerStepsKeep(e, z.world, W.Reload(gallery));
    case Decided(i, ok) => IdentityTaskDecided(e, z.s, i, ok);
  }

  lemma PushIsStep(c: Config, s: State, a: Answer)
    ensures Safety.Step(c, s, Safety.RecognitionPushed(a)) == PushRecognition(s, a)
    ensures Safety.Step(c, s, Safety.IdentityPushed(a)) == PushIdentity(s, a)
  {
  }

  lemma TaskIsHarmless(e: Evidence, s: State, i: nat)
    requires Guarded(e, s) && i < |s.recognitionTasks|
    ensures AllHarmless(s.recognitionTasks[i].tracks)
  {
  }

  lemma IdentityTaskDecided(e: Evidence, s: State, i: nat, ok: bool)
    requires Guarded(e, s) && i < |s.identityTasks|
    ensures var t := s.identityTasks[i];
      ShowableAnswer(e, Answer(t.frameId, Some(t.frame), I.DecidedTracks(e.decider, ok, t.tracks)))
  {
    DecidedIsShowable(e, s.identityTasks[i].frameId, ok, s.identityTasks[i].tracks);
  }

  lemma {:induction false} RunKeeps(p: Setup, start: Chain, run: seq<Event>)
    requires Initial(p, start) && ClosedTracker(p.c)
    ensures Inv(EvidenceOf(p, After(p, start, run)), After(p, start, run))
  {
    if run != [] {
      var z := After(p, start, run[..|run| - 1]);
      RunKeeps(p, start, run[..|run| - 1]);
      hide Inv, Step;
      if Enabled(p, z, run[|run| - 1]) {
        StepKeeps(p, z, run[|run| - 1]);
      }
    }
  }

  /**
    On every run, a committed box is anonymized, or the passthrough decider is in use and the box
    carries a nonempty identity that was the best gallery match, with a similarity of at least the
    threshold, when it was decided for that track.
  */
  lemma OnlyEarnedIdentitiesAreShown(p: Setup, start: Chain, run: seq<Event>, i: nat, t: nat)
    requires Initial(p, start) && ClosedTracker(p.c)
    requires i < |After(p, start, run).s.commits| && t < |After(p, start, run).s.commits[i].tracks|
    ensures var z := After(p, start, run);
      var b := z.s.commits[i].tracks[t];
      b.privacyAction != ANONYMIZE ==>
        && p.decider == I.Passthrough
        && b.identityKey != ""
        && Justified(EvidenceOf(p, z), z.s.commits[i].frame.id, b.id, b.identityKey, b.identityConfidence)
  {
    RunKeeps(p, start, run);
    hide After;
    var z := After(p, start, run);
    var e := EvidenceOf(p, z);
    assert AllShowable(e, z.s.commits[i].frame.id, z.s.commits[i].tracks);
    assert Showable(e, z.s.commits[i].frame.id, z.s.commits[i].tracks[t]);
  }
}
