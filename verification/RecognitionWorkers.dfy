/**
  Recognizer workers sharing one decision cache, interleaved in any order: each locked section of
  core/src/recognizer/mobilefacenet_recognizer.cpp is one step, and so is each run of the network.
*/
module RecognitionWorkers {
  import opened Types
  import opened RecognitionCache

  // ---------------------------------------------------------------- data

  datatype Job = Job(stream: string, frame: int, noImage: bool, tracks: seq<Box>)

  /** Where a worker stands with its current track; Finishing carries the decision, or None after an exception. */
  datatype Phase = Looking | Marking | Embedding | Finishing(decision: Option<Decision>)

  datatype Worker =
    | Idle
    | Working(job: Job, tracks: seq<Box>, i: nat, phase: Phase)
  {
    predicate Busy() { Working? && i < |tracks| }

    function Current(): Key
      requires Busy()
    {
      Key(job.stream, tracks[i].id)
    }
  }

  /** What a decision was based on. */
  datatype Judgement = Judgement(key: Key, frame: int, embedding: seq<real>, gallery: Gallery)

  datatype World = World(cache: Cache, workers: seq<Worker>, gallery: Gallery, log: set<Judgement>)

  datatype Event =
    | Begin(w: nat, job: Job)
    | Advance(w: nat, raw: Option<seq<real>>)
    | Leave(w: nat)
    | Reload(gallery: Gallery)

  // ---------------------------------------------------------------- steps

  /** The worker puts its track back and turns to the next. */
  function Moved(x: Worker, b: Box): Worker
    requires x.Busy()
  {
    x.(tracks := x.tracks[x.i := b], i := x.i + 1, phase := Looking)
  }

  /** The worker goes on with the same track. */
  function Stays(x: Worker, b: Box, phase: Phase): Worker
    requires x.Busy()
  {
    x.(tracks := x.tracks[x.i := b], phase := phase)
  }

  datatype Local = Local(cache: Cache, worker: Worker, log: set<Judgement>)

  ghost function LookStep(c: Config, s: World, x: Worker): Local
    requires x.Busy()
  {
    var b, k := Undecided(x.tracks[x.i]), x.Current();
    var hit := CachedEffect(s.cache, k, x.job.frame, b);
    if b.id >= 0 && hit.yes then Local(hit.cache, Moved(x, hit.box), s.log)
    else if !Passes(c, x.tracks, x.i) then Local(s.cache, Moved(x, b), s.log)
    else Local(s.cache, Stays(x, b, if b.id >= 0 then Marking else Embedding), s.log)
  }

  function MarkStep(s: World, x: Worker): Local
    requires x.Busy()
  {
    var mark := MarkEffect(s.cache, x.Current(), x.job.frame, x.tracks[x.i]);
    Local(mark.cache, if mark.yes then Stays(x, mark.box, Embedding) else Moved(x, mark.box), s.log)
  }

  function EmbedStep(c: Config, s: World, x: Worker, raw: Option<seq<real>>): Local
    requires x.Busy() && Fits(s.gallery, c.dim)
  {
    var e := Embedded(c, x.job.noImage, raw);
    if e.None? then Local(s.cache, x.(phase := Finishing(None)), s.log)
    else
      Local(s.cache,
            x.(phase := Finishing(Some(Decide(c, s.gallery, e.value, x.job.frame)))),
            s.log + {Judgement(x.Current(), x.job.frame, e.value, s.gallery)})
  }

  function FinishStep(s: World, x: Worker): Local
    requires x.Busy() && x.phase.Finishing?
  {
    var b, k := x.tracks[x.i], x.Current();
    if x.phase.decision.None? then
      Local(if b.id >= 0 then Released(s.cache, k) else s.cache, Moved(x, b.(recognitionState := "failed")), s.log)
    else
      var d := x.phase.decision.value;
      Local(if b.id >= 0 then s.cache[k := d] else s.cache, Moved(x, WithDecision(b, d)), s.log)
  }

  ghost function AdvanceStep(c: Config, s: World, x: Worker, raw: Option<seq<real>>): Local
    requires x.Busy() && Fits(s.gallery, c.dim)
  {
    match x.phase
    case Looking => LookStep(c, s, x)
    case Marking => MarkStep(s, x)
    case Embedding => EmbedStep(c, s, x, raw)
    case Finishing(_) => FinishStep(s, x)
  }

  /** An idle worker takes a task; only a busy one advances; one may leave when done, or be aborted at any time. */
  predicate Enabled(c: Config, s: World, e: Event)
  {
    match e
    case Begin(w, job) => w < |s.workers| && s.workers[w].Idle?
    case Advance(w, _) => w < |s.workers| && s.workers[w].Busy() && Fits(s.gallery, c.dim)
    case Leave(w) => w < |s.workers|
    case Reload(gallery) => Fits(gallery, c.dim)
  }

  ghost function Step(c: Config, s: World, e: Event): World
    requires Enabled(c, s, e)
  {
    match e
    case Begin(w, job) =>
      s.(cache := Cleaned(s.cache, c.ttl, job.stream, job.frame),
         workers := s.workers[w := Working(job, job.tracks, 0, Looking)])
    case Advance(w, raw) =>
      var r := AdvanceStep(c, s, s.workers[w], raw);
      s.(cache := r.cache, workers := s.workers[w := r.worker], log := r.log)
    case Leave(w) => s.(workers := s.workers[w := Idle])
    case Reload(gallery) => s.(gallery := gallery, cache := map[])
  }

  ghost predicate Legal(c: Config, s: World, run: seq<Event>)
  {
    run != [] ==> Legal(c, s, run[..|run| - 1]) && Enabled(c, After(c, s, run[..|run| - 1]), run[|run| - 1])
  }

  /** The world after a run; events that are not enabled do nothing. */
  ghost function After(c: Config, s: World, run: seq<Event>): World
  {
    if run == [] then s
    else
      var before := After(c, s, run[..|run| - 1]);
      if Enabled(c, before, run[|run| - 1]) then Step(c, before, run[|run| - 1]) else before
  }

  /** All workers idle, nothing cached. */
  predicate Initial(c: Config, s: World)
  {
    && s.cache == map[]
    && s.log == {}
    && Fits(s.gallery, c.dim)
    && forall w :: 0 <= w < |s.workers| ==> s.workers[w] == Idle
  }

  // ---------------------------------------------------------------- at most one worker embeds a track

  /** The worker is running the network for a cacheable track, or has just done so. */
  predicate Owns(x: Worker, k: Key)
  {
    x.Busy() && (x.phase == Embedding || x.phase.Finishing?) && k.track >= 0 && x.Current() == k
  }

  /** No entry in progress expires. */
  ghost predicate NoClaimExpires(c: Config, s: World, e: Event)
  {
    e.Begin? ==> forall k :: k in s.cache && s.cache[k].verdict == InProgress && k.stream == e.job.stream ==>
      !IsExpired(s.cache[k], c.ttl, e.job.frame)
  }

  ghost predicate Calm(c: Config, s: World, e: Event)
  {
    !e.Reload? && NoClaimExpires(c, s, e)
  }

  ghost predicate CalmRun(c: Config, s: World, run: seq<Event>)
  {
    run != [] ==> CalmRun(c, s, run[..|run| - 1]) && Calm(c, After(c, s, run[..|run| - 1]), run[|run| - 1])
  }

  /** A worker that owns a track has its entry in progress, and owns it alone. */
  ghost predicate Exclusive(s: World)
  {
    && (forall w, k :: 0 <= w < |s.workers| && Owns(s.workers[w], k) ==> k in s.cache && s.cache[k].verdict == InProgress)
    && (forall w, v, k :: 0 <= w < v < |s.workers| && Owns(s.workers[w], k) ==> !Owns(s.workers[v], k))
  }

  /** What a step of one worker may do to claims: only its own claim ends, and a new one was free before. */
  ghost predicate ClaimsKept(s: World, x: Worker, r: Local)
  {
    && (forall k :: Owns(r.worker, k) ==> k in r.cache && r.cache[k].verdict == InProgress && (Owns(x, k) || k !in s.cache))
    && (forall k :: k in s.cache && s.cache[k].verdict == InProgress && !Owns(x, k) ==> k in r.cache && r.cache[k] == s.cache[k])
  }

  lemma AdvanceKeepsClaims(c: Config, s: World, x: Worker, raw: Option<seq<real>>)
    requires x.Busy() && Fits(s.gallery, c.dim)
    requires forall k :: Owns(x, k) ==> k in s.cache && s.cache[k].verdict == InProgress
    ensures ClaimsKept(s, x, AdvanceStep(c, s, x, raw))
  {
    hide ClaimsKept, LookStep, MarkStep, EmbedStep, FinishStep;
    match x.phase
    case Looking => LookKeepsClaims(c, s, x);
    case Marking => MarkKeepsClaims(s, x);
    case Embedding => EmbedKeepsClaims(c, s, x, raw);
    case Finishing(_) => FinishKeepsClaims(s, x);
  }

  lemma LookKeepsClaims(c: Config, s: World, x: Worker)
    requires x.Busy() && x.phase == Looking
    ensures ClaimsKept(s, x, LookStep(c, s, x))
  {
    hide Passes;
  }

  lemma MarkKeepsClaims(s: World, x: Worker)
    requires x.Busy() && x.phase == Marking
    ensures ClaimsKept(s, x, MarkStep(s, x))
  {
    var r := MarkStep(s, x);
    assert r.worker.Busy() && r.worker.phase == Embedding ==> r.worker.Current() == x.Current();
  }

  lemma EmbedKeepsClaims(c: Config, s: World, x: Worker, raw: Option<seq<real>>)
    requires x.Busy() && x.phase == Embedding && Fits(s.gallery, c.dim)
    requires forall k :: Owns(x, k) ==> k in s.cache && s.cache[k].verdict == InProgress
    ensures ClaimsKept(s, x, EmbedStep(c, s, x, raw))
  {
    hide Embedded, Decide;
    var r := EmbedStep(c, s, x, raw);
    assert r.worker.Busy() && r.worker.Current() == x.Current();
  }

  lemma FinishKeepsClaims(s: World, x: Worker)
    requires x.Busy() && x.phase.Finishing?
    ensures ClaimsKept(s, x, FinishStep(s, x))
  {
  }

  lemma ClaimsKeepExclusive(s: World, w: nat, r: Local)
    requires Exclusive(s) && w < |s.workers| && ClaimsKept(s, s.workers[w], r)
    ensures Exclusive(s.(cache := r.cache, workers := s.workers[w := r.worker], log := r.log))
  {
    hide Owns;
  }

  lemma StepKeepsExclusive(c: Config, s: World, e: Event)
    requires Exclusive(s) && Enabled(c, s, e) && Calm(c, s, e)
    ensures Exclusive(Step(c, s, e))
  {
    hide AdvanceStep;
    match e
    case Advance(w, raw) =>
      AdvanceKeepsClaims(c, s, s.workers[w], raw);
      ClaimsKeepExclusive(s, w, AdvanceStep(c, s, s.workers[w], raw));
      hide Exclusive, ClaimsKept;
    case Begin(w, job) =>
      forall k
        ensures !Owns(Working(job, job.tracks, 0, Looking), k)
      {
      }
      hide Owns;
    case Leave(w) =>
      forall k
        ensures !Owns(Idle, k)
      {
      }
      hide Owns;
  }

  lemma {:induction false} RunKeepsExclusive(c: Config, s: World, run: seq<Event>)
    requires Exclusive(s) && CalmRun(c, s, run)
    ensures Exclusive(After(c, s, run))
  {
    if run != [] {
      var earlier, last := run[..|run| - 1], run[|run| - 1];
      RunKeepsExclusive(c, s, earlier);
      hide Step, Exclusive, Calm;
      if Enabled(c, After(c, s, earlier), last) {
        StepKeepsExclusive(c, After(c, s, earlier), last);
      }
    }
  }

  lemma InitialIsExclusive(c: Config, s: World)
    requires Initial(c, s)
    ensures Exclusive(s)
  {
  }

  /** With no reload and no expiring claim, no two workers ever run the network for the same track of a stream. */
  lemma AtMostOneWorkerEmbedsATrack(c: Config, s: World, run: seq<Event>, w: nat, v: nat)
    requires Initial(c, s) && CalmRun(c, s, run)
    requires w < v < |After(c, s, run).workers|
    requires var x, y := After(c, s, run).workers[w], After(c, s, run).workers[v];
      x.Busy() && y.Busy() && x.phase == Embedding && y.phase == Embedding && x.Current().track >= 0
    ensures After(c, s, run).workers[w].Current() != After(c, s, run).workers[v].Current()
  {
    hide After, CalmRun, Initial;
    InitialIsExclusive(c, s);
    RunKeepsExclusive(c, s, run);
    var r := After(c, s, run);
    assert Owns(r.workers[w], r.workers[w].Current());
    assert !Owns(r.workers[v], r.workers[w].Current());
  }

  // ---------------------------------------------------------------- a decision holds until it expires

  /** The same decision, however recently it was used. */
  predicate SameDecision(d: Decision, other: Decision)
  {
    other == d.(lastSeen := other.lastSeen)
  }

  ghost predicate KeepsEntry(c: Config, s: World, e: Event, k: Key)
  {
    e.Begin? && k in s.cache && k.stream == e.job.stream ==> !IsExpired(s.cache[k], c.ttl, e.job.frame)
  }

  /** The entry for the track does not expire during the run. */
  ghost predicate KeepsEntryRun(c: Config, s: World, run: seq<Event>, k: Key)
  {
    run != [] ==> KeepsEntryRun(c, s, run[..|run| - 1], k) && KeepsEntry(c, After(c, s, run[..|run| - 1]), run[|run| - 1], k)
  }

  ghost predicate Decided(s: World, k: Key, d: Decision)
  {
    k in s.cache && s.cache[k].verdict != InProgress && SameDecision(d, s.cache[k])
  }

  lemma AdvanceKeepsDecision(c: Config, s: World, x: Worker, raw: Option<seq<real>>, k: Key, d: Decision)
    requires x.Busy() && Fits(s.gallery, c.dim) && Decided(s, k, d) && !Owns(x, k) && k.track >= 0
    ensures var r := AdvanceStep(c, s, x, raw);
      k in r.cache && r.cache[k].verdict != InProgress && SameDecision(d, r.cache[k])
  {
    hide Passes, Embedded, Decide;
  }

  lemma StepKeepsDecision(c: Config, s: World, e: Event, k: Key, d: Decision)
    requires Exclusive(s) && Enabled(c, s, e) && Calm(c, s, e) && KeepsEntry(c, s, e, k)
    requires Decided(s, k, d) && k.track >= 0
    ensures Decided(Step(c, s, e), k, d)
  {
    if e.Advance? {
      AdvanceKeepsDecision(c, s, s.workers[e.w], e.raw, k, d);
    }
    hide AdvanceStep;
  }

  lemma {:induction false} DecisionHolds(c: Config, s: World, run: seq<Event>, k: Key, d: Decision)
    requires Exclusive(s) && CalmRun(c, s, run) && KeepsEntryRun(c, s, run, k)
    requires Decided(s, k, d) && k.track >= 0
    ensures Decided(After(c, s, run), k, d)
  {
    if run != [] {
      var earlier, last := run[..|run| - 1], run[|run| - 1];
      DecisionHolds(c, s, earlier, k, d);
      RunKeepsExclusive(c, s, earlier);
      hide Step, Exclusive, Calm, KeepsEntry, Decided;
      if Enabled(c, After(c, s, earlier), last) {
        StepKeepsDecision(c, After(c, s, earlier), last, k, d);
      }
    }
  }

  lemma {:induction false} AfterAppended(c: Config, s: World, first: seq<Event>, second: seq<Event>)
    ensures After(c, s, first + second) == After(c, After(c, s, first), second)
    ensures CalmRun(c, s, first + second) ==> CalmRun(c, s, first) && CalmRun(c, After(c, s, first), second)
  {
    if second == [] {
      assert first + second == first;
    } else {
      assert (first + second)[..|first + second| - 1] == first + second[..|second| - 1];
      AfterAppended(c, s, first, second[..|second| - 1]);
      hide Step, Calm, Enabled;
    }
  }

  /**
    Once a track is decided, and until that entry expires, every worker that looks it up gives its
    box exactly that decision, whatever the other workers did in between.
  */
  lemma EveryLookupAgrees(c: Config, s: World, first: seq<Event>, second: seq<Event>, w: nat, raw: Option<seq<real>>, k: Key)
    requires Initial(c, s) && CalmRun(c, s, first + second) && k.track >= 0
    requires k in After(c, s, first).cache && After(c, s, first).cache[k].verdict != InProgress
    requires KeepsEntryRun(c, After(c, s, first), second, k)
    requires var r := After(c, s, first + second);
      && Enabled(c, r, Advance(w, raw))
      && (r.workers[w].phase == Looking || r.workers[w].phase == Marking)
      && r.workers[w].Current() == k
    ensures var x := After(c, s, first + second).workers[w];
      var d := After(c, s, first).cache[k];
      var b := Step(c, After(c, s, first + second), Advance(w, raw)).workers[w].tracks[x.i];
      && b.identityKey == d.identityKey
      && b.identityConfidence == d.confidence
      && b.privacyAction == d.action
      && b.recognitionState == d.status
  {
    hide After, Exclusive, Calm, CalmRun, KeepsEntryRun, Initial;
    InitialIsExclusive(c, s);
    var mid := After(c, s, first);
    AfterAppended(c, s, first, second);
    RunKeepsExclusive(c, s, first);
    DecisionHolds(c, mid, second, k, mid.cache[k]);
    var r := After(c, s, first + second);
    assert r.cache[k].verdict != InProgress;
    var x := r.workers[w];
    assert AdvanceStep(c, r, x, raw).worker.tracks[x.i] == WithDecision(
      if x.phase == Looking then Undecided(x.tracks[x.i]) else x.tracks[x.i], r.cache[k]);
  }

  // ---------------------------------------------------------------- nothing that has expired is looked up

  /** The job is not so much newer than this frame that what was used in that frame has expired. */
  predicate Reaches(c: Config, job: Job, stream: string, frame: int)
  {
    job.stream == stream ==> job.frame - frame <= c.ttl
  }

  /** Nothing the worker may look up has expired, and its decision was made in its own frame. */
  ghost predicate SeesLive(c: Config, cache: Cache, x: Worker)
  {
    x.Working? ==>
      && (forall k :: k in cache ==> Reaches(c, x.job, k.stream, cache[k].lastSeen))
      && (x.phase.Finishing? && x.phase.decision.Some? ==> x.phase.decision.value.lastSeen == x.job.frame)
  }

  /** The jobs in hand are about frames close enough together. */
  ghost predicate Close(c: Config, workers: seq<Worker>)
  {
    forall w, v :: 0 <= w < |workers| && 0 <= v < |workers| && workers[w].Working? && workers[v].Working? ==>
      Reaches(c, workers[w].job, workers[v].job.stream, workers[v].job.frame)
  }

  ghost predicate AllSeeLive(c: Config, s: World)
  {
    Close(c, s.workers) && forall w :: 0 <= w < |s.workers| ==> SeesLive(c, s.cache, s.workers[w])
  }

  /** The new job is close enough to those in hand. */
  ghost predicate BeginsClose(c: Config, s: World, e: Event)
  {
    e.Begin? ==> c.ttl >= 0 && forall w :: 0 <= w < |s.workers| && s.workers[w].Working? ==>
      Reaches(c, s.workers[w].job, e.job.stream, e.job.frame) && Reaches(c, e.job, s.workers[w].job.stream, s.workers[w].job.frame)
  }

  ghost predicate CloseRun(c: Config, s: World, run: seq<Event>)
  {
    run != [] ==> CloseRun(c, s, run[..|run| - 1]) && BeginsClose(c, After(c, s, run[..|run| - 1]), run[|run| - 1])
  }

  /** What one worker writes is from its own frame; its job stays. */
  ghost predicate WritesOwn(s: World, x: Worker, r: Local)
    requires x.Working?
  {
    && r.worker.Working? && r.worker.job == x.job
    && (forall k :: k in r.cache ==> (k in s.cache && r.cache[k].lastSeen == s.cache[k].lastSeen)
                                     || (k.stream == x.job.stream && r.cache[k].lastSeen == x.job.frame))
    && (r.worker.phase.Finishing? && r.worker.phase.decision.Some? ==> r.worker.phase.decision.value.lastSeen == x.job.frame)
  }

  lemma AdvanceWritesOwn(c: Config, s: World, x: Worker, raw: Option<seq<real>>)
    requires x.Busy() && Fits(s.gallery, c.dim) && SeesLive(c, s.cache, x)
    ensures WritesOwn(s, x, AdvanceStep(c, s, x, raw))
  {
    hide Passes, Embedded, Reaches;
    match x.phase
    case Looking =>
    case Marking =>
    case Embedding =>
      var e := Embedded(c, x.job.noImage, raw);
      if e.Some? {
        DecisionEarns(c, s.gallery, e.value, x.job.frame);
      }
      hide Decide;
    case Finishing(_) =>
  }

  lemma OwnWritesKeepLive(c: Config, s: World, w: nat, r: Local)
    requires AllSeeLive(c, s) && w < |s.workers| && s.workers[w].Working? && WritesOwn(s, s.workers[w], r)
    ensures AllSeeLive(c, s.(cache := r.cache, workers := s.workers[w := r.worker], log := r.log))
  {
    var x := s.workers[w];
    var workers := s.workers[w := r.worker];
    forall v | 0 <= v < |workers|
      ensures SeesLive(c, r.cache, workers[v])
    {
      assert SeesLive(c, s.cache, s.workers[v]);
    }
  }

  lemma StepSeesLive(c: Config, s: World, e: Event)
    requires AllSeeLive(c, s) && Enabled(c, s, e) && BeginsClose(c, s, e)
    ensures AllSeeLive(c, Step(c, s, e))
  {
    hide AdvanceStep, WritesOwn;
    match e
    case Advance(w, raw) =>
      AdvanceWritesOwn(c, s, s.workers[w], raw);
      OwnWritesKeepLive(c, s, w, AdvanceStep(c, s, s.workers[w], raw));
      hide AllSeeLive;
    case Begin(w, job) => BeginSeesLive(c, s, w, job);
    case Leave(w) =>
    case Reload(gallery) =>
  }

  /** A new job cleans up first. */
  lemma BeginSeesLive(c: Config, s: World, w: nat, job: Job)
    requires AllSeeLive(c, s) && Enabled(c, s, Begin(w, job)) && BeginsClose(c, s, Begin(w, job))
    ensures AllSeeLive(c, Step(c, s, Begin(w, job)))
  {
    var r := Step(c, s, Begin(w, job));
    forall v | 0 <= v < |r.workers|
      ensures SeesLive(c, r.cache, r.workers[v])
    {
      assert SeesLive(c, s.cache, s.workers[v]);
    }
  }

  /**
    Nothing that has expired is ever looked up, claimed or used, on any run in which the tasks in hand at
    a time are about frames no further apart than entries live: in each state all entries a worker may
    look up are live in the frame of its task.
  */
  lemma {:induction false} NothingExpiredIsLookedUp(c: Config, s: World, run: seq<Event>)
    requires Initial(c, s) && CloseRun(c, s, run)
    ensures AllSeeLive(c, After(c, s, run))
    ensures forall w, k :: 0 <= w < |After(c, s, run).workers| && k in After(c, s, run).cache ==>
      var x := After(c, s, run).workers[w];
      x.Working? && x.job.stream == k.stream ==> !IsExpired(After(c, s, run).cache[k], c.ttl, x.job.frame)
  {
    if run != [] {
      var earlier, last := run[..|run| - 1], run[|run| - 1];
      NothingExpiredIsLookedUp(c, s, earlier);
      hide Step, BeginsClose, Initial;
      if Enabled(c, After(c, s, earlier), last) {
        StepSeesLive(c, After(c, s, earlier), last);
      }
    }
    LiveMeans(c, After(c, s, run));
    hide AllSeeLive;
  }

  lemma LiveMeans(c: Config, s: World)
    requires AllSeeLive(c, s)
    ensures forall w, k :: 0 <= w < |s.workers| && k in s.cache ==>
      s.workers[w].Working? && s.workers[w].job.stream == k.stream ==> !IsExpired(s.cache[k], c.ttl, s.workers[w].job.frame)
  {
    forall w, k | 0 <= w < |s.workers| && k in s.cache && s.workers[w].Working? && s.workers[w].job.stream == k.stream
      ensures !IsExpired(s.cache[k], c.ttl, s.workers[w].job.frame)
    {
      assert SeesLive(c, s.cache, s.workers[w]);
      assert Reaches(c, s.workers[w].job, k.stream, s.cache[k].lastSeen);
    }
  }
}
