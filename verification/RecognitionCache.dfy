/**
  Face recognition of tracks with a cache shared by all recognizer workers
  (core/src/recognizer/mobilefacenet_recognizer.cpp). The embedding network is outside the model:
  what it returns for a face is a parameter, an absent value standing for an exception.
*/
module RecognitionCache {
  import opened Numbers
  import opened Types
  import opened Association

  // ---------------------------------------------------------------- gallery

  datatype Entry = Entry(key: string, embedding: seq<real>)

  type Gallery = seq<Entry>

  datatype GalleryMatch = GalleryMatch(key: string, score: real)

  datatype Config = Config(
    unknownThreshold: real,
    ttl: int,
    dim: nat,
    minFaceScore: real,
    minFaceSize: real,
    minInterEye: real,
    maxRoll: real,
    maxYaw: real,
    distance: (Point, Point) -> real,
    roll: (Point, Point) -> real,
    inverseNorm: real -> real)

  /** Loading a gallery refuses embeddings of another dimension. */
  predicate Fits(g: Gallery, dim: nat)
  {
    forall i :: 0 <= i < |g| ==> |g[i].embedding| == dim
  }

  function Dot(a: seq<real>, b: seq<real>, n: nat): real
    requires n <= |a| && n <= |b|
  {
    if n == 0 then 0.0 else Dot(a, b, n - 1) + a[n - 1] * b[n - 1]
  }

  function Similarity(embedding: seq<real>, e: Entry): real
    requires |e.embedding| == |embedding|
  {
    Dot(embedding, e.embedding, |embedding|)
  }

  /** The match is the first most similar entry; an empty gallery matches nothing with similarity 0. */
  ghost predicate IsBestMatch(m: GalleryMatch, embedding: seq<real>, g: Gallery)
    requires Fits(g, |embedding|)
  {
    if g == [] then m == GalleryMatch("", 0.0)
    else exists i :: 0 <= i < |g| && IsFirstMaximum(i, embedding, g) && m == GalleryMatch(g[i].key, Similarity(embedding, g[i]))
  }

  ghost predicate IsFirstMaximum(i: nat, embedding: seq<real>, g: Gallery)
    requires Fits(g, |embedding|) && i < |g|
  {
    && (forall j :: 0 <= j < |g| ==> Similarity(embedding, g[j]) <= Similarity(embedding, g[i]))
    && (forall j :: 0 <= j < i ==> Similarity(embedding, g[j]) < Similarity(embedding, g[i]))
  }

  /** The best match is unique, so the scan and its specification name the same entry. */
  lemma BestMatchUnique(m: GalleryMatch, other: GalleryMatch, embedding: seq<real>, g: Gallery)
    requires Fits(g, |embedding|) && IsBestMatch(m, embedding, g) && IsBestMatch(other, embedding, g)
    ensures m == other
  {
    if g != [] {
      var i :| 0 <= i < |g| && IsFirstMaximum(i, embedding, g) && m == GalleryMatch(g[i].key, Similarity(embedding, g[i]));
      var j :| 0 <= j < |g| && IsFirstMaximum(j, embedding, g) && other == GalleryMatch(g[j].key, Similarity(embedding, g[j]));
      hide Similarity;
      assert i == j;
    }
  }

  /** The running best over the first n entries; nothing yet before the first. */
  function Best(embedding: seq<real>, g: Gallery, n: nat): (best: Option<nat>)
    requires Fits(g, |embedding|) && n <= |g|
    ensures n > 0 ==> best.Some?
    ensures best.Some? ==> best.value < n
  {
    if n == 0 then None
    else
      var best := Best(embedding, g, n - 1);
      if best.None? || Similarity(embedding, g[n - 1]) > Similarity(embedding, g[best.value]) then Some(n - 1) else best
  }

  function BestMatch(embedding: seq<real>, g: Gallery): GalleryMatch
    requires Fits(g, |embedding|)
  {
    if g == [] then GalleryMatch("", 0.0)
    else
      var i := Best(embedding, g, |g|).value;
      GalleryMatch(g[i].key, Similarity(embedding, g[i]))
  }

  lemma {:induction false} BestIsFirstMaximum(embedding: seq<real>, g: Gallery, n: nat)
    requires Fits(g, |embedding|) && 0 < n <= |g|
    ensures var i := Best(embedding, g, n).value;
      && (forall j :: 0 <= j < n ==> Similarity(embedding, g[j]) <= Similarity(embedding, g[i]))
      && (forall j :: 0 <= j < i ==> Similarity(embedding, g[j]) < Similarity(embedding, g[i]))
  {
    hide Similarity;
    if n > 1 {
      BestIsFirstMaximum(embedding, g, n - 1);
    }
  }

  lemma BestMatchIsBest(embedding: seq<real>, g: Gallery)
    requires Fits(g, |embedding|)
    ensures IsBestMatch(BestMatch(embedding, g), embedding, g)
  {
    if g != [] {
      BestIsFirstMaximum(embedding, g, |g|);
      assert IsFirstMaximum(Best(embedding, g, |g|).value, embedding, g);
    }
  }

  /** The scan over the gallery. */
  method BestGalleryMatch(embedding: seq<real>, g: Gallery) returns (m: GalleryMatch)
    requires Fits(g, |embedding|)
    ensures IsBestMatch(m, embedding, g)
    ensures m == BestMatch(embedding, g)
  {
    var key, score: Option<real> := "", None;
    for n := 0 to |g|
      invariant score.None? <==> n == 0
      invariant n > 0 ==> key == g[Best(embedding, g, n).value].key && score == Some(Similarity(embedding, g[Best(embedding, g, n).value]))
    {
      var s := 0.0;
      for i := 0 to |embedding|
        invariant s == Dot(embedding, g[n].embedding, i)
      {
        s := s + embedding[i] * g[n].embedding[i];
      }
      assert s == Similarity(embedding, g[n]);
      if score.None? || s > score.value {
        score := Some(s);
        key := g[n].key;
      }
    }
    BestMatchIsBest(embedding, g);
    m := if g == [] then GalleryMatch("", 0.0) else GalleryMatch(key, score.value);
  }

  // ---------------------------------------------------------------- embedding

  function SquareSum(a: seq<real>, n: nat): (sum: real)
    requires n <= |a|
    ensures sum >= 0.0
  {
    if n == 0 then 0.0
    else
      var square := a[n - 1] * a[n - 1];
      assert square >= 0.0;
      SquareSum(a, n - 1) + square
  }

  /** A network output of the wrong size or of zero norm is an error, and so is a frame without image. */
  function Embedded(c: Config, noImage: bool, raw: Option<seq<real>>): (e: Option<seq<real>>)
    ensures e.Some? ==> |e.value| == c.dim
  {
    if noImage || raw.None? || |raw.value| != c.dim || SquareSum(raw.value, |raw.value|) <= 0.0 then None
    else
      var scale := c.inverseNorm(SquareSum(raw.value, |raw.value|));
      Some(seq(|raw.value|, i requires 0 <= i < |raw.value| => raw.value[i] * scale))
  }

  ghost predicate IsScaled(b: seq<real>, a: seq<real>, scale: real)
  {
    |b| == |a| && forall i :: 0 <= i < |a| ==> b[i] == a[i] * scale
  }

  lemma {:induction false} ScaledSquareSum(a: seq<real>, b: seq<real>, scale: real, n: nat)
    requires n <= |a| && IsScaled(b, a, scale)
    ensures SquareSum(b, n) == SquareSum(a, n) * (scale * scale)
  {
    if n > 0 {
      ScaledSquareSum(a, b, scale, n - 1);
      var x := a[n - 1];
      assert b[n - 1] * b[n - 1] == x * x * (scale * scale);
      assert (SquareSum(a, n - 1) + x * x) * (scale * scale) == SquareSum(a, n - 1) * (scale * scale) + x * x * (scale * scale);
    }
  }

  /** An embedding has the direction of the network's output and length one, as far as the square root of the library is one. */
  lemma EmbeddingIsUnit(c: Config, noImage: bool, raw: Option<seq<real>>)
    requires forall x: real :: x > 0.0 ==> c.inverseNorm(x) > 0.0 && c.inverseNorm(x) * c.inverseNorm(x) * x == 1.0
    ensures Embedded(c, noImage, raw).Some? <==> !noImage && raw.Some? && |raw.value| == c.dim && SquareSum(raw.value, c.dim) > 0.0
    ensures var e := Embedded(c, noImage, raw);
      e.Some? ==>
        && SquareSum(e.value, c.dim) == 1.0
        && exists scale :: scale > 0.0 && IsScaled(e.value, raw.value, scale)
  {
    var e := Embedded(c, noImage, raw);
    if e.Some? {
      var total := SquareSum(raw.value, c.dim);
      var scale := c.inverseNorm(total);
      ScaledSquareSum(raw.value, e.value, scale, c.dim);
      hide SquareSum;
      assert total * (scale * scale) == scale * scale * total == 1.0;
      assert IsScaled(e.value, raw.value, scale);
    }
  }

  // ---------------------------------------------------------------- quality gates

  const DUPLICATE_IOU := 0.45

  function Middle(a: Point, b: Point): Point { Point((a.x + b.x) * 0.5, (a.y + b.y) * 0.5) }

  /** Division by zero is infinite or, for 0/0, not comparable. */
  predicate YawTooLarge(offset: real, interEye: real, maxYaw: real)
  {
    if interEye == 0.0 then offset != 0.0 else offset / interEye > maxYaw
  }

  predicate GoodPose(c: Config, f: FaceObservation)
  {
    var leftEye, rightEye, nose := f.landmarks[0], f.landmarks[1], f.landmarks[2];
    var eyes, mouth := Middle(leftEye, rightEye), Middle(f.landmarks[3], f.landmarks[4]);
    var interEye := c.distance(leftEye, rightEye);
    && interEye >= c.minInterEye
    && c.roll(leftEye, rightEye) <= c.maxRoll
    && eyes.y < nose.y < mouth.y
    && !YawTooLarge(Abs(nose.x - eyes.x), interEye, c.maxYaw)
  }

  predicate GoodFace(c: Config, f: FaceObservation)
  {
    && f.isFresh
    && f.landmarkCount == 5
    && f.score >= c.minFaceScore
    && f.bbox.w >= c.minFaceSize
    && f.bbox.h >= c.minFaceSize
    && GoodPose(c, f)
  }

  /** Track k carries a fresh duplicate of the i-th face with a better claim to it. */
  predicate Outranked(tracks: seq<Box>, i: nat, k: nat)
    requires i < |tracks| && k < |tracks|
    requires tracks[i].face.Some?
  {
    && k != i
    && tracks[k].face.Some?
    && tracks[k].face.value.isFresh
    && RectIou(tracks[i].face.value.bbox, tracks[k].face.value.bbox) > DUPLICATE_IOU
    && var mine, other := tracks[i].face.value.score, tracks[k].face.value.score;
       other > mine || (other == mine && k < i)
  }

  ghost predicate Passes(c: Config, tracks: seq<Box>, i: nat)
    requires i < |tracks|
  {
    && tracks[i].face.Some?
    && GoodFace(c, tracks[i].face.value)
    && forall k :: 0 <= k < |tracks| ==> !Outranked(tracks, i, k)
  }

  method PassesQualityGates(c: Config, tracks: seq<Box>, i: nat) returns (ok: bool)
    requires i < |tracks|
    ensures ok <==> Passes(c, tracks, i)
  {
    if tracks[i].face.None? || !GoodFace(c, tracks[i].face.value) {
      return false;
    }
    for k := 0 to |tracks|
      invariant forall j :: 0 <= j < k ==> !Outranked(tracks, i, j)
    {
      if Outranked(tracks, i, k) {
        return false;
      }
    }
    return true;
  }

  /** Of two tracks whose faces overlap beyond the duplicate bound, at most one is recognised. */
  lemma AtMostOneDuplicatePasses(c: Config, tracks: seq<Box>, i: nat, k: nat)
    requires i < k < |tracks| && tracks[i].face.Some? && tracks[k].face.Some?
    requires RectIou(tracks[i].face.value.bbox, tracks[k].face.value.bbox) > DUPLICATE_IOU
    ensures !(Passes(c, tracks, i) && Passes(c, tracks, k))
  {
    IouSymmetric(tracks[i].face.value.bbox, tracks[k].face.value.bbox);
    hide RectIou, GoodPose;
    assert Passes(c, tracks, i) ==> !Outranked(tracks, i, k);
    assert Passes(c, tracks, k) ==> !Outranked(tracks, k, i);
  }

  /** A frontal face of some size and quality is recognised unless a better or earlier one is a duplicate of it. */
  lemma FrontalFacePasses(c: Config, tracks: seq<Box>, i: nat)
    requires i < |tracks| && tracks[i].face.Some?
    requires var f := tracks[i].face.value;
      && f.isFresh && f.landmarkCount == 5 && f.score >= c.minFaceScore && f.bbox.w >= c.minFaceSize && f.bbox.h >= c.minFaceSize
      && IsFrontal(c, f.landmarks[0], f.landmarks[1], f.landmarks[2], f.landmarks[3], f.landmarks[4])
    requires forall k :: 0 <= k < |tracks| && k != i && tracks[k].face.Some? && tracks[k].face.value.isFresh ==>
      var f, g := tracks[i].face.value, tracks[k].face.value;
      RectIou(f.bbox, g.bbox) <= 0.45 || g.score < f.score || (g.score == f.score && i < k)
    ensures Passes(c, tracks, i)
  {
    hide RectIou;
  }

  /** The eyes are far enough apart and level, and the nose lies between them and between eyes and mouth. */
  predicate IsFrontal(c: Config, leftEye: Point, rightEye: Point, nose: Point, leftMouth: Point, rightMouth: Point)
  {
    var apart := c.distance(leftEye, rightEye);
    && apart >= c.minInterEye && apart > 0.0 && c.maxYaw >= 0.0
    && c.roll(leftEye, rightEye) <= c.maxRoll
    && nose.x + nose.x == leftEye.x + rightEye.x
    && leftEye.y + rightEye.y < nose.y + nose.y < leftMouth.y + rightMouth.y
  }

  // ---------------------------------------------------------------- what similarity means

  /** The squared distance of two embeddings over the first n coordinates. */
  function SquareDistance(a: seq<real>, b: seq<real>, n: nat): real
    requires n <= |a| && n <= |b|
  {
    if n == 0 then 0.0 else SquareDistance(a, b, n - 1) + (a[n - 1] - b[n - 1]) * (a[n - 1] - b[n - 1])
  }

  lemma {:induction false} DistanceByDot(a: seq<real>, b: seq<real>, n: nat)
    requires n <= |a| && n <= |b|
    ensures SquareDistance(a, b, n) == SquareSum(a, n) + SquareSum(b, n) - 2.0 * Dot(a, b, n)
  {
    if n > 0 {
      DistanceByDot(a, b, n - 1);
      var x, y := a[n - 1], b[n - 1];
      assert (x - y) * (x - y) == x * x + y * y - 2.0 * (x * y);
    }
  }

  /** Among gallery entries of the same length the more similar one is the nearer one. */
  lemma MoreSimilarIsNearer(embedding: seq<real>, e: Entry, f: Entry)
    requires |e.embedding| == |f.embedding| == |embedding|
    requires SquareSum(e.embedding, |embedding|) == SquareSum(f.embedding, |embedding|)
    ensures Similarity(embedding, e) > Similarity(embedding, f)
       <==> SquareDistance(embedding, e.embedding, |embedding|) < SquareDistance(embedding, f.embedding, |embedding|)
  {
    DistanceByDot(embedding, e.embedding, |embedding|);
    DistanceByDot(embedding, f.embedding, |embedding|);
    hide SquareSum, Dot, SquareDistance;
  }

  lemma {:induction false} DistanceToItself(a: seq<real>, n: nat)
    requires n <= |a|
    ensures SquareDistance(a, a, n) == 0.0
  {
    if n > 0 {
      DistanceToItself(a, n - 1);
    }
  }

  /** An embedding of length one is similar to itself by exactly one. */
  lemma SimilarToItself(e: Entry)
    requires SquareSum(e.embedding, |e.embedding|) == 1.0
    ensures Similarity(e.embedding, e) == 1.0
  {
    DistanceByDot(e.embedding, e.embedding, |e.embedding|);
    DistanceToItself(e.embedding, |e.embedding|);
    hide SquareSum, Dot, SquareDistance;
  }

  // ---------------------------------------------------------------- decisions

  datatype Key = Key(stream: string, track: int)

  datatype Verdict = InProgress | DecidedKnown | DecidedUnknown

  datatype Decision = Decision(
    verdict: Verdict,
    identityKey: string,
    confidence: real,
    action: string,
    status: string,
    lastSeen: int)

  type Cache = map<Key, Decision>

  function Undecided(b: Box): Box
  {
    b.(identityKey := "", identityConfidence := 0.0, privacyAction := ANONYMIZE, recognitionState := "skipped")
  }

  function WithDecision(b: Box, d: Decision): Box
  {
    b.(identityKey := d.identityKey, identityConfidence := d.confidence, privacyAction := d.action, recognitionState := d.status)
  }

  function Waiting(b: Box, d: Decision): Box
  {
    b.(recognitionState := if d.status == "" then "pending" else d.status)
  }

  /** A known identity only on a similarity that reaches the threshold; otherwise unknown. */
  function Decide(c: Config, g: Gallery, embedding: seq<real>, frame: int): Decision
    requires Fits(g, |embedding|)
  {
    var m := BestMatch(embedding, g);
    if g != [] && m.score >= c.unknownThreshold then Decision(DecidedKnown, m.key, m.score, ALLOW, "known", frame)
    else Decision(DecidedUnknown, "", if g == [] then 0.0 else m.score, ANONYMIZE, "unknown", frame)
  }

  function Pending(frame: int): Decision
  {
    Decision(InProgress, "", 0.0, ANONYMIZE, "pending", frame)
  }

  // ---------------------------------------------------------------- the locked sections, as functions

  predicate IsExpired(d: Decision, ttl: int, frame: int)
  {
    frame - d.lastSeen > ttl
  }

  /** A decision that was last used for a frame holds for ttl more. */
  lemma ExpiresAfterTtl(d: Decision, ttl: int, n: int)
    ensures IsExpired(d, ttl, d.lastSeen + n) <==> n > ttl
  {
  }

  function Cleaned(m: Cache, ttl: int, stream: string, frame: int): Cache
  {
    map k | k in m && !(k.stream == stream && IsExpired(m[k], ttl, frame)) :: m[k]
  }

  /** What a locked section leaves: the cache, whether it answered or claimed, and the box. */
  datatype Effect = Effect(cache: Cache, yes: bool, box: Box)

  function CachedEffect(m: Cache, k: Key, frame: int, b: Box): Effect
  {
    if k !in m then Effect(m, false, b)
    else if m[k].verdict == InProgress then Effect(m, true, Waiting(b, m[k]))
    else Effect(m[k := m[k].(lastSeen := frame)], true, WithDecision(b, m[k]))
  }

  function MarkEffect(m: Cache, k: Key, frame: int, b: Box): Effect
  {
    if k in m then Effect(CachedEffect(m, k, frame, b).cache, false, CachedEffect(m, k, frame, b).box)
    else Effect(m[k := Pending(frame)], true, b.(recognitionState := "pending"))
  }

  function Released(m: Cache, k: Key): Cache
  {
    if k in m && m[k].verdict == InProgress then m - {k} else m
  }

  // ---------------------------------------------------------------- one task, by one worker on its own

  /** What recognizing the i-th track alone does to the cache and the track. */
  ghost function TrackEffect(c: Config, g: Gallery, m: Cache, stream: string, frame: int, noImage: bool,
                             tracks: seq<Box>, i: nat, raw: Option<seq<real>>): (Cache, Box)
    requires i < |tracks| && Fits(g, c.dim)
  {
    var b, k := Undecided(tracks[i]), Key(stream, tracks[i].id);
    var hit := CachedEffect(m, k, frame, b);
    if b.id >= 0 && hit.yes then (hit.cache, hit.box)
    else if !Passes(c, tracks, i) then (m, b)
    else
      var e := Embedded(c, noImage, raw);
      if e.None? then (m, b.(recognitionState := "failed"))
      else
        var d := Decide(c, g, e.value, frame);
        (if b.id >= 0 then m[k := d] else m, WithDecision(b, d))
  }

  /** The cache and the first n tracks after the worker went over them. */
  ghost function TaskEffect(c: Config, g: Gallery, m: Cache, stream: string, frame: int, noImage: bool,
                            tracks: seq<Box>, raw: seq<Option<seq<real>>>, n: nat): (r: (Cache, seq<Box>))
    requires n <= |tracks| == |raw| && Fits(g, c.dim)
    ensures |r.1| == n
  {
    if n == 0 then (Cleaned(m, c.ttl, stream, frame), [])
    else
      var (m1, done) := TaskEffect(c, g, m, stream, frame, noImage, tracks, raw, n - 1);
      var (m2, b) := TrackEffect(c, g, m1, stream, frame, noImage, tracks, n - 1, raw[n - 1]);
      (m2, done + [b])
  }

  lemma TaskStarts(c: Config, g: Gallery, m: Cache, stream: string, frame: int, noImage: bool, tracks: seq<Box>,
                   raw: seq<Option<seq<real>>>)
    requires |tracks| == |raw| && Fits(g, c.dim)
    ensures TaskEffect(c, g, m, stream, frame, noImage, tracks, raw, 0).0 == Cleaned(m, c.ttl, stream, frame)
  {
  }

  lemma TaskStep(c: Config, g: Gallery, m: Cache, stream: string, frame: int, noImage: bool, tracks: seq<Box>,
                 raw: seq<Option<seq<real>>>, i: nat)
    requires i < |tracks| == |raw| && Fits(g, c.dim)
    ensures TaskEffect(c, g, m, stream, frame, noImage, tracks, raw, i + 1).0
         == TrackEffect(c, g, TaskEffect(c, g, m, stream, frame, noImage, tracks, raw, i).0, stream, frame, noImage, tracks, i, raw[i]).0
  {
    hide TrackEffect;
  }

  ghost predicate InProgressKeysFrom(after: Cache, before: Cache)
  {
    forall k :: k in after && after[k].verdict == InProgress ==> k in before && before[k] == after[k]
  }

  /** Working alone, a worker leaves no entry in progress that was not there before. */
  lemma {:induction false} NothingLeftInProgress(c: Config, g: Gallery, m: Cache, stream: string, frame: int, noImage: bool,
                                                 tracks: seq<Box>, raw: seq<Option<seq<real>>>, n: nat)
    requires n <= |tracks| == |raw| && Fits(g, c.dim)
    ensures InProgressKeysFrom(TaskEffect(c, g, m, stream, frame, noImage, tracks, raw, n).0, m)
  {
    if n > 0 {
      hide *;
      NothingLeftInProgress(c, g, m, stream, frame, noImage, tracks, raw, n - 1);
      TaskStep(c, g, m, stream, frame, noImage, tracks, raw, n - 1);
      var m1 := TaskEffect(c, g, m, stream, frame, noImage, tracks, raw, n - 1).0;
      TrackLeavesNoClaim(c, g, m, m1, stream, frame, noImage, tracks, n - 1, raw[n - 1]);
    }
  }

  lemma TrackLeavesNoClaim(c: Config, g: Gallery, before: Cache, m: Cache, stream: string, frame: int, noImage: bool,
                           tracks: seq<Box>, i: nat, raw: Option<seq<real>>)
    requires i < |tracks| && Fits(g, c.dim) && InProgressKeysFrom(m, before)
    ensures InProgressKeysFrom(TrackEffect(c, g, m, stream, frame, noImage, tracks, i, raw).0, before)
  {
    hide Passes, Embedded, BestMatch;
  }

  // ---------------------------------------------------------------- who is recognised

  /** Some entry of the gallery is similar enough. */
  ghost predicate IsKnown(c: Config, g: Gallery, embedding: seq<real>)
    requires Fits(g, |embedding|)
  {
    exists n :: 0 <= n < |g| && Similarity(embedding, g[n]) >= c.unknownThreshold
  }

  /**
    The identity and action a judged face earns: if an entry is similar enough, the key and similarity
    of the first most similar one, and permission to be shown; otherwise none.
  */
  ghost predicate Earns(c: Config, g: Gallery, embedding: seq<real>, key: string, confidence: real, action: string, status: string)
    requires Fits(g, |embedding|)
  {
    && (action == ALLOW <==> IsKnown(c, g, embedding))
    && (action == ALLOW ==>
          && status == "known"
          && exists n :: 0 <= n < |g| && IsFirstMaximum(n, embedding, g) && key == g[n].key && confidence == Similarity(embedding, g[n]))
    && (action != ALLOW ==> action == ANONYMIZE && key == "" && status == "unknown")
  }

  lemma DecisionEarns(c: Config, g: Gallery, embedding: seq<real>, frame: int)
    requires Fits(g, |embedding|)
    ensures var d := Decide(c, g, embedding, frame);
      && d.lastSeen == frame && d.verdict != InProgress
      && Earns(c, g, embedding, d.identityKey, d.confidence, d.action, d.status)
  {
    hide Similarity;
    BestMatchIsBest(embedding, g);
    var m := BestMatch(embedding, g);
    hide BestMatch;
    if g != [] {
      var n :| 0 <= n < |g| && IsFirstMaximum(n, embedding, g) && m == GalleryMatch(g[n].key, Similarity(embedding, g[n]));
    }
  }

  /** The cache has a decision or a claim for the track that has not expired. */
  predicate IsLive(c: Config, m: Cache, k: Key, frame: int)
  {
    k in m && !IsExpired(m[k], c.ttl, frame)
  }

  /** Nothing is known about the track when it is looked up: no live entry, and no earlier track under its id. */
  predicate IsNew(c: Config, m: Cache, stream: string, frame: int, tracks: seq<Box>, i: nat)
    requires i < |tracks|
  {
    tracks[i].id >= 0 ==>
      && !IsLive(c, m, Key(stream, tracks[i].id), frame)
      && forall j :: 0 <= j < i ==> tracks[j].id != tracks[i].id
  }

  /** The i-th track gets what its face earns if it is new and has a good one, what the cache says if it does, and nothing otherwise. */
  ghost predicate Told(c: Config, g: Gallery, m: Cache, stream: string, frame: int, noImage: bool, tracks: seq<Box>,
                       raw: seq<Option<seq<real>>>, i: nat, b: Box, after: Cache)
    requires i < |tracks| == |raw| && Fits(g, c.dim)
  {
    var k, e := Key(stream, tracks[i].id), Embedded(c, noImage, raw[i]);
    && b == tracks[i].(identityKey := b.identityKey, identityConfidence := b.identityConfidence, privacyAction := b.privacyAction,
                       recognitionState := b.recognitionState)
    && (IsNew(c, m, stream, frame, tracks, i) && Passes(c, tracks, i) && e.Some? ==>
          && Earns(c, g, e.value, b.identityKey, b.identityConfidence, b.privacyAction, b.recognitionState)
          && (b.id >= 0 ==> Holds(after, k, frame, b)))
    && (IsNew(c, m, stream, frame, tracks, i) && !(Passes(c, tracks, i) && e.Some?) ==> Unshown(b))
    && (tracks[i].id >= 0 && IsLive(c, m, k, frame) && m[k].verdict != InProgress ==> Agrees(m[k], b) && Holds(after, k, frame, b))
    && (tracks[i].id >= 0 && IsLive(c, m, k, frame) && m[k].verdict == InProgress ==> Waits(m[k], b))
  }

  /** Another worker embeds the track: it stays hidden and tells that its identity is pending. */
  predicate Waits(d: Decision, b: Box)
  {
    Unshown(b) && b.recognitionState == (if d.status == "" then "pending" else d.status)
  }

  predicate Unshown(b: Box) { b.privacyAction == ANONYMIZE && b.identityKey == "" }

  predicate Agrees(d: Decision, b: Box)
  {
    b.identityKey == d.identityKey && b.identityConfidence == d.confidence && b.privacyAction == d.action && b.recognitionState == d.status
  }

  /** The cache holds the decision the box shows, used in this frame. */
  predicate Holds(m: Cache, k: Key, frame: int, b: Box)
  {
    k in m && m[k].verdict != InProgress && Agrees(m[k], b) && m[k].lastSeen == frame
  }

  /** The entry is as before, or was used in this frame. */
  predicate KeptEntry(before: Cache, after: Cache, k: Key, frame: int)
  {
    k in before ==> k in after && (after[k] == before[k] || (before[k].verdict != InProgress && after[k] == before[k].(lastSeen := frame)))
  }

  lemma TrackKeepsEntry(c: Config, g: Gallery, m: Cache, stream: string, frame: int, noImage: bool, tracks: seq<Box>, i: nat,
                        raw: Option<seq<real>>, k: Key)
    requires i < |tracks| && Fits(g, c.dim)
    ensures var after := TrackEffect(c, g, m, stream, frame, noImage, tracks, i, raw).0;
      && KeptEntry(m, after, k, frame)
      && (k in after ==> k in m || (k == Key(stream, tracks[i].id) && tracks[i].id >= 0))
  {
    hide Passes, Embedded, Decide;
  }

  /** The entry is new, and belongs to one of these tracks. */
  ghost predicate ComesFrom(after: Cache, before: Cache, stream: string, tracks: seq<Box>, from: nat, n: nat, k: Key)
    requires n <= |tracks|
  {
    k in after ==> k in before || exists j :: from <= j < n && k == Key(stream, tracks[j].id) && tracks[j].id >= 0
  }

  /** Entries stay, and new ones belong to tracks gone over. */
  lemma {:induction false} TaskKeepsEntry(c: Config, g: Gallery, m: Cache, stream: string, frame: int, noImage: bool, tracks: seq<Box>,
                                          raw: seq<Option<seq<real>>>, from: nat, n: nat, k: Key)
    requires from <= n <= |tracks| == |raw| && Fits(g, c.dim)
    ensures var before, after := TaskEffect(c, g, m, stream, frame, noImage, tracks, raw, from).0,
                                 TaskEffect(c, g, m, stream, frame, noImage, tracks, raw, n).0;
      KeptEntry(before, after, k, frame) && ComesFrom(after, before, stream, tracks, from, n, k)
    decreases n
  {
    hide *;
    var before := TaskEffect(c, g, m, stream, frame, noImage, tracks, raw, from).0;
    if from < n {
      TaskKeepsEntry(c, g, m, stream, frame, noImage, tracks, raw, from, n - 1, k);
      var mid := TaskEffect(c, g, m, stream, frame, noImage, tracks, raw, n - 1).0;
      TaskStep(c, g, m, stream, frame, noImage, tracks, raw, n - 1);
      TrackKeepsEntry(c, g, mid, stream, frame, noImage, tracks, n - 1, raw[n - 1], k);
      var after := TrackEffect(c, g, mid, stream, frame, noImage, tracks, n - 1, raw[n - 1]).0;
      KeptTwice(before, mid, after, k, frame);
      ComesLater(after, mid, before, stream, tracks, from, n, k);
    } else {
      KeptSame(before, stream, tracks, n, k, frame);
    }
  }

  lemma KeptSame(m: Cache, stream: string, tracks: seq<Box>, n: nat, k: Key, frame: int)
    requires n <= |tracks|
    ensures KeptEntry(m, m, k, frame) && ComesFrom(m, m, stream, tracks, n, n, k)
  {
  }

  lemma ComesLater(after: Cache, mid: Cache, before: Cache, stream: string, tracks: seq<Box>, from: nat, n: nat, k: Key)
    requires from < n <= |tracks| && ComesFrom(mid, before, stream, tracks, from, n - 1, k)
    requires k in after ==> k in mid || (k == Key(stream, tracks[n - 1].id) && tracks[n - 1].id >= 0)
    ensures ComesFrom(after, before, stream, tracks, from, n, k)
  {
  }

  lemma KeptTwice(a: Cache, b: Cache, c: Cache, k: Key, frame: int)
    requires KeptEntry(a, b, k, frame) && KeptEntry(b, c, k, frame)
    ensures KeptEntry(a, c, k, frame)
  {
  }

  lemma {:induction false} TaskBoxAt(c: Config, g: Gallery, m: Cache, stream: string, frame: int, noImage: bool, tracks: seq<Box>,
                                     raw: seq<Option<seq<real>>>, i: nat, n: nat)
    requires i < n <= |tracks| == |raw| && Fits(g, c.dim)
    ensures TaskEffect(c, g, m, stream, frame, noImage, tracks, raw, n).1[i]
         == TrackEffect(c, g, TaskEffect(c, g, m, stream, frame, noImage, tracks, raw, i).0, stream, frame, noImage, tracks, i, raw[i]).1
    decreases n
  {
    hide TrackEffect;
    if i < n - 1 {
      TaskBoxAt(c, g, m, stream, frame, noImage, tracks, raw, i, n - 1);
    }
  }

  /** What a track is told, given the cache when it is looked up. */
  lemma TrackTold(c: Config, g: Gallery, m: Cache, stream: string, frame: int, noImage: bool, tracks: seq<Box>, i: nat, raw: Option<seq<real>>)
    requires i < |tracks| && Fits(g, c.dim)
    ensures var (after, b) := TrackEffect(c, g, m, stream, frame, noImage, tracks, i, raw);
      var k, e := Key(stream, tracks[i].id), Embedded(c, noImage, raw);
      && b == tracks[i].(identityKey := b.identityKey, identityConfidence := b.identityConfidence, privacyAction := b.privacyAction,
                         recognitionState := b.recognitionState)
      && (tracks[i].id >= 0 && k in m ==> if m[k].verdict == InProgress then Waits(m[k], b) else Agrees(m[k], b) && Holds(after, k, frame, b))
      && (tracks[i].id < 0 || k !in m ==>
            if Passes(c, tracks, i) && e.Some? then
              && Earns(c, g, e.value, b.identityKey, b.identityConfidence, b.privacyAction, b.recognitionState)
              && (b.id >= 0 ==> Holds(after, k, frame, b))
            else Unshown(b))
  {
    var e := Embedded(c, noImage, raw);
    if e.Some? {
      DecisionEarns(c, g, e.value, frame);
    }
    hide Passes, Embedded, Decide, Earns;
  }

  /** Cleaning up removes exactly what has expired. */
  lemma CleanedIsLive(c: Config, m: Cache, k: Key, frame: int)
    ensures k in Cleaned(m, c.ttl, k.stream, frame) <==> IsLive(c, m, k, frame)
    ensures IsLive(c, m, k, frame) ==> Cleaned(m, c.ttl, k.stream, frame)[k] == m[k]
  {
  }

  /** What the i-th track of a frame is told. */
  lemma TaskTold(c: Config, g: Gallery, m: Cache, stream: string, frame: int, noImage: bool, tracks: seq<Box>,
                 raw: seq<Option<seq<real>>>, i: nat)
    requires i < |tracks| == |raw| && Fits(g, c.dim)
    ensures var (after, out) := TaskEffect(c, g, m, stream, frame, noImage, tracks, raw, |tracks|);
      Told(c, g, m, stream, frame, noImage, tracks, raw, i, out[i], after)
  {
    hide TrackEffect, TaskEffect, Passes, Embedded, Decide, Earns, Cleaned, IsLive;
    var k := Key(stream, tracks[i].id);
    var start := TaskEffect(c, g, m, stream, frame, noImage, tracks, raw, 0).0;
    var before := TaskEffect(c, g, m, stream, frame, noImage, tracks, raw, i).0;
    var next := TaskEffect(c, g, m, stream, frame, noImage, tracks, raw, i + 1).0;
    var after := TaskEffect(c, g, m, stream, frame, noImage, tracks, raw, |tracks|).0;
    TaskStarts(c, g, m, stream, frame, noImage, tracks, raw);
    TaskStep(c, g, m, stream, frame, noImage, tracks, raw, i);
    CleanedIsLive(c, m, k, frame);
    TaskKeepsEntry(c, g, m, stream, frame, noImage, tracks, raw, 0, i, k);
    TrackTold(c, g, before, stream, frame, noImage, tracks, i, raw[i]);
    TaskBoxAt(c, g, m, stream, frame, noImage, tracks, raw, i, |tracks|);
    TaskKeepsEntry(c, g, m, stream, frame, noImage, tracks, raw, i + 1, |tracks|, k);
  }

  // ---------------------------------------------------------------- the recognizer

  /** The cache all workers share; every method is one locked section. */
  class TrackCache {
    var tracks: Cache

    constructor ()
      ensures tracks == map[]
    {
      tracks := map[];
    }

    method CleanupCache(ttl: int, stream: string, frame: int)
      modifies this
      ensures tracks == Cleaned(old(tracks), ttl, stream, frame)
    {
      var todo := tracks.Keys;
      while todo != {}
        invariant todo <= tracks.Keys <= old(tracks.Keys)
        invariant forall k :: k in tracks ==> tracks[k] == old(tracks)[k]
        invariant forall k :: k in todo ==> k in tracks
        invariant forall k :: k in old(tracks) && k !in todo ==>
          (k in tracks <==> !(k.stream == stream && IsExpired(old(tracks)[k], ttl, frame)))
        decreases |todo|
      {
        var k :| k in todo;
        todo := todo - {k};
        if k.stream == stream && IsExpired(tracks[k], ttl, frame) {
          tracks := tracks - {k};
        }
      }
    }

    method ApplyCachedDecision(k: Key, frame: int, track: Box) returns (hit: bool, b: Box)
      modifies this
      ensures CachedEffect(old(tracks), k, frame, track) == Effect(tracks, hit, b)
    {
      if k !in tracks {
        return false, track;
      }
      var d := tracks[k];
      if d.verdict == InProgress {
        return true, Waiting(track, d);
      }
      tracks := tracks[k := d.(lastSeen := frame)];
      return true, WithDecision(track, d);
    }

    method MarkInProgress(k: Key, frame: int, track: Box) returns (marked: bool, b: Box)
      modifies this
      ensures MarkEffect(old(tracks), k, frame, track) == Effect(tracks, marked, b)
    {
      if k in tracks {
        var d := tracks[k];
        if d.verdict != InProgress {
          tracks := tracks[k := d.(lastSeen := frame)];
          return false, WithDecision(track, d);
        }
        return false, Waiting(track, d);
      }
      tracks := tracks[k := Pending(frame)];
      return true, track.(recognitionState := "pending");
    }

    method FinishDecision(k: Key, d: Decision, track: Box) returns (b: Box)
      modifies this
      ensures tracks == old(tracks)[k := d] && b == WithDecision(track, d)
    {
      tracks := tracks[k := d];
      b := WithDecision(track, d);
    }

    method ClearInProgress(k: Key)
      modifies this
      ensures tracks == Released(old(tracks), k)
    {
      if k in tracks && tracks[k].verdict == InProgress {
        tracks := tracks - {k};
      }
    }
  }

  class Recognizer {
    const c: Config
    const gallery: Gallery
    const cache: TrackCache

    constructor (c: Config, gallery: Gallery, cache: TrackCache)
      ensures this.c == c && this.gallery == gallery && this.cache == cache
    {
      this.c := c;
      this.gallery := gallery;
      this.cache := cache;
    }

    /** raw[i] is what the network returns for the i-th track's face. */
    method Recognize(stream: string, frame: int, noImage: bool, tracks: seq<Box>, raw: seq<Option<seq<real>>>)
      returns (out: seq<Box>)
      requires |raw| == |tracks| && Fits(gallery, c.dim)
      modifies cache
      ensures (cache.tracks, out) == TaskEffect(c, gallery, old(cache.tracks), stream, frame, noImage, tracks, raw, |tracks|)
      ensures InProgressKeysFrom(cache.tracks, old(cache.tracks))
      ensures |out| == |tracks| && forall i :: 0 <= i < |tracks| ==>
        Told(c, gallery, old(cache.tracks), stream, frame, noImage, tracks, raw, i, out[i], cache.tracks)
    {
      hide Passes, Embedded, BestMatch, TrackEffect, Told;
      cache.CleanupCache(c.ttl, stream, frame);
      out := [];
      for i := 0 to |tracks|
        invariant (cache.tracks, out) == TaskEffect(c, gallery, old(cache.tracks), stream, frame, noImage, tracks, raw, i)
      {
        var b := RecognizeTrack(stream, frame, noImage, tracks, i, raw[i]);
        out := out + [b];
      }
      NothingLeftInProgress(c, gallery, old(cache.tracks), stream, frame, noImage, tracks, raw, |tracks|);
      forall i | 0 <= i < |tracks|
        ensures Told(c, gallery, old(cache.tracks), stream, frame, noImage, tracks, raw, i, out[i], cache.tracks)
      {
        TaskTold(c, gallery, old(cache.tracks), stream, frame, noImage, tracks, raw, i);
      }
    }

    method RecognizeTrack(stream: string, frame: int, noImage: bool, tracks: seq<Box>, i: nat, raw: Option<seq<real>>)
      returns (b: Box)
      requires i < |tracks| && Fits(gallery, c.dim)
      modifies cache
      ensures (cache.tracks, b) == TrackEffect(c, gallery, old(cache.tracks), stream, frame, noImage, tracks, i, raw)
    {
      b := Undecided(tracks[i]);
      var cacheable, k := b.id >= 0, Key(stream, b.id);
      if cacheable {
        var hit;
        hit, b := cache.ApplyCachedDecision(k, frame, b);
        if hit {
          return;
        }
      }
      var passes := PassesQualityGates(c, tracks, i);
      if !passes {
        return;
      }
      if cacheable {
        var marked;
        marked, b := cache.MarkInProgress(k, frame, b);
        if !marked {
          return;
        }
      }
      var e := Embedded(c, noImage, raw);
      if e.None? {
        b := b.(recognitionState := "failed");
        if cacheable {
          cache.ClearInProgress(k);
          assert cache.tracks == old(cache.tracks);
        }
        return;
      }
      var m := BestGalleryMatch(e.value, gallery);
      var d := if gallery != [] && m.score >= c.unknownThreshold
        then Decision(DecidedKnown, m.key, m.score, ALLOW, "known", frame)
        else Decision(DecidedUnknown, "", if gallery == [] then 0.0 else m.score, ANONYMIZE, "unknown", frame);
      if cacheable {
        b := cache.FinishDecision(k, d, b);
        assert old(cache.tracks)[k := Pending(frame)][k := d] == old(cache.tracks)[k := d];
      } else {
        b := WithDecision(b, d);
      }
    }
  }
}
