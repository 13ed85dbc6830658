/**
  Full-frame face probes and the assignment of detected faces to person tracks
  (core/src/face_detector/face_policy.cpp).
*/
module FacePolicy {
  import opened Numbers
  import Sorting
  import opened Types
  import opened Association

  datatype Config = Config(minFaceScore: real, independent: bool)

  // ---------------------------------------------------------------- geometry of a face on a person

  predicate CenterInside(inner: Rect, outer: Rect)
  {
    var cx := inner.x + inner.w * 0.5;
    var cy := inner.y + inner.h * 0.5;
    outer.x <= cx <= outer.x + outer.w && outer.y <= cy <= outer.y + outer.h
  }

  predicate Plausible(c: Config, face: FaceObservation, person: Rect)
  {
    var faceArea := Area(face.bbox.w, face.bbox.h);
    && face.score >= c.minFaceScore
    && face.bbox.w >= 2.0
    && face.bbox.h >= 2.0
    && person.w > 1.0
    && person.h > 1.0
    && faceArea > 0.0
    && CenterInside(face.bbox, person)
    && Overlap(face.bbox, person) / faceArea >= 0.5
    && PlausibleSize(face.bbox, person)
  }

  predicate PlausibleSize(face: Rect, person: Rect)
  {
    var minH := Max(4.0, person.h * 0.04);
    var maxH := Max(minH, person.h * 0.60);
    minH <= face.h <= maxH && face.w <= person.w * 0.95
  }

  function FitScore(face: FaceObservation, person: Rect): real
  {
    var faceArea := Max(1.0, Area(face.bbox.w, face.bbox.h));
    face.score + Overlap(face.bbox, person) / faceArea * 2.0 + RectIou(face.bbox, person)
  }

  function FaceOnlyBox(face: FaceObservation, id: int): Box
  {
    DEFAULT_BOX.(x := face.bbox.x, y := face.bbox.y, w := face.bbox.w, h := face.bbox.h, id := id, score := face.score,
                 privacyAction := ANONYMIZE, recognitionState := "face_only", face := Some(face))
  }

  // ---------------------------------------------------------------- the greedy choice, as a function

  ghost predicate SortedByScore(faces: seq<FaceObservation>)
  {
    forall i, j :: 0 <= i < j < |faces| ==> faces[i].score >= faces[j].score
  }

  /** The best free plausible person among the first n, the earliest on ties, or -1. */
  function BestTrack(c: Config, people: seq<Rect>, taken: set<int>, face: FaceObservation, n: nat): (best: int)
    requires n <= |people|
    ensures -1 <= best < n
  {
    if n == 0 then -1
    else
      var best := BestTrack(c, people, taken, face, n - 1);
      if n - 1 in taken || !Plausible(c, face, people[n - 1]) then best
      else if best == -1 || FitScore(face, people[n - 1]) > FitScore(face, people[best]) then n - 1
      else best
  }

  /** The person the k-th face gets, or -1, after the earlier faces have chosen. */
  function Choice(c: Config, people: seq<Rect>, faces: seq<FaceObservation>, k: nat): (choice: int)
    requires k < |faces|
    ensures -1 <= choice < |people|
    decreases k, 1
  {
    BestTrack(c, people, Taken(c, people, faces, k), faces[k], |people|)
  }

  /** The people (and -1) chosen by the first k faces. */
  function Taken(c: Config, people: seq<Rect>, faces: seq<FaceObservation>, k: nat): set<int>
    requires k <= |faces|
    decreases k, 0
  {
    if k == 0 then {} else Taken(c, people, faces, k - 1) + {Choice(c, people, faces, k - 1)}
  }

  /** A face as it is attached: stamped with the frame and fresh. */
  function Stamped(face: FaceObservation, frameId: int): FaceObservation
  {
    face.(frameId := frameId, isFresh := true)
  }

  function WithFace(track: Box, face: FaceObservation): Box
  {
    track.(face := Some(face))
  }

  function PeopleOf(tracks: seq<Box>): (people: seq<Rect>)
    ensures |people| == |tracks|
    ensures forall i :: 0 <= i < |tracks| ==> people[i] == RectOf(tracks[i])
  {
    seq(|tracks|, i requires 0 <= i < |tracks| => RectOf(tracks[i]))
  }

  /** The tracks after the first k faces were placed. */
  function Placed(c: Config, tracks: seq<Box>, faces: seq<FaceObservation>, frameId: int, k: nat): (r: seq<Box>)
    requires k <= |faces|
    ensures |r| >= |tracks|
  {
    if k == 0 then tracks
    else
      var r := Placed(c, tracks, faces, frameId, k - 1);
      var choice := Choice(c, PeopleOf(tracks), faces, k - 1);
      var face := Stamped(faces[k - 1], frameId);
      if choice >= 0 then r[choice := WithFace(r[choice], face)]
      else if c.independent then r + [FaceOnlyBox(face, -1 - (|r| - |tracks|))]
      else r
  }

  // ---------------------------------------------------------------- the assignment is a maximal stable matching

  lemma {:induction false} BestTrackIsBest(c: Config, people: seq<Rect>, taken: set<int>, face: FaceObservation, n: nat)
    requires n <= |people|
    ensures var best := BestTrack(c, people, taken, face, n);
      && (best >= 0 ==> best !in taken && Plausible(c, face, people[best]))
      && (forall i :: 0 <= i < n && i !in taken && Plausible(c, face, people[i]) ==>
            best >= 0 && FitScore(face, people[best]) >= FitScore(face, people[i]))
  {
    if n > 0 {
      BestTrackIsBest(c, people, taken, face, n - 1);
    }
  }

  /** The place of the face among the first k that got this person. */
  ghost predicate ChosenAt(c: Config, people: seq<Rect>, faces: seq<FaceObservation>, i: int, g: int)
  {
    0 <= g < |faces| && Choice(c, people, faces, g) == i
  }

  lemma TakenStep(c: Config, people: seq<Rect>, faces: seq<FaceObservation>, k: nat)
    requires k < |faces|
    ensures Taken(c, people, faces, k + 1) == Taken(c, people, faces, k) + {Choice(c, people, faces, k)}
  {
    hide Choice;
  }

  lemma {:induction false} TakenByEarlier(c: Config, people: seq<Rect>, faces: seq<FaceObservation>, k: nat, i: int)
    requires k <= |faces|
    ensures i in Taken(c, people, faces, k) <==> exists g :: 0 <= g < k && ChosenAt(c, people, faces, i, g)
  {
    if k > 0 {
      TakenByEarlier(c, people, faces, k - 1, i);
      TakenStep(c, people, faces, k - 1);
      assert ChosenAt(c, people, faces, i, k - 1) <==> Choice(c, people, faces, k - 1) == i;
      hide Taken, Choice, ChosenAt;
    }
  }

  /** No person gets two faces. */
  lemma ChoicesOneToOne(c: Config, people: seq<Rect>, faces: seq<FaceObservation>, f: nat, g: nat)
    requires f < g < |faces|
    ensures Choice(c, people, faces, f) >= 0 ==> Choice(c, people, faces, f) != Choice(c, people, faces, g)
  {
    BestTrackIsBest(c, people, Taken(c, people, faces, g), faces[g], |people|);
    TakenByEarlier(c, people, faces, g, Choice(c, people, faces, f));
    assert ChosenAt(c, people, faces, Choice(c, people, faces, f), f);
  }

  /** A face only ever gets a plausible person. */
  lemma ChoicesPlausible(c: Config, people: seq<Rect>, faces: seq<FaceObservation>, f: nat)
    requires f < |faces|
    ensures var choice := Choice(c, people, faces, f);
      choice >= 0 ==> Plausible(c, faces[f], people[choice])
  {
    BestTrackIsBest(c, people, Taken(c, people, faces, f), faces[f], |people|);
  }

  /**
    Stability and maximality: whenever a face would rather have a plausible person than what it got
    (including nothing), that person holds a face detected with at least its score.
  */
  lemma ChoicesStable(c: Config, people: seq<Rect>, faces: seq<FaceObservation>, f: nat, i: nat)
    returns (g: nat)
    requires SortedByScore(faces) && f < |faces| && i < |people|
    requires Plausible(c, faces[f], people[i])
    requires var choice := Choice(c, people, faces, f);
      choice < 0 || FitScore(faces[f], people[i]) > FitScore(faces[f], people[choice])
    ensures g < |faces| && Choice(c, people, faces, g) == i
    ensures faces[g].score >= faces[f].score
  {
    BestTrackIsBest(c, people, Taken(c, people, faces, f), faces[f], |people|);
    TakenByEarlier(c, people, faces, f, i);
    g :| 0 <= g < f && ChosenAt(c, people, faces, i, g);
  }

  // ---------------------------------------------------------------- what happens to the tracks

  /** The faces among the first k that got no person, in order. */
  function Unplaced(c: Config, people: seq<Rect>, faces: seq<FaceObservation>, k: nat): seq<FaceObservation>
    requires k <= |faces|
  {
    if k == 0 then []
    else Unplaced(c, people, faces, k - 1) + (if Choice(c, people, faces, k - 1) < 0 then [faces[k - 1]] else [])
  }

  /** How many of the first k faces got a person. */
  function Placements(c: Config, people: seq<Rect>, faces: seq<FaceObservation>, k: nat): nat
    requires k <= |faces|
  {
    if k == 0 then 0
    else Placements(c, people, faces, k - 1) + (if Choice(c, people, faces, k - 1) >= 0 then 1 else 0)
  }

  /** No face is lost and none is invented. */
  lemma {:induction false} FacesConserved(c: Config, people: seq<Rect>, faces: seq<FaceObservation>, k: nat)
    requires k <= |faces|
    ensures |Unplaced(c, people, faces, k)| + Placements(c, people, faces, k) == k
  {
    if k > 0 {
      FacesConserved(c, people, faces, k - 1);
    }
  }

  lemma FreshChoice(c: Config, people: seq<Rect>, faces: seq<FaceObservation>, k: nat)
    requires k < |faces|
    ensures Choice(c, people, faces, k) >= 0 ==> Choice(c, people, faces, k) !in Taken(c, people, faces, k)
  {
    BestTrackIsBest(c, people, Taken(c, people, faces, k), faces[k], |people|);
  }

  lemma PlacedStep(c: Config, tracks: seq<Box>, faces: seq<FaceObservation>, frameId: int, k: nat)
    requires 0 < k <= |faces|
    ensures var before, after := Placed(c, tracks, faces, frameId, k - 1), Placed(c, tracks, faces, frameId, k);
      var choice, face := Choice(c, PeopleOf(tracks), faces, k - 1), Stamped(faces[k - 1], frameId);
      if choice >= 0 then choice < |tracks| && after == before[choice := WithFace(before[choice], face)]
      else after == before + Extra(c, face, |before| - |tracks|)
  {
    hide FaceOnlyBox, Stamped, WithFace, Choice;
  }

  /** What a face without a person adds after n such faces. */
  function Extra(c: Config, face: FaceObservation, n: nat): seq<Box>
  {
    if c.independent then [FaceOnlyBox(face, -1 - n)] else []
  }

  /** A person chosen by a face carries exactly that face; every other person is untouched. */
  lemma {:induction false} PeopleAfterwards(c: Config, tracks: seq<Box>, faces: seq<FaceObservation>, frameId: int, k: nat)
    requires k <= |faces|
    ensures var r := Placed(c, tracks, faces, frameId, k);
      var people := PeopleOf(tracks);
      && (forall g :: 0 <= g < k && Choice(c, people, faces, g) >= 0 ==>
            r[Choice(c, people, faces, g)] == WithFace(tracks[Choice(c, people, faces, g)], Stamped(faces[g], frameId)))
      && (forall i :: 0 <= i < |tracks| && i !in Taken(c, people, faces, k) ==> r[i] == tracks[i])
  {
    if k > 0 {
      hide WithFace, Stamped, FaceOnlyBox, Choice, PeopleOf, Placed, Taken;
      var people := PeopleOf(tracks);
      PeopleAfterwards(c, tracks, faces, frameId, k - 1);
      forall g | 0 <= g < k - 1
        ensures Choice(c, people, faces, g) >= 0 ==> Choice(c, people, faces, g) != Choice(c, people, faces, k - 1)
      {
        ChoicesOneToOne(c, people, faces, g, k - 1);
      }
      FreshChoice(c, people, faces, k - 1);
      PlacedStep(c, tracks, faces, frameId, k);
      TakenStep(c, people, faces, k - 1);
    }
  }

  /** Boxes for faces without a person, numbered -1, -2, ... */
  function FaceOnlyBoxes(c: Config, people: seq<Rect>, faces: seq<FaceObservation>, frameId: int, k: nat): (boxes: seq<Box>)
    requires k <= |faces|
  {
    if k == 0 then []
    else
      var boxes := FaceOnlyBoxes(c, people, faces, frameId, k - 1);
      if Choice(c, people, faces, k - 1) >= 0 then boxes
      else boxes + [FaceOnlyBox(Stamped(faces[k - 1], frameId), -1 - |boxes|)]
  }

  lemma {:induction false} FaceOnlyBoxesAreUnplaced(c: Config, people: seq<Rect>, faces: seq<FaceObservation>, frameId: int, k: nat)
    requires k <= |faces|
    ensures var boxes := FaceOnlyBoxes(c, people, faces, frameId, k);
      var extra := Unplaced(c, people, faces, k);
      && |boxes| == |extra|
      && forall t :: 0 <= t < |extra| ==> boxes[t] == FaceOnlyBox(Stamped(extra[t], frameId), -1 - t)
  {
    if k > 0 {
      FaceOnlyBoxesAreUnplaced(c, people, faces, frameId, k - 1);
      hide FaceOnlyBox, Stamped, Choice;
    }
  }

  lemma PlacedTail(c: Config, tracks: seq<Box>, faces: seq<FaceObservation>, frameId: int, k: nat)
    requires 0 < k <= |faces|
    ensures var before := Placed(c, tracks, faces, frameId, k - 1);
      Placed(c, tracks, faces, frameId, k)[|tracks|..]
      == before[|tracks|..] + if Choice(c, PeopleOf(tracks), faces, k - 1) >= 0 then []
                              else Extra(c, Stamped(faces[k - 1], frameId), |before| - |tracks|)
  {
    PlacedStep(c, tracks, faces, frameId, k);
    hide Placed, Extra, Stamped, WithFace, Choice, PeopleOf;
  }

  lemma FaceOnlyStep(c: Config, people: seq<Rect>, faces: seq<FaceObservation>, frameId: int, k: nat)
    requires 0 < k <= |faces| && c.independent
    ensures var boxes := FaceOnlyBoxes(c, people, faces, frameId, k - 1);
      FaceOnlyBoxes(c, people, faces, frameId, k)
      == boxes + if Choice(c, people, faces, k - 1) >= 0 then [] else Extra(c, Stamped(faces[k - 1], frameId), |boxes|)
  {
    hide FaceOnlyBox, Stamped, Choice;
  }

  /** In independent mode the faces without a person follow as boxes of their own; otherwise nothing is added. */
  lemma {:induction false} AdditionsAfterwards(c: Config, tracks: seq<Box>, faces: seq<FaceObservation>, frameId: int, k: nat)
    requires k <= |faces|
    ensures Placed(c, tracks, faces, frameId, k)[|tracks|..]
         == if c.independent then FaceOnlyBoxes(c, PeopleOf(tracks), faces, frameId, k) else []
  {
    if k > 0 {
      hide Placed, FaceOnlyBoxes, FaceOnlyBox, Stamped, WithFace, Choice, PeopleOf;
      AdditionsAfterwards(c, tracks, faces, frameId, k - 1);
      PlacedTail(c, tracks, faces, frameId, k);
      if c.independent {
        hide Extra;
        FaceOnlyStep(c, PeopleOf(tracks), faces, frameId, k);
      }
    }
  }

  // ---------------------------------------------------------------- sorting

  function ScoreOf(face: FaceObservation): real { face.score }

  /** The order in which faces choose. */
  function Sorted(faces: seq<FaceObservation>): seq<FaceObservation>
  {
    Sorting.Sorted(ScoreOf, faces)
  }

  lemma SortedIsSorted(faces: seq<FaceObservation>)
    ensures SortedByScore(Sorted(faces))
    ensures multiset(Sorted(faces)) == multiset(faces)
  {
    Sorting.SortedIsSorted(ScoreOf, faces);
    var sorted := Sorted(faces);
    forall i, j | 0 <= i < j < |sorted|
      ensures sorted[i].score >= sorted[j].score
    {
      assert ScoreOf(sorted[i]) >= ScoreOf(sorted[j]);
    }
  }

  // ---------------------------------------------------------------- the stage operations

  /** Fail-closed reset of the tracks before a probe: nothing recognised, no face, anonymize. */
  function Reset(tracks: seq<Box>): (r: seq<Box>)
    ensures |r| == |tracks|
    ensures forall i :: 0 <= i < |tracks| ==> r[i] == tracks[i].(privacyAction := ANONYMIZE, face := None)
  {
    seq(|tracks|, i requires 0 <= i < |tracks| => tracks[i].(privacyAction := ANONYMIZE, face := None))
  }

  function PlacedAll(c: Config, tracks: seq<Box>, faces: seq<FaceObservation>, frameId: int): seq<Box>
  {
    Placed(c, tracks, faces, frameId, |faces|)
  }

  /** One face-detection result after another, in the order they arrived. */
  function Applied(c: Config, tracks: seq<Box>, results: seq<seq<FaceObservation>>, frameId: int): seq<Box>
  {
    if results == [] then tracks
    else
      var k := |results| - 1;
      PlacedAll(c, Applied(c, tracks, results[..k], frameId), Sorted(results[k]), frameId)
  }

  /** The counters are positive exactly at the taken people. */
  ghost predicate HeldBy(held: seq<nat>, taken: set<int>)
  {
    forall i :: 0 <= i < |held| ==> (held[i] >= 1 <==> i in taken)
  }

  lemma NothingPlaced(c: Config, tracks: seq<Box>, faces: seq<FaceObservation>, frameId: int, held: seq<nat>)
    requires forall i :: 0 <= i < |held| ==> held[i] == 0
    ensures Placed(c, tracks, faces, frameId, 0) == tracks
    ensures HeldBy(held, Taken(c, PeopleOf(tracks), faces, 0))
  {
  }

  lemma OneMoreHeld(held: seq<nat>, taken: set<int>, choice: int)
    requires HeldBy(held, taken) && choice < |held|
    ensures choice < 0 ==> HeldBy(held, taken + {choice})
    ensures choice >= 0 ==> HeldBy(held[choice := held[choice] + 1], taken + {choice})
  {
  }

  /** The inner scan: the best free plausible person for one face. */
  method FindBestTrack(c: Config, tracks: seq<Box>, held: array<nat>, people: nat, face: FaceObservation, ghost taken: set<int>)
    returns (bestTrack: nat)
    requires people <= |tracks| && held.Length == people
    requires HeldBy(held[..], taken)
    ensures bestTrack <= people
    ensures (if bestTrack == people then -1 else bestTrack) == BestTrack(c, PeopleOf(tracks)[..people], taken, face, people)
  {
    bestTrack := people;
    var bestScore: Option<real> := None;
    ghost var rects := PeopleOf(tracks)[..people];
    for i := 0 to people
      invariant bestTrack == people <==> bestScore == None
      invariant bestTrack < people ==> bestScore == Some(FitScore(face, rects[bestTrack]))
      invariant bestTrack <= people
      invariant (if bestTrack == people then -1 else bestTrack) == BestTrack(c, rects, taken, face, i)
    {
      if held[i] >= 1 {
        continue;
      }
      if !Plausible(c, face, RectOf(tracks[i])) {
        continue;
      }
      var score := FitScore(face, RectOf(tracks[i]));
      if bestScore == None || score > bestScore.value {
        bestScore := Some(score);
        bestTrack := i;
      }
    }
  }

  /** Stamping a face does not change where it fits. */
  lemma {:induction false} StampKeepsChoice(c: Config, people: seq<Rect>, taken: set<int>, face: FaceObservation, frameId: int, n: nat)
    requires n <= |people|
    ensures BestTrack(c, people, taken, Stamped(face, frameId), n) == BestTrack(c, people, taken, face, n)
  {
    if n > 0 {
      StampKeepsChoice(c, people, taken, face, frameId, n - 1);
    }
  }

  /** Attaching faces does not move people. */
  lemma {:induction false} PlacedKeepsPeople(c: Config, tracks: seq<Box>, faces: seq<FaceObservation>, frameId: int, k: nat)
    requires k <= |faces|
    ensures PeopleOf(Placed(c, tracks, faces, frameId, k))[..|tracks|] == PeopleOf(tracks)
  {
    if k > 0 {
      PlacedKeepsPeople(c, tracks, faces, frameId, k - 1);
      PlacedStep(c, tracks, faces, frameId, k);
      var r0 := Placed(c, tracks, faces, frameId, k - 1);
      var r := Placed(c, tracks, faces, frameId, k);
      hide Placed, Choice, Extra, Stamped;
      forall i | 0 <= i < |tracks|
        ensures RectOf(r[i]) == RectOf(tracks[i])
      {
        assert PeopleOf(r0)[..|tracks|][i] == RectOf(r0[i]);
      }
    }
  }

  lemma ChoiceIsBestTrack(c: Config, people: seq<Rect>, faces: seq<FaceObservation>, k: nat)
    requires k < |faces|
    ensures Choice(c, people, faces, k) == BestTrack(c, people, Taken(c, people, faces, k), faces[k], |people|)
  {
  }

  /** Places the faces of one full-frame result on the tracks, highest detection score first. */
  method AssignFullFrameFaces(tracks: seq<Box>, faces: seq<FaceObservation>, frameId: int, c: Config) returns (result: seq<Box>)
    ensures result == PlacedAll(c, tracks, Sorted(faces), frameId)
  {
    hide BestTrack, PeopleOf, FaceOnlyBox, Stamped, Sorted, WithFace, Plausible, Placed, Taken, Choice, HeldBy;
    var sorted := Sorted(faces);
    result := tracks;
    var held := new nat[|tracks|](_ => 0);
    var faceOnlyId := -1;
    ghost var people := PeopleOf(tracks);
    NothingPlaced(c, tracks, sorted, frameId, held[..]);
    for k := 0 to |sorted|
      invariant result == Placed(c, tracks, sorted, frameId, k)
      invariant faceOnlyId == -1 - (|result| - |tracks|)
      invariant HeldBy(held[..], Taken(c, people, sorted, k))
    {
      PlacedKeepsPeople(c, tracks, sorted, frameId, k);
      StampKeepsChoice(c, people, Taken(c, people, sorted, k), sorted[k], frameId, |people|);
      var face := Stamped(sorted[k], frameId);
      var bestTrack := FindBestTrack(c, result, held, |tracks|, face, Taken(c, people, sorted, k));
      ChoiceIsBestTrack(c, people, sorted, k);
      PlacedStep(c, tracks, sorted, frameId, k + 1);
      TakenStep(c, people, sorted, k);
      OneMoreHeld(held[..], Taken(c, people, sorted, k), Choice(c, people, sorted, k));
      if bestTrack >= |tracks| {
        if !c.independent {
          continue;
        }
        result := result + [FaceOnlyBox(face, faceOnlyId)];
        faceOnlyId := faceOnlyId - 1;
        continue;
      }
      result := result[bestTrack := WithFace(result[bestTrack], face)];
      held[bestTrack] := held[bestTrack] + 1;
    }
  }

  // ---------------------------------------------------------------- what the results of a frame do

  /** The box carries a face detected in this frame. */
  predicate FreshIn(b: Box, frameId: int)
  {
    b.face.Some? && b.face.value.isFresh && b.face.value.frameId == frameId
  }

  /** The same box but for its face. */
  predicate SameButFace(a: Box, b: Box)
  {
    a == b.(face := a.face)
  }

  /** Some face gets this person. */
  ghost predicate IsTaken(choice: seq<int>, i: int)
  {
    exists g :: 0 <= g < |choice| && choice[g] == i
  }

  /** The face fits this person, and better than the one it has, if any. */
  predicate Prefers(c: Config, people: seq<Rect>, face: FaceObservation, holder: int, i: int)
    requires holder < |people| && 0 <= i < |people|
  {
    Plausible(c, face, people[i]) && (holder < 0 || FitScore(face, people[i]) > FitScore(face, people[holder]))
  }

  /**
    Who gets which of the faces, in the order in which they choose; -1 for nobody. Nobody gets two, each
    is plausible, and a face that would rather have had somebody was not before whoever got that person.
  */
  ghost predicate IsSeating(c: Config, people: seq<Rect>, faces: seq<FaceObservation>, choice: seq<int>)
  {
    && |choice| == |faces|
    && (forall g :: 0 <= g < |faces| ==> -1 <= choice[g] < |people|)
    && (forall f, g :: 0 <= f < g < |faces| && choice[f] >= 0 ==> choice[f] != choice[g])
    && (forall g :: 0 <= g < |faces| && choice[g] >= 0 ==> Plausible(c, faces[g], people[choice[g]]))
    && (forall f, i :: 0 <= f < |faces| && 0 <= i < |people| && Prefers(c, people, faces[f], choice[f], i) ==> IsTaken(choice, i))
  }

  function Left(choice: seq<int>): nat
  {
    if choice == [] then 0 else Left(choice[..|choice| - 1]) + (if choice[|choice| - 1] < 0 then 1 else 0)
  }

  function Seated(choice: seq<int>): nat
  {
    if choice == [] then 0 else Seated(choice[..|choice| - 1]) + (if choice[|choice| - 1] >= 0 then 1 else 0)
  }

  /** Whoever was chosen carries that face from this frame on; nobody else changes; and in independent mode the others become boxes. */
  /** The box carries this face, stamped with the frame. */
  predicate Carries(b: Box, face: FaceObservation, frameId: int)
  {
    b.face == Some(face.(frameId := frameId, isFresh := true))
  }

  /** A box of its own for a face nobody got. */
  predicate StandsAlone(b: Box, face: FaceObservation, frameId: int, id: int)
  {
    Carries(b, face, frameId) && RectOf(b) == face.bbox && b.id == id && b.score == face.score && b.identityKey == ""
  }

  /** The faces nobody got follow the people in their order, numbered -1, -2, ... */
  ghost predicate AreAlone(people: nat, faces: seq<FaceObservation>, frameId: int, choice: seq<int>, after: seq<Box>)
    requires |choice| == |faces|
  {
    forall g :: 0 <= g < |faces| && choice[g] < 0 ==>
      var t := Left(choice[..g]);
      people + t < |after| && StandsAlone(after[people + t], faces[g], frameId, -1 - t)
  }

  ghost predicate IsSeated(c: Config, before: seq<Box>, faces: seq<FaceObservation>, frameId: int, choice: seq<int>, after: seq<Box>)
    requires |choice| == |faces| && forall g :: 0 <= g < |faces| ==> -1 <= choice[g] < |before|
  {
    && |after| == |before| + (if c.independent then Left(choice) else 0)
    && (forall i :: 0 <= i < |before| && !IsTaken(choice, i) ==> after[i] == before[i])
    && (forall i :: 0 <= i < |before| ==> SameButFace(after[i], before[i]))
    && (forall g :: 0 <= g < |faces| && choice[g] >= 0 ==>
          FreshIn(after[choice[g]], frameId) && Carries(after[choice[g]], faces[g], frameId))
    && (c.independent ==> AreAlone(|before|, faces, frameId, choice, after))
    && (forall t :: |before| <= t < |after| ==> FreshIn(after[t], frameId) && after[t].privacyAction == ANONYMIZE && after[t].id < 0)
  }

  /** One result after another is seated on the boxes the ones before leave. */
  ghost predicate Seats(c: Config, results: seq<seq<FaceObservation>>, frameId: int, stages: seq<seq<Box>>, choices: seq<seq<int>>)
  {
    && |stages| == |results| + 1
    && |choices| == |results|
    && forall k :: 0 <= k < |results| ==> SeatsOne(c, stages[k], Sorted(results[k]), frameId, choices[k], stages[k + 1])
  }

  ghost predicate SeatsOne(c: Config, before: seq<Box>, faces: seq<FaceObservation>, frameId: int, choice: seq<int>, after: seq<Box>)
  {
    IsSeating(c, PeopleOf(before), faces, choice) && IsSeated(c, before, faces, frameId, choice, after)
  }

  function ChoicesOf(c: Config, people: seq<Rect>, faces: seq<FaceObservation>): (choice: seq<int>)
    ensures |choice| == |faces| && forall g :: 0 <= g < |faces| ==> choice[g] == Choice(c, people, faces, g)
  {
    seq(|faces|, g requires 0 <= g < |faces| => Choice(c, people, faces, g))
  }

  lemma ChoicesSeat(c: Config, people: seq<Rect>, faces: seq<FaceObservation>)
    requires SortedByScore(faces)
    ensures IsSeating(c, people, faces, ChoicesOf(c, people, faces))
  {
    var choice := ChoicesOf(c, people, faces);
    hide Choice, Plausible, FitScore;
    forall f, g | 0 <= f < g < |faces| && choice[f] >= 0
      ensures choice[f] != choice[g]
    {
      ChoicesOneToOne(c, people, faces, f, g);
    }
    forall g | 0 <= g < |faces| && choice[g] >= 0
      ensures Plausible(c, faces[g], people[choice[g]])
    {
      ChoicesPlausible(c, people, faces, g);
    }
    forall f, i | 0 <= f < |faces| && 0 <= i < |people| && Prefers(c, people, faces[f], choice[f], i)
      ensures IsTaken(choice, i)
    {
      var g := ChoicesStable(c, people, faces, f, i);
      assert choice[g] == i;
    }
  }

  lemma {:induction false} LeftIsUnplaced(c: Config, people: seq<Rect>, faces: seq<FaceObservation>, k: nat)
    requires k <= |faces|
    ensures Left(ChoicesOf(c, people, faces)[..k]) == |Unplaced(c, people, faces, k)|
  {
    if k > 0 {
      LeftIsUnplaced(c, people, faces, k - 1);
      var choice := ChoicesOf(c, people, faces);
      assert choice[..k][..k - 1] == choice[..k - 1];
      hide Choice;
    }
  }

  /** No face is lost and none is invented. */
  lemma {:induction false} LeftAndSeated(choice: seq<int>)
    ensures Left(choice) + Seated(choice) == |choice|
  {
    if choice != [] {
      LeftAndSeated(choice[..|choice| - 1]);
    }
  }

  lemma ChosenAreTaken(c: Config, people: seq<Rect>, faces: seq<FaceObservation>, i: int)
    ensures i in Taken(c, people, faces, |faces|) <==> IsTaken(ChoicesOf(c, people, faces), i)
  {
    hide Choice, Taken;
    TakenByEarlier(c, people, faces, |faces|, i);
    var choice := ChoicesOf(c, people, faces);
    assert forall g :: 0 <= g < |faces| ==> (ChosenAt(c, people, faces, i, g) <==> choice[g] == i);
  }

  /** Chosen people carry a face of this frame, and nobody else changes. */
  lemma PlacedPeople(c: Config, before: seq<Box>, faces: seq<FaceObservation>, frameId: int)
    ensures var choice, after := ChoicesOf(c, PeopleOf(before), faces), PlacedAll(c, before, faces, frameId);
      && (forall i :: 0 <= i < |before| && !IsTaken(choice, i) ==> after[i] == before[i])
      && (forall i :: 0 <= i < |before| ==> SameButFace(after[i], before[i]))
      && (forall g :: 0 <= g < |faces| && choice[g] >= 0 ==>
            FreshIn(after[choice[g]], frameId) && Carries(after[choice[g]], faces[g], frameId))
  {
    var people := PeopleOf(before);
    var choice, after := ChoicesOf(c, people, faces), PlacedAll(c, before, faces, frameId);
    PeopleAfterwards(c, before, faces, frameId, |faces|);
    hide Choice, Placed, PeopleOf, Taken, IsTaken;
    forall i | 0 <= i < |before|
      ensures !IsTaken(choice, i) ==> after[i] == before[i]
      ensures SameButFace(after[i], before[i])
    {
      ChosenAreTaken(c, people, faces, i);
      if IsTaken(choice, i) {
        var g := TakenAt(choice, i);
      }
    }
  }

  lemma TakenAt(choice: seq<int>, i: int) returns (g: nat)
    requires IsTaken(choice, i)
    ensures g < |choice| && choice[g] == i
  {
    g :| 0 <= g < |choice| && choice[g] == i;
  }

  /** A face nobody got is among those left over, after the earlier ones. */
  lemma {:induction false} UnplacedAt(c: Config, people: seq<Rect>, faces: seq<FaceObservation>, g: nat, k: nat)
    requires g < k <= |faces| && Choice(c, people, faces, g) < 0
    ensures |Unplaced(c, people, faces, g)| < |Unplaced(c, people, faces, k)|
    ensures Unplaced(c, people, faces, k)[|Unplaced(c, people, faces, g)|] == faces[g]
  {
    hide Choice;
    if g < k - 1 {
      UnplacedAt(c, people, faces, g, k - 1);
    }
  }

  lemma AloneAfterwards(c: Config, before: seq<Box>, faces: seq<FaceObservation>, frameId: int, g: nat)
    requires c.independent && g < |faces| && Choice(c, PeopleOf(before), faces, g) < 0
    ensures var t, after := |Unplaced(c, PeopleOf(before), faces, g)|, PlacedAll(c, before, faces, frameId);
      |before| + t < |after| && StandsAlone(after[|before| + t], faces[g], frameId, -1 - t)
  {
    var people, n := PeopleOf(before), |faces|;
    var after := PlacedAll(c, before, faces, frameId);
    AdditionsAfterwards(c, before, faces, frameId, n);
    FaceOnlyBoxesAreUnplaced(c, people, faces, frameId, n);
    UnplacedAt(c, people, faces, g, n);
    var t := |Unplaced(c, people, faces, g)|;
    hide Choice, Placed, Unplaced, FaceOnlyBoxes, PeopleOf;
    assert after[|before| + t] == after[|before|..][t];
  }

  /** In independent mode each face nobody got has a box of its own. */
  lemma PlacedAlone(c: Config, before: seq<Box>, faces: seq<FaceObservation>, frameId: int)
    requires c.independent
    ensures AreAlone(|before|, faces, frameId, ChoicesOf(c, PeopleOf(before), faces), PlacedAll(c, before, faces, frameId))
  {
    var choice := ChoicesOf(c, PeopleOf(before), faces);
    hide Choice, PlacedAll, Unplaced, PeopleOf, StandsAlone;
    forall g | 0 <= g < |faces| && choice[g] < 0
      ensures var t, after := Left(choice[..g]), PlacedAll(c, before, faces, frameId);
        |before| + t < |after| && StandsAlone(after[|before| + t], faces[g], frameId, -1 - t)
    {
      AloneAfterwards(c, before, faces, frameId, g);
      LeftIsUnplaced(c, PeopleOf(before), faces, g);
    }
  }

  /** In independent mode the faces left over become boxes of this frame. */
  lemma PlacedAdditions(c: Config, before: seq<Box>, faces: seq<FaceObservation>, frameId: int)
    ensures var choice, after := ChoicesOf(c, PeopleOf(before), faces), PlacedAll(c, before, faces, frameId);
      && |after| == |before| + (if c.independent then Left(choice) else 0)
      && (forall t :: |before| <= t < |after| ==> FreshIn(after[t], frameId) && after[t].privacyAction == ANONYMIZE && after[t].id < 0)
  {
    var people, n := PeopleOf(before), |faces|;
    var choice, after := ChoicesOf(c, people, faces), PlacedAll(c, before, faces, frameId);
    AdditionsAfterwards(c, before, faces, frameId, n);
    FaceOnlyBoxesAreUnplaced(c, people, faces, frameId, n);
    LeftIsUnplaced(c, people, faces, n);
    assert choice[..n] == choice;
    hide Choice, Placed, Unplaced, FaceOnlyBoxes, Left, PeopleOf;
    forall t | |before| <= t < |after|
      ensures FreshIn(after[t], frameId) && after[t].privacyAction == ANONYMIZE && after[t].id < 0
    {
      assert after[t] == after[|before|..][t - |before|];
    }
  }

  /** The placement of one result seats its faces. */
  lemma PlacedSeats(c: Config, before: seq<Box>, faces: seq<FaceObservation>, frameId: int)
    requires SortedByScore(faces)
    ensures SeatsOne(c, before, faces, frameId, ChoicesOf(c, PeopleOf(before), faces), PlacedAll(c, before, faces, frameId))
  {
    hide ChoicesOf, PlacedAll, PeopleOf, SameButFace, FreshIn, Left, IsTaken, Choice, IsSeating;
    ChoicesSeat(c, PeopleOf(before), faces);
    PlacedPeople(c, before, faces, frameId);
    PlacedAdditions(c, before, faces, frameId);
    hide AreAlone, Carries;
    if c.independent {
      PlacedAlone(c, before, faces, frameId);
    }
  }

  // ---------------------------------------------------------------- what follows for a frame

  ghost predicate SomeFresh(boxes: seq<Box>, frameId: int)
  {
    exists i :: 0 <= i < |boxes| && FreshIn(boxes[i], frameId)
  }

  /** Some face of some result fits some person. */
  ghost predicate AnyPlausible(c: Config, people: seq<Rect>, results: seq<seq<FaceObservation>>)
  {
    exists k, f, i :: 0 <= k < |results| && 0 <= f < |results[k]| && 0 <= i < |people| && Plausible(c, results[k][f], people[i])
  }

  function TotalFaces(results: seq<seq<FaceObservation>>): nat
  {
    if results == [] then 0 else TotalFaces(results[..|results| - 1]) + |results[|results| - 1]|
  }

  function TotalSeated(choices: seq<seq<int>>): nat
  {
    if choices == [] then 0 else TotalSeated(choices[..|choices| - 1]) + Seated(choices[|choices| - 1])
  }

  lemma SortedHolds(faces: seq<FaceObservation>)
    ensures |Sorted(faces)| == |faces|
    ensures forall f :: f in faces <==> f in Sorted(faces)
  {
    SortedIsSorted(faces);
    hide Sorted;
    assert |multiset(faces)| == |faces| && |multiset(Sorted(faces))| == |Sorted(faces)|;
    forall f
      ensures f in faces <==> f in Sorted(faces)
    {
      assert f in faces <==> f in multiset(faces);
      assert f in Sorted(faces) <==> f in multiset(Sorted(faces));
    }
  }

  /** What was there stays there, and a fresh face does not get lost. */
  lemma OneKeeps(c: Config, before: seq<Box>, faces: seq<FaceObservation>, frameId: int, choice: seq<int>, after: seq<Box>)
    requires SeatsOne(c, before, faces, frameId, choice, after)
    ensures |after| >= |before| && forall i :: 0 <= i < |before| ==> SameButFace(after[i], before[i])
    ensures SomeFresh(before, frameId) ==> SomeFresh(after, frameId)
  {
    hide Plausible, FitScore, Left, FreshIn, SameButFace;
    if SomeFresh(before, frameId) {
      var i :| 0 <= i < |before| && FreshIn(before[i], frameId);
      if IsTaken(choice, i) {
        var g :| 0 <= g < |choice| && choice[g] == i;
      }
      assert FreshIn(after[i], frameId);
    }
  }

  /** A face that fits somebody is not left over while nobody has one. */
  lemma OnePlaces(c: Config, before: seq<Box>, faces: seq<FaceObservation>, frameId: int, choice: seq<int>, after: seq<Box>, f: nat, i: nat)
    requires SeatsOne(c, before, faces, frameId, choice, after) && f < |faces| && i < |before| && Plausible(c, faces[f], PeopleOf(before)[i])
    ensures SomeFresh(after, frameId)
  {
    hide Plausible, FitScore, Left, FreshIn, SameButFace;
    if choice[f] < 0 {
      assert Prefers(c, PeopleOf(before), faces[f], choice[f], i) && IsTaken(choice, i);
      var g :| 0 <= g < |choice| && choice[g] == i;
      assert FreshIn(after[i], frameId);
    } else {
      assert FreshIn(after[choice[f]], frameId);
    }
  }

  /** How many boxes there are after the results of a frame, and that each of the old ones is still in its place. */
  lemma {:induction false} AllKeep(c: Config, results: seq<seq<FaceObservation>>, frameId: int, stages: seq<seq<Box>>, choices: seq<seq<int>>)
    requires Seats(c, results, frameId, stages, choices)
    ensures var first, last := stages[0], stages[|results|];
      && |last| >= |first|
      && (forall i :: 0 <= i < |first| ==> SameButFace(last[i], first[i]))
      && (c.independent ==> TotalSeated(choices) + (|last| - |first|) == TotalFaces(results))
      && (!c.independent ==> |last| == |first|)
    decreases |results|
  {
    hide SeatsOne, Sorted, Seated;
    if results == [] {
      assert choices == [];
    } else {
      hide SameButFace;
      var n := |results| - 1;
      AllKeep(c, results[..n], frameId, stages[..n + 1], choices[..n]);
      OneKeeps(c, stages[n], Sorted(results[n]), frameId, choices[n], stages[n + 1]);
      OneCounts(c, stages[n], results[n], frameId, choices[n], stages[n + 1]);
      SameTwice(stages[0], stages[n], stages[n + 1]);
    }
  }

  /** What one result adds to the boxes and to the people seated makes up its faces. */
  lemma OneCounts(c: Config, before: seq<Box>, faces: seq<FaceObservation>, frameId: int, choice: seq<int>, after: seq<Box>)
    requires SeatsOne(c, before, Sorted(faces), frameId, choice, after)
    ensures |after| == |before| + (if c.independent then |faces| - Seated(choice) else 0)
  {
    LeftAndSeated(choice);
    SortedHolds(faces);
    hide IsTaken, SameButFace, FreshIn, AreAlone, Prefers, Plausible;
  }

  lemma SameTwice(a: seq<Box>, b: seq<Box>, d: seq<Box>)
    requires |a| <= |b| <= |d|
    requires forall i :: 0 <= i < |a| ==> SameButFace(b[i], a[i])
    requires forall i :: 0 <= i < |b| ==> SameButFace(d[i], b[i])
    ensures forall i :: 0 <= i < |a| ==> SameButFace(d[i], a[i])
  {
  }

  /** A fresh face stays for the rest of the frame. */
  lemma {:induction false} FreshStays(c: Config, results: seq<seq<FaceObservation>>, frameId: int, stages: seq<seq<Box>>, choices: seq<seq<int>>, k: nat)
    requires Seats(c, results, frameId, stages, choices) && k <= |results| && SomeFresh(stages[k], frameId)
    ensures SomeFresh(stages[|results|], frameId)
    decreases |results| - k
  {
    if k < |results| {
      OneKeeps(c, stages[k], Sorted(results[k]), frameId, choices[k], stages[k + 1]);
      hide SomeFresh, SeatsOne;
      FreshStays(c, results, frameId, stages, choices, k + 1);
    }
  }

  /** If any face of any result fits somebody, somebody carries a face of this frame afterwards. */
  lemma FittingFaceIsSeen(c: Config, results: seq<seq<FaceObservation>>, frameId: int, stages: seq<seq<Box>>, choices: seq<seq<int>>)
    requires Seats(c, results, frameId, stages, choices) && AnyPlausible(c, PeopleOf(stages[0]), results)
    ensures SomeFresh(stages[|results|], frameId)
  {
    var k, f, i :| 0 <= k < |results| && 0 <= f < |results[k]| && 0 <= i < |stages[0]| && Plausible(c, results[k][f], PeopleOf(stages[0])[i]);
    AllKeep(c, results[..k], frameId, stages[..k + 1], choices[..k]);
    assert SameButFace(stages[k][i], stages[0][i]);
    SortedHolds(results[k]);
    assert results[k][f] in Sorted(results[k]);
    var g :| 0 <= g < |Sorted(results[k])| && Sorted(results[k])[g] == results[k][f];
    hide Plausible, SeatsOne, SomeFresh, Sorted;
    assert PeopleOf(stages[k])[i] == PeopleOf(stages[0])[i];
    OnePlaces(c, stages[k], Sorted(results[k]), frameId, choices[k], stages[k + 1], g, i);
    FreshStays(c, results, frameId, stages, choices, k + 1);
  }

  /** Results without a face leave the boxes as they are. */
  lemma {:induction false} NoFaceNoChange(c: Config, results: seq<seq<FaceObservation>>, frameId: int, stages: seq<seq<Box>>, choices: seq<seq<int>>)
    requires Seats(c, results, frameId, stages, choices) && TotalFaces(results) == 0
    ensures stages[|results|] == stages[0]
    decreases |results|
  {
    if results != [] {
      var n := |results| - 1;
      NoFaceNoChange(c, results[..n], frameId, stages[..n + 1], choices[..n]);
      SortedHolds(results[n]);
      assert SeatsOne(c, stages[n], Sorted(results[n]), frameId, choices[n], stages[n + 1]);
      assert choices[n] == [];
    }
  }

  /** Applying the results of a frame seats them one after another. */
  lemma {:induction false} AppliedIsSeated(c: Config, tracks: seq<Box>, results: seq<seq<FaceObservation>>, frameId: int)
    returns (stages: seq<seq<Box>>, choices: seq<seq<int>>)
    ensures Seats(c, results, frameId, stages, choices) && stages[0] == tracks
    ensures stages[|results|] == Applied(c, tracks, results, frameId)
  {
    if results == [] {
      stages, choices := [tracks], [];
    } else {
      var k := |results| - 1;
      var earlier, chosen := AppliedIsSeated(c, tracks, results[..k], frameId);
      var before := Applied(c, tracks, results[..k], frameId);
      SortedIsSorted(results[k]);
      PlacedSeats(c, before, Sorted(results[k]), frameId);
      hide SeatsOne, PlacedAll, Sorted;
      stages := earlier + [PlacedAll(c, before, Sorted(results[k]), frameId)];
      choices := chosen + [ChoicesOf(c, PeopleOf(before), Sorted(results[k]))];
    }
  }

  lemma AppliedSeats(c: Config, tracks: seq<Box>, results: seq<seq<FaceObservation>>, frameId: int)
    requires AnyPlausible(c, PeopleOf(tracks), results)
    ensures SomeFresh(Applied(c, tracks, results, frameId), frameId)
  {
    hide AnyPlausible, SomeFresh, Applied;
    var stages, choices := AppliedIsSeated(c, tracks, results, frameId);
    FittingFaceIsSeen(c, results, frameId, stages, choices);
  }

  /**
    Applies the results of a frame's probes in arrival order, each seated on what the ones before left.
    If any face fits somebody, some box carries a face of this frame afterwards; in independent mode the
    faces seated and the boxes added are as many as the faces detected, and otherwise no box is added.
  */
  method Apply(tracks: seq<Box>, results: seq<seq<FaceObservation>>, frameId: int, c: Config)
    returns (result: seq<Box>, ghost stages: seq<seq<Box>>, ghost choices: seq<seq<int>>)
    ensures result == Applied(c, tracks, results, frameId)
    ensures Seats(c, results, frameId, stages, choices) && stages[0] == tracks && stages[|results|] == result
    ensures |result| >= |tracks| && forall i :: 0 <= i < |tracks| ==> SameButFace(result[i], tracks[i])
    ensures AnyPlausible(c, PeopleOf(tracks), results) ==> SomeFresh(result, frameId)
    ensures if c.independent then TotalSeated(choices) + (|result| - |tracks|) == TotalFaces(results) else |result| == |tracks|
    ensures TotalFaces(results) == 0 ==> result == tracks
  {
    hide SeatsOne, SameButFace, AnyPlausible, SomeFresh, TotalFaces, TotalSeated, PlacedAll, Sorted, PeopleOf;
    result, stages, choices := tracks, [tracks], [];
    for k := 0 to |results|
      invariant result == Applied(c, tracks, results[..k], frameId)
      invariant Seats(c, results[..k], frameId, stages, choices) && stages[0] == tracks && stages[k] == result
    {
      assert results[..k + 1][..k] == results[..k];
      SortedIsSorted(results[k]);
      PlacedSeats(c, result, Sorted(results[k]), frameId);
      choices := choices + [ChoicesOf(c, PeopleOf(result), Sorted(results[k]))];
      result := AssignFullFrameFaces(result, results[k], frameId, c);
      stages := stages + [result];
    }
    assert results[..|results|] == results;
    AllKeep(c, results, frameId, stages, choices);
    if AnyPlausible(c, PeopleOf(tracks), results) {
      FittingFaceIsSeen(c, results, frameId, stages, choices);
    }
    if TotalFaces(results) == 0 {
      NoFaceNoChange(c, results, frameId, stages, choices);
    }
  }
}
