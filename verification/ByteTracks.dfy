/**
  Tracks of core/src/tracking/bytetrack_tracker.cpp and the operations on lists of them. The algebra
  of the Kalman filter is a parameter; what a track's box is made of is not.
*/
module ByteTracks {
  import opened Numbers
  import opened Types
  import opened Association

  // ---------------------------------------------------------------- motion

  /** Mean and covariance, whatever the filter keeps in them. */
  type Motion = seq<real>

  /** A box as the filter sees it: centre, aspect and height. */
  datatype Measurement = Measurement(cx: real, cy: real, aspect: real, h: real)

  datatype Kalman = Kalman(
    initiate: Measurement -> Motion,
    predict: (Motion, bool) -> Motion,
    update: (Motion, Measurement) -> Motion,
    project: Motion -> Measurement)

  function Measured(b: Box): Measurement
  {
    var w, h := Max(1.0, b.w), Max(1.0, b.h);
    Measurement(b.x + w * 0.5, b.y + h * 0.5, w / h, h)
  }

  /** The box of a motion: at least one pixel a side, anonymized and without identity. */
  function BoxOf(k: Kalman, m: Motion): (b: Box)
    ensures b.w >= 1.0 && b.h >= 1.0
    ensures b.privacyAction == ANONYMIZE && b.identityKey == "" && b.face == None
  {
    var p := k.project(m);
    var h := Max(1.0, p.h);
    var w := Max(1.0, p.aspect * h);
    DEFAULT_BOX.(x := p.cx - w * 0.5, y := p.cy - h * 0.5, w := w, h := h)
  }

  /** The filter sees the centre of a box, and a motion's box lies about the centre it projects to. */
  lemma CentreIsMeasured(k: Kalman, b: Box, m: Motion)
    requires b.w >= 1.0 && b.h >= 1.0
    ensures Measured(b).cx == b.x + b.w / 2.0 && Measured(b).cy == b.y + b.h / 2.0
    ensures var r := BoxOf(k, m); r.x + r.w / 2.0 == k.project(m).cx && r.y + r.h / 2.0 == k.project(m).cy
  {
  }

  // ---------------------------------------------------------------- tracks

  datatype TrackState = Tracked | Lost | Removed

  /** Everything a track holds at a moment. */
  datatype Shot = Shot(
    id: int,
    startFrame: int,
    frameId: int,
    trackletLen: int,
    score: real,
    isActivated: bool,
    state: TrackState,
    box: Box,
    motion: Motion)
  {
    /** The box is the filter's. */
    predicate Framed(k: Kalman) { box == BoxOf(k, motion) }
  }

  /** A detection is a track that was not activated yet. */
  function NewShot(det: Box): Shot { Shot(0, 0, 0, 0, det.score, false, Tracked, det, []) }

  /** Motion is carried on, with the velocity reset when the track is not being tracked. */
  function Predicted(k: Kalman, t: Shot): (r: Shot)
    ensures r.Framed(k) && r.state == t.state
  {
    var motion := k.predict(t.motion, t.state != Tracked);
    t.(motion := motion, box := BoxOf(k, motion))
  }

  function Activated(k: Kalman, t: Shot, frame: int, id: int): (r: Shot)
    ensures r.Framed(k)
  {
    var motion := k.initiate(Measured(t.box));
    Shot(id, frame, frame, 0, t.score, true, Tracked, BoxOf(k, motion), motion)
  }

  function Updated(k: Kalman, t: Shot, det: Shot, frame: int): (r: Shot)
    ensures r.Framed(k)
  {
    var motion := k.update(t.motion, Measured(det.box));
    t.(motion := motion, box := BoxOf(k, motion), frameId := frame, trackletLen := t.trackletLen + 1, state := Tracked,
       isActivated := true, score := det.score)
  }

  class Track {
    var id: int
    var startFrame: int
    var frameId: int
    var trackletLen: int
    var score: real
    var isActivated: bool
    var state: TrackState
    var box: Box
    var motion: Motion

    constructor (det: Box)
      ensures Now() == NewShot(det)
    {
      id, startFrame, frameId, trackletLen := 0, 0, 0, 0;
      score, isActivated, state, box, motion := det.score, false, Tracked, det, [];
    }

    function Now(): Shot
      reads this
    {
      Shot(id, startFrame, frameId, trackletLen, score, isActivated, state, box, motion)
    }

    method Predict(k: Kalman)
      modifies this
      ensures Now() == Predicted(k, old(Now()))
    {
      motion := k.predict(motion, state != Tracked);
      box := BoxOf(k, motion);
    }

    method Activate(k: Kalman, frame: int, trackId: int)
      modifies this
      ensures Now() == Activated(k, old(Now()), frame, trackId)
    {
      motion := k.initiate(Measured(box));
      box := BoxOf(k, motion);
      id, frameId, startFrame, trackletLen, state, isActivated := trackId, frame, frame, 0, Tracked, true;
    }

    method UpdateWith(k: Kalman, det: Track, frame: int)
      modifies this
      ensures Now() == Updated(k, old(Now()), old(det.Now()), frame)
    {
      score, motion := det.score, k.update(motion, Measured(det.box));
      box := BoxOf(k, motion);
      frameId, trackletLen, state, isActivated := frame, trackletLen + 1, Tracked, true;
    }

    method SetState(s: TrackState)
      modifies this`state
      ensures Now() == old(Now()).(state := s)
    {
      state := s;
    }
  }

  // ---------------------------------------------------------------- lists of tracks

  ghost predicate DistinctIds(ts: seq<Track>)
    reads ts
  {
    forall i, j :: 0 <= i < j < |ts| ==> ts[i].id != ts[j].id
  }

  ghost predicate HasId(ts: seq<Track>, id: int)
    reads ts
  {
    exists i :: 0 <= i < |ts| && ts[i].id == id
  }

  method TrackBoxes(ts: seq<Track>) returns (boxes: seq<Box>)
    ensures |boxes| == |ts| && forall i :: 0 <= i < |ts| ==> boxes[i] == ts[i].box
  {
    boxes := [];
    for i := 0 to |ts|
      invariant |boxes| == i && forall j :: 0 <= j < i ==> boxes[j] == ts[j].box
    {
      boxes := boxes + [ts[i].box];
    }
  }

  /** Both lists, the first track of each id only. */
  method JointTracks(a: seq<Track>, b: seq<Track>) returns (out: seq<Track>)
    ensures DistinctIds(out)
    ensures forall t :: t in out ==> t in a || t in b
    ensures forall t :: t in a || t in b ==> HasId(out, t.id)
    ensures DistinctIds(a + b) ==> out == a + b
  {
    hide DistinctIds, HasId;
    var all := a + b;
    out := [];
    var seen: set<int> := {};
    NothingHasId();
    for i := 0 to |all|
      invariant DistinctIds(out)
      invariant forall t :: t in out ==> t in a || t in b
      invariant forall id :: id in seen <==> HasId(out, id)
      invariant forall j :: 0 <= j < i ==> all[j].id in seen
      invariant DistinctIds(all) ==> out == all[..i]
    {
      assert all[..i + 1] == all[..i] + [all[i]];
      if DistinctIds(all) {
        NextIdIsNew(all, i);
      }
      if all[i].id !in seen {
        HasIdAfter(out, all[i]);
        seen := seen + {all[i].id};
        out := out + [all[i]];
      }
    }
    assert all[..|all|] == all;
    forall t | t in a || t in b
      ensures HasId(out, t.id)
    {
      assert t in all;
      var j :| 0 <= j < |all| && all[j] == t;
    }
  }

  lemma NothingHasId()
    ensures DistinctIds([]) && forall id :: !HasId([], id)
  {
  }

  lemma NextIdIsNew(ts: seq<Track>, i: nat)
    requires DistinctIds(ts) && i < |ts|
    ensures !HasId(ts[..i], ts[i].id)
  {
  }

  lemma HasIdAfter(ts: seq<Track>, t: Track)
    ensures forall id :: HasId(ts + [t], id) <==> HasId(ts, id) || id == t.id
    ensures DistinctIds(ts) && !HasId(ts, t.id) ==> DistinctIds(ts + [t])
  {
    var more := ts + [t];
    assert more[|ts|] == t;
    assert forall i :: 0 <= i < |ts| ==> more[i] == ts[i];
  }

  /** Where an id names one track only, joining loses nothing. */
  lemma JointHoldsAll(a: seq<Track>, b: seq<Track>, out: seq<Track>)
    requires forall t :: t in out ==> t in a || t in b
    requires forall t :: t in a || t in b ==> HasId(out, t.id)
    requires OneTrackPerId(a + b)
    ensures forall t :: t in a || t in b ==> t in out
  {
    forall t | t in a || t in b
      ensures t in out
    {
      var i :| 0 <= i < |out| && out[i].id == t.id;
      assert out[i] in out;
    }
  }

  ghost predicate OneTrackPerId(ts: seq<Track>)
    reads ts
  {
    forall t, u :: t in ts && u in ts && t.id == u.id ==> t == u
  }

  /** The tracks of the first list whose id is not in the second. */
  method SubTracks(a: seq<Track>, b: seq<Track>) returns (out: seq<Track>)
    ensures forall t :: t in out <==> t in a && !HasId(b, t.id)
    ensures DistinctIds(a) ==> DistinctIds(out)
  {
    var drop := set i | 0 <= i < |b| :: b[i].id;
    assert forall id :: id in drop <==> HasId(b, id);
    out := KeepOutside(a, drop);
  }

  /** The tracks whose id is not to be dropped, in order. */
  method KeepOutside(a: seq<Track>, drop: set<int>) returns (out: seq<Track>)
    ensures forall t :: t in out <==> t in a && t.id !in drop
    ensures DistinctIds(a) ==> DistinctIds(out)
  {
    out := [];
    for i := 0 to |a|
      invariant forall t :: t in out <==> t in a[..i] && t.id !in drop
      invariant DistinctIds(a) ==> DistinctIds(out)
    {
      assert a[..i + 1] == a[..i] + [a[i]];
      if a[i].id !in drop {
        assert DistinctIds(a) ==> forall j :: 0 <= j < |out| ==> out[j].id != a[i].id by {
          forall j | DistinctIds(a) && 0 <= j < |out|
            ensures out[j].id != a[i].id
          {
            assert out[j] in a[..i];
          }
        }
        out := out + [a[i]];
      }
    }
    assert a[..|a|] == a;
  }

  // ---------------------------------------------------------------- duplicates

  const MAX_DUPLICATE_IOU := 0.999

  ghost predicate Duplicates(t: Track, u: Track, threshold: real)
    reads t, u
  {
    BoxIou(t.box, u.box) >= Clamp(threshold, 0.0, MAX_DUPLICATE_IOU)
  }

  function Length(t: Track): int
    reads t
  {
    t.frameId - t.startFrame
  }

  /** The lost track of an overlapping pair goes. */
  ghost predicate Beats(t: Track, u: Track, threshold: real)
    reads t, u
  {
    Duplicates(t, u, threshold) && Length(t) > Length(u)
  }

  /** The tracked track of an overlapping pair goes. */
  ghost predicate Yields(t: Track, u: Track, threshold: real)
    reads t, u
  {
    Duplicates(t, u, threshold) && Length(t) <= Length(u)
  }

  ghost predicate YieldsToOne(t: Track, lost: seq<Track>, threshold: real)
    reads t, lost
  {
    exists j :: 0 <= j < |lost| && Yields(t, lost[j], threshold)
  }

  ghost predicate BeatenByOne(u: Track, tracked: seq<Track>, threshold: real)
    reads u, tracked
  {
    exists i :: 0 <= i < |tracked| && Beats(tracked[i], u, threshold)
  }

  lemma YieldsAfter(t: Track, lost: seq<Track>, u: Track, threshold: real)
    ensures YieldsToOne(t, lost + [u], threshold) <==> YieldsToOne(t, lost, threshold) || Yields(t, u, threshold)
  {
    var more := lost + [u];
    assert more[|lost|] == u;
    assert forall j :: 0 <= j < |lost| ==> more[j] == lost[j];
  }

  lemma BeatenAfter(u: Track, tracked: seq<Track>, t: Track, threshold: real)
    ensures BeatenByOne(u, tracked + [t], threshold) <==> BeatenByOne(u, tracked, threshold) || Beats(t, u, threshold)
  {
    var more := tracked + [t];
    assert more[|tracked|] == t;
    assert forall j :: 0 <= j < |tracked| ==> more[j] == tracked[j];
  }

  /** The ids dropped are those of the first n tracks that yield to a lost one. */
  ghost predicate DropsYielding(drop: set<int>, tracked: seq<Track>, n: nat, lost: seq<Track>, threshold: real)
    reads tracked, lost
  {
    forall m :: 0 <= m < |tracked| ==> (tracked[m].id in drop <==> m < n && YieldsToOne(tracked[m], lost, threshold))
  }

  /** The ids dropped are those of the lost tracks beaten by a tracked one. */
  ghost predicate DropsBeaten(drop: set<int>, lost: seq<Track>, tracked: seq<Track>, threshold: real)
    reads tracked, lost
  {
    forall n :: 0 <= n < |lost| ==> (lost[n].id in drop <==> BeatenByOne(lost[n], tracked, threshold))
  }

  lemma OneMoreYields(drop: set<int>, tracked: seq<Track>, n: nat, lost: seq<Track>, threshold: real, gives: bool)
    requires n < |tracked| && DistinctIds(tracked) && DropsYielding(drop, tracked, n, lost, threshold)
    requires gives <==> YieldsToOne(tracked[n], lost, threshold)
    ensures DropsYielding(if gives then drop + {tracked[n].id} else drop, tracked, n + 1, lost, threshold)
  {
    hide YieldsToOne;
  }

  lemma OneMoreBeats(drop: set<int>, lost: seq<Track>, tracked: seq<Track>, n: nat, threshold: real, beaten: set<int>)
    requires n < |tracked| && DropsBeaten(drop, lost, tracked[..n], threshold)
    requires forall m :: 0 <= m < |lost| ==> (lost[m].id in beaten <==> Beats(tracked[n], lost[m], threshold))
    ensures DropsBeaten(drop + beaten, lost, tracked[..n + 1], threshold)
  {
    hide BeatenByOne, Beats;
    assert tracked[..n + 1] == tracked[..n] + [tracked[n]];
    forall m | 0 <= m < |lost|
      ensures lost[m].id in drop + beaten <==> BeatenByOne(lost[m], tracked[..n + 1], threshold)
    {
      BeatenAfter(lost[m], tracked[..n], tracked[n], threshold);
    }
  }

  lemma NobodyDropped(tracked: seq<Track>, lost: seq<Track>, threshold: real)
    requires tracked == [] || lost == []
    ensures forall t :: t in tracked ==> !YieldsToOne(t, lost, threshold)
    ensures forall u :: u in lost ==> !BeatenByOne(u, tracked, threshold)
  {
  }

  lemma NothingDropped(tracked: seq<Track>, lost: seq<Track>, threshold: real)
    ensures DropsYielding({}, tracked, 0, lost, threshold) && DropsBeaten({}, lost, tracked[..0], threshold)
  {
    hide Beats;
  }

  /** Of a tracked and a lost track that overlap too much, the one followed for less time is dropped. */
  method RemoveDuplicateTracks(tracked: seq<Track>, lost: seq<Track>, threshold: real)
    returns (trackedOut: seq<Track>, lostOut: seq<Track>)
    requires DistinctIds(tracked) && DistinctIds(lost)
    ensures DistinctIds(trackedOut) && DistinctIds(lostOut)
    ensures forall t :: t in trackedOut <==> t in tracked && !YieldsToOne(t, lost, threshold)
    ensures forall u :: u in lostOut <==> u in lost && !BeatenByOne(u, tracked, threshold)
  {
    hide DistinctIds, YieldsToOne, BeatenByOne, DropsYielding, DropsBeaten;
    if tracked == [] || lost == [] {
      NobodyDropped(tracked, lost, threshold);
      return tracked, lost;
    }
    var dropTracked: set<int>, dropLost: set<int> := {}, {};
    NothingDropped(tracked, lost, threshold);
    for i := 0 to |tracked|
      invariant DropsYielding(dropTracked, tracked, i, lost, threshold)
      invariant DropsBeaten(dropLost, lost, tracked[..i], threshold)
    {
      var gives, beaten := Compare(tracked[i], lost, threshold);
      OneMoreYields(dropTracked, tracked, i, lost, threshold, gives);
      OneMoreBeats(dropLost, lost, tracked, i, threshold, beaten);
      dropLost := dropLost + beaten;
      if gives {
        dropTracked := dropTracked + {tracked[i].id};
      }
    }
    assert tracked[..|tracked|] == tracked;
    trackedOut := KeepOutside(tracked, dropTracked);
    lostOut := KeepOutside(lost, dropLost);
    KeptDoNotYield(trackedOut, dropTracked, tracked, lost, threshold);
    KeptAreNotBeaten(lostOut, dropLost, lost, tracked, threshold);
  }

  lemma KeptDoNotYield(out: seq<Track>, drop: set<int>, tracked: seq<Track>, lost: seq<Track>, threshold: real)
    requires DropsYielding(drop, tracked, |tracked|, lost, threshold)
    requires forall t :: t in out <==> t in tracked && t.id !in drop
    ensures forall t :: t in out <==> t in tracked && !YieldsToOne(t, lost, threshold)
  {
    hide YieldsToOne;
  }

  lemma KeptAreNotBeaten(out: seq<Track>, drop: set<int>, lost: seq<Track>, tracked: seq<Track>, threshold: real)
    requires DropsBeaten(drop, lost, tracked, threshold)
    requires forall u :: u in out <==> u in lost && u.id !in drop
    ensures forall u :: u in out <==> u in lost && !BeatenByOne(u, tracked, threshold)
  {
    hide BeatenByOne;
  }

  /** One tracked track against all lost ones. */
  method Compare(t: Track, lost: seq<Track>, threshold: real) returns (gives: bool, beaten: set<int>)
    requires DistinctIds(lost)
    ensures gives <==> YieldsToOne(t, lost, threshold)
    ensures forall n :: 0 <= n < |lost| ==> (lost[n].id in beaten <==> Beats(t, lost[n], threshold))
  {
    var duplicateIou := Clamp(threshold, 0.0, MAX_DUPLICATE_IOU);
    gives, beaten := false, {};
    for j := 0 to |lost|
      invariant gives <==> YieldsToOne(t, lost[..j], threshold)
      invariant forall n :: 0 <= n < |lost| ==> (lost[n].id in beaten <==> n < j && Beats(t, lost[n], threshold))
    {
      assert lost[..j + 1] == lost[..j] + [lost[j]];
      YieldsAfter(t, lost[..j], lost[j], threshold);
      hide YieldsToOne;
      if BoxIou(t.box, lost[j].box) < duplicateIou {
        continue;
      }
      if Length(t) > Length(lost[j]) {
        beaten := beaten + {lost[j].id};
      } else {
        gives := true;
      }
    }
    assert lost[..|lost|] == lost;
  }

  /** No overlapping pair survives. */
  lemma NoDuplicateSurvives(tracked: seq<Track>, lost: seq<Track>, threshold: real, t: Track, u: Track)
    requires t in tracked && !YieldsToOne(t, lost, threshold)
    requires u in lost && !BeatenByOne(u, tracked, threshold)
    ensures BoxIou(t.box, u.box) < Clamp(threshold, 0.0, MAX_DUPLICATE_IOU)
  {
    var i :| 0 <= i < |tracked| && tracked[i] == t;
    var j :| 0 <= j < |lost| && lost[j] == u;
    assert !Beats(tracked[i], u, threshold) && !Yields(t, lost[j], threshold);
  }
}
