/** The greedy two-pass tracker of core/src/tracking/demo_tracker.cpp. */
module DemoTrackers {
  import opened Numbers
  import Sorting
  import opened Types
  import opened Association
  import opened GreedyMatching

  datatype Config = Config(highThresh: real, lowThresh: real, matchIou: real, lowMatchIou: real, minHits: int, maxMissed: int)

  datatype TrackState = TrackState(id: int, box: Box, age: int, hits: int, missed: int, vx: real, vy: real, vw: real, vh: real)

  // ---------------------------------------------------------------- one track

  /** One frame passes: motion is damped and the box moves on, never below one pixel a side. */
  function Predicted(t: TrackState): (r: TrackState)
    ensures r.id == t.id && r.missed == t.missed + 1
    ensures r.box.w >= 1.0 && r.box.h >= 1.0
  {
    var decay := if t.missed + 1 > 3 then 0.55 else 0.8;
    var vx, vy, vw, vh := t.vx * decay, t.vy * decay, t.vw * decay, t.vh * decay;
    t.(age := t.age + 1, missed := t.missed + 1, vx := vx, vy := vy, vw := vw, vh := vh,
       box := t.box.(x := t.box.x + vx, y := t.box.y + vy, w := Max(1.0, t.box.w + vw), h := Max(1.0, t.box.h + vh)))
  }

  /** The track after n frames without a detection. */
  function Coasted(t: TrackState, n: nat): TrackState
  {
    if n == 0 then t else Predicted(Coasted(t, n - 1))
  }

  /** From one place and speed to another: in the direction of the speed, and no farther than four times it in all. */
  predicate Drifts(x: real, v: real, to: real, rest: real)
  {
    && (v >= 0.0 ==> 0.0 <= rest <= v && 0.55 * v <= to - x && to - x + 4.0 * rest <= 4.0 * v)
    && (v <= 0.0 ==> v <= rest <= 0.0 && to - x <= 0.55 * v && 4.0 * v <= to - x + 4.0 * rest)
  }

  lemma {:induction false} Coasts(t: TrackState, n: nat)
    requires n >= 1
    ensures var r := Coasted(t, n);
      && r.missed == t.missed + n && r.hits == t.hits && r.age == t.age + n
      && Drifts(t.box.x, t.vx, r.box.x, r.vx)
      && Drifts(t.box.y, t.vy, r.box.y, r.vy)
  {
    if n == 1 {
      assert Coasted(t, 0) == t;
    } else {
      Coasts(t, n - 1);
      var last := Coasted(t, n - 1);
      assert Coasted(t, n) == Predicted(last);
      hide Coasted;
    }
  }

  /** A track nothing is detected for moves on as it moved, slower and slower, and never farther than four times its speed. */
  lemma LostTrackDriftsLittle(t: TrackState, n: nat)
    requires n >= 1
    ensures var dx, dy := Coasted(t, n).box.x - t.box.x, Coasted(t, n).box.y - t.box.y;
      && 0.55 * Abs(t.vx) <= Abs(dx) <= 4.0 * Abs(t.vx) && (t.vx > 0.0 ==> dx > 0.0) && (t.vx < 0.0 ==> dx < 0.0)
      && 0.55 * Abs(t.vy) <= Abs(dy) <= 4.0 * Abs(t.vy) && (t.vy > 0.0 ==> dy > 0.0) && (t.vy < 0.0 ==> dy < 0.0)
  {
    Coasts(t, n);
    hide Coasted;
  }

  function Blend(now: real, before: real): real { 0.35 * now + 0.65 * before }

  function Updated(t: TrackState, det: Box): TrackState
  {
    t.(vx := Blend(det.x - t.box.x, t.vx), vy := Blend(det.y - t.box.y, t.vy),
       vw := Blend(det.w - t.box.w, t.vw), vh := Blend(det.h - t.box.h, t.vh),
       box := det, hits := t.hits + 1, missed := 0)
  }

  function Born(det: Box, id: int): TrackState
  {
    TrackState(id, det.(id := id, occluded := false), 1, 1, 0, 0.0, 0.0, 0.0, 0.0)
  }

  /** A new track stands still at its detection, and counts it. */
  lemma NewbornStandsStill(det: Box, id: int, n: nat)
    requires det.w >= 1.0 && det.h >= 1.0
    ensures var t := Coasted(Born(det, id), n);
      && t.id == id && t.hits == 1 && t.missed == n && t.age == n + 1
      && t.box == det.(id := id, occluded := false)
  {
    BornCoasts(Born(det, id), n);
  }

  lemma {:induction false} BornCoasts(t: TrackState, n: nat)
    requires t.vx == t.vy == t.vw == t.vh == 0.0 && t.box.w >= 1.0 && t.box.h >= 1.0
    ensures Coasted(t, n) == t.(missed := t.missed + n, age := t.age + n)
  {
    if n > 0 {
      BornCoasts(t, n - 1);
    }
  }

  function Shown(t: TrackState): Box
  {
    t.box.(id := t.id, occluded := t.missed > 0)
  }

  predicate Hidden(t: TrackState, minHits: int) { t.hits < minHits && t.missed > 0 }

  // ---------------------------------------------------------------- matching

  ghost predicate Indices(s: seq<nat>, n: nat)
  {
    && (forall i :: 0 <= i < |s| ==> s[i] < n)
    && (forall i, j :: 0 <= i < j < |s| ==> s[i] < s[j])
  }

  /** The track and the detection are eligible for each other. */
  ghost predicate Eligible(x: Candidate, tracks: seq<TrackState>, ts: seq<nat>, dets: seq<Box>, ds: seq<nat>, thresh: real)
    requires Indices(ts, |tracks|) && Indices(ds, |dets|)
  {
    x.ti in ts && x.di in ds && x.iou == BoxIou(tracks[x.ti].box, dets[x.di]) && x.iou >= thresh
  }

  ghost predicate ExactlyEligible(c: seq<Candidate>, tracks: seq<TrackState>, ts: seq<nat>, dets: seq<Box>, ds: seq<nat>, thresh: real)
    requires Indices(ts, |tracks|) && Indices(ds, |dets|)
  {
    forall x :: x in c <==> Eligible(x, tracks, ts, dets, ds, thresh)
  }

  /** The picks are a greedy choice among all eligible pairs. */
  ghost predicate IsGreedy(picks: seq<Candidate>, tracks: seq<TrackState>, ts: seq<nat>, dets: seq<Box>, ds: seq<nat>, thresh: real)
    requires Indices(ts, |tracks|) && Indices(ds, |dets|)
  {
    exists c :: Descending(c) && ExactlyEligible(c, tracks, ts, dets, ds, thresh) && picks == Picked(c, |c|)
  }

  /** One-to-one, and no eligible pair is left open, by the boxes as they were before matching. */
  lemma GreedyIsMaximal(picks: seq<Candidate>, tracks: seq<TrackState>, ts: seq<nat>, dets: seq<Box>, ds: seq<nat>, thresh: real)
    requires Indices(ts, |tracks|) && Indices(ds, |dets|) && IsGreedy(picks, tracks, ts, dets, ds, thresh)
    ensures OneToOne(picks)
    ensures forall i :: 0 <= i < |picks| ==> Eligible(picks[i], tracks, ts, dets, ds, thresh)
    ensures forall x :: Eligible(x, tracks, ts, dets, ds, thresh) && Free(picks, x) ==> x in picks
  {
    var c: seq<Candidate> :| Descending(c) && ExactlyEligible(c, tracks, ts, dets, ds, thresh) && picks == Picked(c, |c|);
    PickedIsMaximal(c, |c|);
    hide Eligible, OneToOne, Picked;
    forall x | Eligible(x, tracks, ts, dets, ds, thresh) && Free(picks, x)
      ensures x in picks
    {
      assert x in c;
    }
  }

  /** The total overlap of the greedy choice is at least half that of any one-to-one choice of eligible pairs. */
  lemma GreedyOverlapIsHalfOfBest(picks: seq<Candidate>, m: seq<Candidate>, tracks: seq<TrackState>, ts: seq<nat>,
                                  dets: seq<Box>, ds: seq<nat>, thresh: real)
    requires Indices(ts, |tracks|) && Indices(ds, |dets|) && IsGreedy(picks, tracks, ts, dets, ds, thresh)
    requires OneToOne(m) && forall i :: 0 <= i < |m| ==> Eligible(m[i], tracks, ts, dets, ds, thresh)
    ensures Total(m) <= 2.0 * Total(picks)
  {
    var c: seq<Candidate> :| Descending(c) && ExactlyEligible(c, tracks, ts, dets, ds, thresh) && picks == Picked(c, |c|);
    forall i | 0 <= i < |c|
      ensures c[i].iou >= 0.0
    {
      assert Eligible(c[i], tracks, ts, dets, ds, thresh);
    }
    hide Eligible, Picked, Descending, OneToOne;
    GreedyIsWorthHalf(c, m);
  }

  // ---------------------------------------------------------------- sorting candidates

  function OverlapOf(x: Candidate): real { x.iou }

  function Sorted(c: seq<Candidate>): seq<Candidate>
  {
    Sorting.Sorted(OverlapOf, c)
  }

  lemma SortedIsSorted(c: seq<Candidate>)
    ensures Descending(Sorted(c))
    ensures forall y :: y in Sorted(c) <==> y in c
  {
    Sorting.SortedIsSorted(OverlapOf, c);
    var sorted := Sorted(c);
    forall y
      ensures y in sorted <==> y in c
    {
      assert y in multiset(sorted) <==> y in multiset(c);
    }
    forall i, j | 0 <= i < j < |sorted|
      ensures sorted[i].iou >= sorted[j].iou
    {
      assert OverlapOf(sorted[i]) >= OverlapOf(sorted[j]);
    }
  }

  // ---------------------------------------------------------------- the tracker

  /** The tracks after the picks were applied to them. */
  function Applied(tracks: seq<TrackState>, picks: seq<Candidate>, dets: seq<Box>): (r: seq<TrackState>)
    requires forall i :: 0 <= i < |picks| ==> picks[i].ti < |tracks| && picks[i].di < |dets|
    ensures |r| == |tracks|
  {
    if picks == [] then tracks
    else
      var last := picks[|picks| - 1];
      var r := Applied(tracks, picks[..|picks| - 1], dets);
      r[last.ti := Updated(r[last.ti], dets[last.di])]
  }

  /** A picked track got exactly its detection; the others are as they were. */
  lemma {:induction false} AppliedOnce(tracks: seq<TrackState>, picks: seq<Candidate>, dets: seq<Box>)
    requires OneToOne(picks) && forall i :: 0 <= i < |picks| ==> picks[i].ti < |tracks| && picks[i].di < |dets|
    ensures var r := Applied(tracks, picks, dets);
      && (forall i :: 0 <= i < |picks| ==> r[picks[i].ti] == Updated(tracks[picks[i].ti], dets[picks[i].di]))
      && (forall t :: 0 <= t < |tracks| && (forall i :: 0 <= i < |picks| ==> picks[i].ti != t) ==> r[t] == tracks[t])
  {
    hide Updated;
    if picks != [] {
      var k := |picks| - 1;
      var earlier := picks[..k];
      AppliedOnce(tracks, earlier, dets);
      forall i | 0 <= i < k
        ensures picks[i].ti != picks[k].ti
      {
        assert !picks[i].Conflicts(picks[k]);
      }
      assert forall i :: 0 <= i < k ==> earlier[i] == picks[i];
    }
  }

  /** The detections at or above the high threshold, and those between the low and the high one. */
  function HighOf(c: Config, dets: seq<Box>, n: nat): (r: seq<nat>)
    requires n <= |dets|
    ensures Indices(r, n)
  {
    if n == 0 then [] else HighOf(c, dets, n - 1) + (if dets[n - 1].score >= c.highThresh then [n - 1] else [])
  }

  function LowOf(c: Config, dets: seq<Box>, n: nat): (r: seq<nat>)
    requires n <= |dets|
    ensures Indices(r, n)
  {
    if n == 0 then []
    else LowOf(c, dets, n - 1) + (if c.highThresh > dets[n - 1].score >= c.lowThresh then [n - 1] else [])
  }

  function EveryIndex(n: nat): (r: seq<nat>)
    ensures Indices(r, n) && |r| == n && forall i :: 0 <= i < n ==> r[i] == i
  {
    seq(n, i => i)
  }

  predicate TrackPicked(picks: seq<Candidate>, t: nat) { exists i :: 0 <= i < |picks| && picks[i].ti == t }

  predicate DetPicked(picks: seq<Candidate>, d: nat) { exists i :: 0 <= i < |picks| && picks[i].di == d }

  /** The candidates among the first n that were not picked. */
  function TracksLeft(ts: seq<nat>, picks: seq<Candidate>, n: nat): (r: seq<nat>)
    requires n <= |ts|
    ensures forall x :: x in r <==> x in ts[..n] && !TrackPicked(picks, x)
  {
    if n == 0 then []
    else
      assert ts[..n] == ts[..n - 1] + [ts[n - 1]];
      TracksLeft(ts, picks, n - 1) + (if TrackPicked(picks, ts[n - 1]) then [] else [ts[n - 1]])
  }

  function DetsLeft(ds: seq<nat>, picks: seq<Candidate>, n: nat): (r: seq<nat>)
    requires n <= |ds|
    ensures forall x :: x in r <==> x in ds[..n] && !DetPicked(picks, x)
  {
    if n == 0 then []
    else
      assert ds[..n] == ds[..n - 1] + [ds[n - 1]];
      DetsLeft(ds, picks, n - 1) + (if DetPicked(picks, ds[n - 1]) then [] else [ds[n - 1]])
  }

  lemma PrefixBelow(s: seq<nat>, n: nat, bound: nat, left: seq<nat>)
    requires 0 < n <= |s| && Indices(s, bound) && Indices(left, bound) && forall x :: x in left ==> x in s[..n - 1]
    ensures Indices(left + [s[n - 1]], bound)
  {
    forall i | 0 <= i < |left|
      ensures left[i] < s[n - 1]
    {
      assert left[i] in left;
      var j :| 0 <= j < |s[..n - 1]| && s[..n - 1][j] == left[i];
    }
  }

  lemma {:induction false} TracksLeftAreIndices(s: seq<nat>, picks: seq<Candidate>, n: nat, bound: nat)
    requires n <= |s| && Indices(s, bound)
    ensures Indices(TracksLeft(s, picks, n), bound)
  {
    if n > 0 {
      TracksLeftAreIndices(s, picks, n - 1, bound);
      hide TrackPicked, Indices;
      PrefixBelow(s, n, bound, TracksLeft(s, picks, n - 1));
    }
  }

  lemma {:induction false} DetsLeftAreIndices(s: seq<nat>, picks: seq<Candidate>, n: nat, bound: nat)
    requires n <= |s| && Indices(s, bound)
    ensures Indices(DetsLeft(s, picks, n), bound)
  {
    if n > 0 {
      DetsLeftAreIndices(s, picks, n - 1, bound);
      hide DetPicked, Indices;
      PrefixBelow(s, n, bound, DetsLeft(s, picks, n - 1));
    }
  }

  function PredictAll(tracks: seq<TrackState>): (r: seq<TrackState>)
    ensures |r| == |tracks| && forall i :: 0 <= i < |tracks| ==> r[i] == Predicted(tracks[i])
  {
    seq(|tracks|, i requires 0 <= i < |tracks| => Predicted(tracks[i]))
  }

  function BornAll(dets: seq<Box>, ds: seq<nat>, id: int): (r: seq<TrackState>)
    requires Indices(ds, |dets|)
    ensures |r| == |ds| && forall i :: 0 <= i < |ds| ==> r[i] == Born(dets[ds[i]], id + i)
  {
    seq(|ds|, i requires 0 <= i < |ds| => Born(dets[ds[i]], id + i))
  }

  function Kept(tracks: seq<TrackState>, maxMissed: int, n: nat): (r: seq<TrackState>)
    requires n <= |tracks|
  {
    if n == 0 then []
    else Kept(tracks, maxMissed, n - 1) + (if tracks[n - 1].missed > maxMissed then [] else [tracks[n - 1]])
  }

  function ShownAll(tracks: seq<TrackState>, minHits: int, n: nat): (r: seq<Box>)
    requires n <= |tracks|
  {
    if n == 0 then []
    else ShownAll(tracks, minHits, n - 1) + (if Hidden(tracks[n - 1], minHits) then [] else [Shown(tracks[n - 1])])
  }

  /** Ids start at 1, rise along the list, and lie below the next one. */
  ghost predicate IdsInOrder(tracks: seq<TrackState>, next: int)
  {
    && next >= 1
    && (forall i :: 0 <= i < |tracks| ==> 1 <= tracks[i].id < next)
    && (forall i, j :: 0 <= i < j < |tracks| ==> tracks[i].id < tracks[j].id)
  }

  ghost predicate Anonymized(tracks: seq<TrackState>)
  {
    forall i :: 0 <= i < |tracks| ==> tracks[i].box.privacyAction == ANONYMIZE
  }

  lemma {:induction false} AppliedKeepsIds(tracks: seq<TrackState>, picks: seq<Candidate>, dets: seq<Box>)
    requires forall i :: 0 <= i < |picks| ==> picks[i].ti < |tracks| && picks[i].di < |dets|
    ensures forall i :: 0 <= i < |tracks| ==> Applied(tracks, picks, dets)[i].id == tracks[i].id
    ensures Anonymized(tracks) && AllAnonymized(dets) ==> Anonymized(Applied(tracks, picks, dets))
  {
    if picks != [] {
      AppliedKeepsIds(tracks, picks[..|picks| - 1], dets);
      hide Blend;
    }
  }

  lemma {:induction false} KeptIsPart(tracks: seq<TrackState>, maxMissed: int, n: nat)
    requires n <= |tracks|
    ensures forall t :: t in Kept(tracks, maxMissed, n) <==> t in tracks[..n] && t.missed <= maxMissed
  {
    if n > 0 {
      KeptIsPart(tracks, maxMissed, n - 1);
      assert tracks[..n] == tracks[..n - 1] + [tracks[n - 1]];
    }
  }

  lemma {:induction false} KeptInOrder(tracks: seq<TrackState>, maxMissed: int, n: nat, next: int)
    requires n <= |tracks| && IdsInOrder(tracks, next)
    ensures IdsInOrder(Kept(tracks, maxMissed, n), next)
    ensures forall i :: 0 <= i < |Kept(tracks, maxMissed, n)| ==> n > 0 && Kept(tracks, maxMissed, n)[i].id <= tracks[n - 1].id
  {
    if n > 0 {
      KeptInOrder(tracks, maxMissed, n - 1, next);
    }
  }

  ghost predicate IsShown(b: Box, tracks: seq<TrackState>, n: nat)
    requires n <= |tracks|
  {
    exists t :: 0 <= t < n && b == Shown(tracks[t])
  }

  ghost predicate AllShown(out: seq<Box>, tracks: seq<TrackState>, n: nat)
    requires n <= |tracks|
  {
    forall i :: 0 <= i < |out| ==> IsShown(out[i], tracks, n)
  }

  ghost predicate RisingIds(out: seq<Box>)
  {
    forall i, j :: 0 <= i < j < |out| ==> out[i].id < out[j].id
  }

  lemma ShownEarlier(b: Box, tracks: seq<TrackState>, n: nat, next: int)
    requires n < |tracks| && IdsInOrder(tracks, next) && IsShown(b, tracks, n)
    ensures IsShown(b, tracks, n + 1) && b.id < tracks[n].id
  {
    var t :| 0 <= t < n && b == Shown(tracks[t]);
    assert tracks[t].id < tracks[n].id;
  }

  lemma OneMoreShown(tracks: seq<TrackState>, out: seq<Box>, n: nat, next: int)
    requires n < |tracks| && IdsInOrder(tracks, next) && AllShown(out, tracks, n) && RisingIds(out)
    ensures AllShown(out, tracks, n + 1)
    ensures AllShown(out + [Shown(tracks[n])], tracks, n + 1) && RisingIds(out + [Shown(tracks[n])])
  {
    forall i | 0 <= i < |out|
      ensures IsShown(out[i], tracks, n + 1) && out[i].id < tracks[n].id
    {
      ShownEarlier(out[i], tracks, n, next);
    }
    assert IsShown(Shown(tracks[n]), tracks, n + 1);
    hide IsShown, IdsInOrder;
  }

  /** Every box shown is that of one living track, under its id, flagged as occluded when it was missed. */
  lemma {:induction false} ShownOnce(tracks: seq<TrackState>, minHits: int, n: nat, next: int)
    requires n <= |tracks| && IdsInOrder(tracks, next)
    ensures AllShown(ShownAll(tracks, minHits, n), tracks, n)
    ensures RisingIds(ShownAll(tracks, minHits, n))
  {
    if n > 0 {
      ShownOnce(tracks, minHits, n - 1, next);
      hide AllShown, RisingIds, IdsInOrder, Hidden, Shown;
      OneMoreShown(tracks, ShownAll(tracks, minHits, n - 1), n - 1, next);
    } else {
      assert ShownAll(tracks, minHits, n) == [];
    }
  }

  lemma {:induction false} ShownAnonymized(tracks: seq<TrackState>, minHits: int, n: nat)
    requires n <= |tracks| && Anonymized(tracks)
    ensures AllAnonymized(ShownAll(tracks, minHits, n))
  {
    if n > 0 {
      ShownAnonymized(tracks, minHits, n - 1);
    }
  }

  ghost predicate InRange(picks: seq<Candidate>, tracks: nat, dets: nat)
  {
    forall i :: 0 <= i < |picks| ==> picks[i].ti < tracks && picks[i].di < dets
  }

  /** The new tracks are the predicted ones, matched greedily in two passes, plus the newborn, less those missed too often. */
  ghost predicate IsUpdate(c: Config, before: seq<TrackState>, id: int, dets: seq<Box>, high: seq<Candidate>, low: seq<Candidate>,
                           after: seq<TrackState>, next: int)
  {
    var predicted := PredictAll(before);
    var ts, highs, lows := EveryIndex(|before|), HighOf(c, dets, |dets|), LowOf(c, dets, |dets|);
    && InRange(high, |before|, |dets|)
    && InRange(low, |before|, |dets|)
    && IsGreedy(high, predicted, ts, dets, highs, c.matchIou)
    && IsSecondPass(c, Applied(predicted, high, dets), TracksLeft(ts, high, |ts|), dets, lows, low)
    && AfterMatching(c, Applied(Applied(predicted, high, dets), low, dets), dets, DetsLeft(highs, high, |highs|), id, after, next)
  }

  ghost predicate IsSecondPass(c: Config, once: seq<TrackState>, left: seq<nat>, dets: seq<Box>, lows: seq<nat>, low: seq<Candidate>)
  {
    Indices(left, |once|) && Indices(lows, |dets|) && IsGreedy(low, once, left, dets, lows, c.lowMatchIou)
  }

  ghost predicate AfterMatching(c: Config, matched: seq<TrackState>, dets: seq<Box>, left: seq<nat>, id: int,
                                after: seq<TrackState>, next: int)
  {
    && Indices(left, |dets|)
    && next == id + |left|
    && var all := matched + BornAll(dets, left, id);
       after == Kept(all, c.maxMissed, |all|)
  }

  ghost predicate IsTrackId(id: int, tracks: seq<TrackState>)
  {
    exists k :: 0 <= k < |tracks| && tracks[k].id == id
  }

  lemma PredictedKeepsIds(tracks: seq<TrackState>)
    ensures forall i :: 0 <= i < |tracks| ==> PredictAll(tracks)[i].id == tracks[i].id
    ensures Anonymized(tracks) ==> Anonymized(PredictAll(tracks))
  {
  }

  lemma SameIdsInOrder(before: seq<TrackState>, after: seq<TrackState>, next: int)
    requires |after| == |before| && forall i :: 0 <= i < |before| ==> after[i].id == before[i].id
    ensures IdsInOrder(before, next) ==> IdsInOrder(after, next)
    ensures forall id :: IsTrackId(id, after) ==> IsTrackId(id, before)
  {
  }

  /** New tracks get the next ids. */
  lemma AllInOrder(matched: seq<TrackState>, dets: seq<Box>, ds: seq<nat>, next: int)
    requires IdsInOrder(matched, next) && Indices(ds, |dets|)
    ensures var all := matched + BornAll(dets, ds, next);
      && IdsInOrder(all, next + |ds|)
      && (forall i :: 0 <= i < |all| && all[i].id < next ==> IsTrackId(all[i].id, matched))
      && (Anonymized(matched) && AllAnonymized(dets) ==> Anonymized(all))
  {
    var all := matched + BornAll(dets, ds, next);
    forall i | 0 <= i < |all| && all[i].id < next
      ensures IsTrackId(all[i].id, matched)
    {
      assert matched[i].id == all[i].id;
    }
  }

  lemma Finished(c: Config, matched: seq<TrackState>, dets: seq<Box>, ds: seq<nat>, next: int)
    requires IdsInOrder(matched, next) && Indices(ds, |dets|)
    ensures var all := matched + BornAll(dets, ds, next);
      var after := Kept(all, c.maxMissed, |all|);
      && IdsInOrder(after, next + |ds|)
      && (forall i :: 0 <= i < |after| ==> after[i].missed <= c.maxMissed)
      && (forall i :: 0 <= i < |after| && after[i].id < next ==> IsTrackId(after[i].id, matched))
      && (Anonymized(matched) && AllAnonymized(dets) ==> Anonymized(after))
  {
    var all := matched + BornAll(dets, ds, next);
    var after := Kept(all, c.maxMissed, |all|);
    AllInOrder(matched, dets, ds, next);
    KeptIsPart(all, c.maxMissed, |all|);
    KeptInOrder(all, c.maxMissed, |all|, next + |ds|);
    assert all[..|all|] == all;
    hide Kept, BornAll, IsTrackId, IdsInOrder;
    forall i | 0 <= i < |after|
      ensures after[i] in all && after[i].missed <= c.maxMissed
    {
      assert after[i] in after;
    }
  }

  lemma PickedOneMore(picks: seq<Candidate>, x: Candidate)
    ensures Free(picks, x) <==> !TrackPicked(picks, x.ti) && !DetPicked(picks, x.di)
    ensures forall t :: TrackPicked(picks + [x], t) <==> TrackPicked(picks, t) || t == x.ti
    ensures forall d :: DetPicked(picks + [x], d) <==> DetPicked(picks, d) || d == x.di
  {
    var more := picks + [x];
    assert more[|picks|] == x;
    assert forall i :: 0 <= i < |picks| ==> more[i] == picks[i];
  }

  lemma NothingPicked(tracks: seq<TrackState>, sorted: seq<Candidate>, dets: seq<Box>)
    ensures Picked(sorted, 0) == [] && Applied(tracks, [], dets) == tracks
    ensures forall t :: !TrackPicked([], t)
    ensures forall d :: !DetPicked([], d)
  {
  }

  lemma PickedNext(sorted: seq<Candidate>, k: nat)
    requires k < |sorted|
    ensures var picks := Picked(sorted, k);
      Picked(sorted, k + 1) == if Free(picks, sorted[k]) then picks + [sorted[k]] else picks
  {
    hide Free;
  }

  lemma AppliedOneMore(tracks: seq<TrackState>, picks: seq<Candidate>, x: Candidate, dets: seq<Box>)
    requires InRange(picks, |tracks|, |dets|) && x.ti < |tracks| && x.di < |dets|
    ensures var r := Applied(tracks, picks, dets);
      Applied(tracks, picks + [x], dets) == r[x.ti := Updated(r[x.ti], dets[x.di])]
  {
    assert (picks + [x])[..|picks|] == picks;
    hide Updated;
  }

  function NotTaken(s: seq<nat>, taken: seq<bool>, n: nat): seq<nat>
    requires n <= |s| && forall i :: 0 <= i < |s| ==> s[i] < |taken|
  {
    if n == 0 then [] else NotTaken(s, taken, n - 1) + (if taken[s[n - 1]] then [] else [s[n - 1]])
  }

  lemma {:induction false} UntakenTracks(s: seq<nat>, taken: seq<bool>, picks: seq<Candidate>, n: nat)
    requires n <= |s| && Indices(s, |taken|) && forall t :: 0 <= t < |taken| ==> (taken[t] <==> TrackPicked(picks, t))
    ensures NotTaken(s, taken, n) == TracksLeft(s, picks, n)
  {
    hide TrackPicked;
    if n > 0 {
      UntakenTracks(s, taken, picks, n - 1);
    }
  }

  lemma {:induction false} UntakenDets(s: seq<nat>, taken: seq<bool>, picks: seq<Candidate>, n: nat)
    requires n <= |s| && Indices(s, |taken|) && forall t :: 0 <= t < |taken| ==> (taken[t] <==> DetPicked(picks, t))
    ensures NotTaken(s, taken, n) == DetsLeft(s, picks, n)
  {
    hide DetPicked;
    if n > 0 {
      UntakenDets(s, taken, picks, n - 1);
    }
  }

  lemma SortedIsEligible(c: seq<Candidate>, tracks: seq<TrackState>, ts: seq<nat>, dets: seq<Box>, ds: seq<nat>, thresh: real)
    requires Indices(ts, |tracks|) && Indices(ds, |dets|) && ExactlyEligible(c, tracks, ts, dets, ds, thresh)
    ensures Descending(Sorted(c)) && ExactlyEligible(Sorted(c), tracks, ts, dets, ds, thresh)
    ensures InRange(Sorted(c), |tracks|, |dets|)
  {
    SortedIsSorted(c);
    hide Sorted, Descending;
    forall i | 0 <= i < |Sorted(c)|
      ensures Sorted(c)[i].ti < |tracks| && Sorted(c)[i].di < |dets|
    {
      assert Sorted(c)[i] in c;
    }
  }

  lemma PickedIsGreedy(c: seq<Candidate>, tracks: seq<TrackState>, ts: seq<nat>, dets: seq<Box>, ds: seq<nat>, thresh: real)
    requires Indices(ts, |tracks|) && Indices(ds, |dets|)
    requires Descending(c) && ExactlyEligible(c, tracks, ts, dets, ds, thresh)
    ensures IsGreedy(Picked(c, |c|), tracks, ts, dets, ds, thresh)
  {
  }

  // ---------------------------------------------------------------- what is shown is what was detected

  /** The box is this detection, but for its id and whether it is occluded. */
  predicate IsOf(b: Box, dets: seq<Box>, d: int)
  {
    0 <= d < |dets| && b == dets[d].(id := b.id, occluded := b.occluded)
  }

  ghost predicate IsDetected(b: Box, dets: seq<Box>)
  {
    exists d :: IsOf(b, dets, d)
  }

  ghost predicate Counted(tracks: seq<TrackState>)
  {
    forall i :: 0 <= i < |tracks| ==> tracks[i].missed >= 0
  }

  /** A track that was not missed in this frame stands where it was detected. */
  ghost predicate MissedOrSeen(tracks: seq<TrackState>, dets: seq<Box>)
  {
    forall i :: 0 <= i < |tracks| ==> tracks[i].missed >= 1 || (tracks[i].missed == 0 && IsDetected(tracks[i].box, dets))
  }

  /** Some track stands for the detection. */
  ghost predicate StandsFor(tracks: seq<TrackState>, dets: seq<Box>, d: int)
  {
    exists t :: 0 <= t < |tracks| && tracks[t].missed == 0 && IsOf(tracks[t].box, dets, d)
  }

  lemma {:induction false} AppliedMissedOrSeen(tracks: seq<TrackState>, picks: seq<Candidate>, dets: seq<Box>)
    requires InRange(picks, |tracks|, |dets|) && MissedOrSeen(tracks, dets)
    ensures MissedOrSeen(Applied(tracks, picks, dets), dets)
  {
    if picks != [] {
      var last := picks[|picks| - 1];
      AppliedMissedOrSeen(tracks, picks[..|picks| - 1], dets);
      assert IsOf(dets[last.di], dets, last.di);
      hide Blend, IsOf;
    }
  }

  lemma FinishedMissedOrSeen(c: Config, matched: seq<TrackState>, dets: seq<Box>, ds: seq<nat>, id: int)
    requires MissedOrSeen(matched, dets) && Indices(ds, |dets|)
    ensures var all := matched + BornAll(dets, ds, id); MissedOrSeen(Kept(all, c.maxMissed, |all|), dets)
  {
    var born := BornAll(dets, ds, id);
    var all := matched + born;
    forall i | 0 <= i < |born|
      ensures born[i].missed == 0 && IsDetected(born[i].box, dets)
    {
      assert IsOf(born[i].box, dets, ds[i]);
    }
    KeptIsPart(all, c.maxMissed, |all|);
    assert all[..|all|] == all;
    hide Kept, BornAll, IsDetected;
    var after := Kept(all, c.maxMissed, |all|);
    forall i | 0 <= i < |after|
      ensures after[i] in all
    {
      assert after[i] in after;
    }
  }

  /** A frame leaves every track missed or where it was detected. */
  lemma UpdateMissedOrSeen(c: Config, before: seq<TrackState>, id: int, dets: seq<Box>, high: seq<Candidate>, low: seq<Candidate>,
                           after: seq<TrackState>, next: int)
    requires Counted(before) && IsUpdate(c, before, id, dets, high, low, after, next)
    ensures MissedOrSeen(after, dets)
  {
    hide IsGreedy, IsSecondPass, Applied, Predicted, Kept, BornAll, DetsLeft, HighOf, LowOf;
    assert MissedOrSeen(PredictAll(before), dets);
    hide MissedOrSeen;
    AppliedMissedOrSeen(PredictAll(before), high, dets);
    AppliedMissedOrSeen(Applied(PredictAll(before), high, dets), low, dets);
    var ds := DetsLeft(HighOf(c, dets, |dets|), high, |HighOf(c, dets, |dets|)|);
    FinishedMissedOrSeen(c, Applied(Applied(PredictAll(before), high, dets), low, dets), dets, ds, id);
  }

  /** Whatever is shown as not occluded was detected, just so. */
  ghost predicate ShowsDetected(out: seq<Box>, dets: seq<Box>)
  {
    forall i :: 0 <= i < |out| && !out[i].occluded ==> IsDetected(out[i], dets)
  }

  lemma ShownAreDetected(tracks: seq<TrackState>, minHits: int, next: int, dets: seq<Box>)
    requires MissedOrSeen(tracks, dets) && IdsInOrder(tracks, next)
    ensures ShowsDetected(ShownAll(tracks, minHits, |tracks|), dets)
  {
    var out := ShownAll(tracks, minHits, |tracks|);
    ShownOnce(tracks, minHits, |tracks|, next);
    hide ShownAll, RisingIds, IdsInOrder;
    forall i | 0 <= i < |out| && !out[i].occluded
      ensures IsDetected(out[i], dets)
    {
      assert IsShown(out[i], tracks, |tracks|);
      var t :| 0 <= t < |tracks| && out[i] == Shown(tracks[t]);
      var d :| IsOf(tracks[t].box, dets, d);
      assert IsOf(out[i], dets, d);
    }
  }

  // ---------------------------------------------------------------- every high detection is shown

  lemma {:induction false} HighOfHolds(c: Config, dets: seq<Box>, n: nat, d: nat)
    requires d < n <= |dets| && dets[d].score >= c.highThresh
    ensures d in HighOf(c, dets, n)
  {
    if d < n - 1 {
      HighOfHolds(c, dets, n - 1, d);
    }
  }

  lemma {:induction false} KeptHolds(tracks: seq<TrackState>, maxMissed: int, dets: seq<Box>, d: int)
    requires maxMissed >= 0 && StandsFor(tracks, dets, d)
    ensures StandsFor(Kept(tracks, maxMissed, |tracks|), dets, d)
  {
    var t :| 0 <= t < |tracks| && tracks[t].missed == 0 && IsOf(tracks[t].box, dets, d);
    KeptIsPart(tracks, maxMissed, |tracks|);
    assert tracks[..|tracks|] == tracks;
    assert tracks[t] in Kept(tracks, maxMissed, |tracks|);
  }

  lemma {:induction false} ShownAreOld(tracks: seq<TrackState>, minHits: int, n: nat, next: int)
    requires n <= |tracks| && IdsInOrder(tracks, next)
    ensures forall b :: b in ShownAll(tracks, minHits, n) ==> n > 0 && b.id <= tracks[n - 1].id
  {
    if n > 0 {
      ShownAreOld(tracks, minHits, n - 1, next);
    }
  }

  /** A living track is shown exactly if it was just detected or was detected often enough. */
  lemma {:induction false} ShownIff(tracks: seq<TrackState>, minHits: int, n: nat, next: int, t: nat)
    requires t < n <= |tracks| && IdsInOrder(tracks, next)
    ensures (exists b :: b in ShownAll(tracks, minHits, n) && b.id == tracks[t].id)
       <==> tracks[t].missed <= 0 || tracks[t].hits >= minHits
  {
    var earlier, last := ShownAll(tracks, minHits, n - 1), tracks[n - 1];
    if t < n - 1 {
      ShownIff(tracks, minHits, n - 1, next, t);
      assert Shown(last).id != tracks[t].id;
    } else {
      ShownAreOld(tracks, minHits, n - 1, next);
    }
    assert forall b :: b in ShownAll(tracks, minHits, n) <==> b in earlier || (!Hidden(last, minHits) && b == Shown(last));
    hide ShownAll, IdsInOrder;
    if !Hidden(last, minHits) {
      assert Shown(last) in ShownAll(tracks, minHits, n);
    }
  }

  lemma {:induction false} ShownAllHolds(tracks: seq<TrackState>, minHits: int, n: nat, t: nat)
    requires t < n <= |tracks| && tracks[t].missed == 0
    ensures Shown(tracks[t]) in ShownAll(tracks, minHits, n)
  {
    hide Shown;
    if t < n - 1 {
      ShownAllHolds(tracks, minHits, n - 1, t);
    }
  }

  /** A detection that was picked is where its track is afterwards, whatever others are picked for. */
  lemma PickedStands(tracks: seq<TrackState>, high: seq<Candidate>, low: seq<Candidate>, dets: seq<Box>, d: nat)
    requires OneToOne(high) && OneToOne(low) && InRange(high, |tracks|, |dets|) && InRange(low, |tracks|, |dets|)
    requires DetPicked(high, d) && forall i :: 0 <= i < |low| ==> !TrackPicked(high, low[i].ti)
    ensures StandsFor(Applied(Applied(tracks, high, dets), low, dets), dets, d)
  {
    var i :| 0 <= i < |high| && high[i].di == d;
    var once := Applied(tracks, high, dets);
    AppliedOnce(tracks, high, dets);
    AppliedOnce(once, low, dets);
    var twice := Applied(once, low, dets);
    assert TrackPicked(high, high[i].ti);
    assert twice[high[i].ti] == once[high[i].ti] == Updated(tracks[high[i].ti], dets[d]);
    assert IsOf(twice[high[i].ti].box, dets, d);
    hide Applied, Blend;
  }

  lemma SecondPassApart(c: Config, once: seq<TrackState>, ts: seq<nat>, high: seq<Candidate>, dets: seq<Box>, lows: seq<nat>, low: seq<Candidate>)
    requires IsSecondPass(c, once, TracksLeft(ts, high, |ts|), dets, lows, low)
    ensures OneToOne(low) && forall i :: 0 <= i < |low| ==> !TrackPicked(high, low[i].ti)
  {
    GreedyIsMaximal(low, once, TracksLeft(ts, high, |ts|), dets, lows, c.lowMatchIou);
    hide OneToOne, TrackPicked, IsGreedy, Free;
    forall i | 0 <= i < |low|
      ensures !TrackPicked(high, low[i].ti)
    {
      assert Eligible(low[i], once, TracksLeft(ts, high, |ts|), dets, lows, c.lowMatchIou);
    }
  }

  /** After a frame some track stands for each high detection. */
  lemma HighIsTracked(c: Config, before: seq<TrackState>, id: int, dets: seq<Box>, high: seq<Candidate>, low: seq<Candidate>,
                      after: seq<TrackState>, next: int, d: nat)
    requires IsUpdate(c, before, id, dets, high, low, after, next) && c.maxMissed >= 0
    requires d < |dets| && dets[d].score >= c.highThresh
    ensures StandsFor(after, dets, d)
  {
    var predicted, ts, highs, lows := PredictAll(before), EveryIndex(|before|), HighOf(c, dets, |dets|), LowOf(c, dets, |dets|);
    HighOfHolds(c, dets, |dets|, d);
    var left := DetsLeft(highs, high, |highs|);
    var matched := Applied(Applied(predicted, high, dets), low, dets);
    hide Applied, HighOf, LowOf, Predicted, Kept, BornAll, StandsFor, TrackPicked;
    var all := matched + BornAll(dets, left, id);
    if DetPicked(high, d) {
      GreedyIsMaximal(high, predicted, ts, dets, highs, c.matchIou);
      SecondPassApart(c, Applied(predicted, high, dets), ts, high, dets, lows, low);
      hide IsGreedy, IsSecondPass, OneToOne, DetPicked;
      PickedStands(predicted, high, low, dets, d);
      StandsInMore(matched, BornAll(dets, left, id), dets, d);
    } else {
      hide IsGreedy, IsSecondPass, DetPicked;
      assert highs[..|highs|] == highs;
      var i :| 0 <= i < |left| && left[i] == d;
      NewbornStands(matched, dets, left, id, i);
    }
    KeptHolds(all, c.maxMissed, dets, d);
  }

  lemma StandsInMore(tracks: seq<TrackState>, more: seq<TrackState>, dets: seq<Box>, d: int)
    requires StandsFor(tracks, dets, d)
    ensures StandsFor(tracks + more, dets, d)
  {
    var t :| 0 <= t < |tracks| && tracks[t].missed == 0 && IsOf(tracks[t].box, dets, d);
    assert (tracks + more)[t] == tracks[t];
  }

  lemma NewbornStands(matched: seq<TrackState>, dets: seq<Box>, ds: seq<nat>, id: int, i: nat)
    requires Indices(ds, |dets|) && i < |ds|
    ensures StandsFor(matched + BornAll(dets, ds, id), dets, ds[i])
  {
    var all := matched + BornAll(dets, ds, id);
    assert all[|matched| + i] == Born(dets[ds[i]], id + i);
    assert IsOf(all[|matched| + i].box, dets, ds[i]);
  }

  /** Every detection that scores high is shown, just so and not as occluded. */
  ghost predicate ShowsEveryHigh(c: Config, out: seq<Box>, dets: seq<Box>)
  {
    forall d :: 0 <= d < |dets| && dets[d].score >= c.highThresh ==> IsShownAs(out, dets, d)
  }

  ghost predicate IsShownAs(out: seq<Box>, dets: seq<Box>, d: int)
  {
    exists i :: 0 <= i < |out| && !out[i].occluded && IsOf(out[i], dets, d)
  }

  lemma StandingIsShown(tracks: seq<TrackState>, minHits: int, dets: seq<Box>, d: int)
    requires StandsFor(tracks, dets, d)
    ensures IsShownAs(ShownAll(tracks, minHits, |tracks|), dets, d)
  {
    var t :| 0 <= t < |tracks| && tracks[t].missed == 0 && IsOf(tracks[t].box, dets, d);
    ShownAllHolds(tracks, minHits, |tracks|, t);
    var out := ShownAll(tracks, minHits, |tracks|);
    hide ShownAll;
    var i :| 0 <= i < |out| && out[i] == Shown(tracks[t]);
    assert IsOf(out[i], dets, d);
  }

  lemma EveryHighIsShown(c: Config, before: seq<TrackState>, id: int, dets: seq<Box>, high: seq<Candidate>, low: seq<Candidate>,
                         after: seq<TrackState>, next: int)
    requires IsUpdate(c, before, id, dets, high, low, after, next) && c.maxMissed >= 0
    ensures ShowsEveryHigh(c, ShownAll(after, c.minHits, |after|), dets)
  {
    hide IsUpdate, ShownAll, IsShownAs, StandsFor;
    forall d | 0 <= d < |dets| && dets[d].score >= c.highThresh
      ensures IsShownAs(ShownAll(after, c.minHits, |after|), dets, d)
    {
      HighIsTracked(c, before, id, dets, high, low, after, next, d);
      StandingIsShown(after, c.minHits, dets, d);
    }
  }

  // ---------------------------------------------------------------- no pair is left open

  /** This track of before was detected in this frame. */
  ghost predicate IsFound(after: seq<TrackState>, id: int)
  {
    exists i :: 0 <= i < |after| && after[i].id == id && after[i].missed == 0
  }

  /** A track of before is where this detection is. */
  ghost predicate IsHeld(before: seq<TrackState>, after: seq<TrackState>, dets: seq<Box>, d: int)
  {
    exists i :: 0 <= i < |after| && IsTrackId(after[i].id, before) && after[i].missed == 0 && IsOf(after[i].box, dets, d)
  }

  /** The overlap at which a detection of this score is taken for a track; low scores have their own. */
  function EnoughFor(c: Config, det: Box): real
  {
    if det.score >= c.highThresh then c.matchIou else c.lowMatchIou
  }

  /** The detection counts and overlaps the track enough where the track is expected. */
  predicate IsOpen(c: Config, t: TrackState, det: Box)
  {
    det.score >= c.lowThresh && BoxIou(Predicted(t).box, det) >= EnoughFor(c, det)
  }

  /** Of a track and a detection that overlap enough where the track was expected, one is matched. */
  ghost predicate LeavesNoneOpen(c: Config, before: seq<TrackState>, dets: seq<Box>, after: seq<TrackState>)
  {
    forall t, d :: 0 <= t < |before| && 0 <= d < |dets| ==>
      (IsOpen(c, before[t], dets[d]) ==> IsFound(after, before[t].id) || IsHeld(before, after, dets, d))
  }

  /** After both passes this track is at this detection. */
  ghost predicate IsAt(before: seq<TrackState>, twice: seq<TrackState>, dets: seq<Box>, t: nat, d: nat)
  {
    t < |before| && t < |twice| && twice[t].id == before[t].id && twice[t].missed == 0 && IsOf(twice[t].box, dets, d)
  }

  lemma KeptIsAt(c: Config, before: seq<TrackState>, twice: seq<TrackState>, born: seq<TrackState>, dets: seq<Box>, t: nat, d: nat)
    requires c.maxMissed >= 0 && IsAt(before, twice, dets, t, d)
    ensures var all := twice + born; var after := Kept(all, c.maxMissed, |all|);
      IsFound(after, before[t].id) && IsHeld(before, after, dets, d)
  {
    var all := twice + born;
    var after := Kept(all, c.maxMissed, |all|);
    KeptIsPart(all, c.maxMissed, |all|);
    assert all[..|all|] == all && all[t] == twice[t] && all[t] in all;
    hide Kept;
    var i :| 0 <= i < |after| && after[i] == twice[t];
    assert IsTrackId(before[t].id, before);
  }

  lemma HighPickIsAt(before: seq<TrackState>, high: seq<Candidate>, low: seq<Candidate>, dets: seq<Box>, i: nat)
    requires OneToOne(high) && OneToOne(low) && InRange(high, |before|, |dets|) && InRange(low, |before|, |dets|) && i < |high|
    requires forall k :: 0 <= k < |low| ==> !TrackPicked(high, low[k].ti)
    ensures IsAt(before, Applied(Applied(PredictAll(before), high, dets), low, dets), dets, high[i].ti, high[i].di)
  {
    var predicted := PredictAll(before);
    var once := Applied(predicted, high, dets);
    AppliedOnce(predicted, high, dets);
    AppliedOnce(once, low, dets);
    assert TrackPicked(high, high[i].ti);
    hide Applied, Blend, Predicted;
  }

  lemma LowPickIsAt(before: seq<TrackState>, high: seq<Candidate>, low: seq<Candidate>, dets: seq<Box>, i: nat)
    requires OneToOne(low) && InRange(high, |before|, |dets|) && InRange(low, |before|, |dets|) && i < |low|
    ensures IsAt(before, Applied(Applied(PredictAll(before), high, dets), low, dets), dets, low[i].ti, low[i].di)
  {
    var predicted := PredictAll(before);
    var once := Applied(predicted, high, dets);
    AppliedKeepsIds(predicted, high, dets);
    AppliedOnce(once, low, dets);
    hide Applied, Blend, Predicted;
  }

  lemma {:induction false} LowOfHolds(c: Config, dets: seq<Box>, n: nat, d: nat)
    requires d < n <= |dets| && c.highThresh > dets[d].score >= c.lowThresh
    ensures d in LowOf(c, dets, n)
  {
    if d < n - 1 {
      LowOfHolds(c, dets, n - 1, d);
    }
  }

  /** The pair conflicts with some pick. */
  lemma TakenPair(picks: seq<Candidate>, x: Candidate) returns (i: nat)
    requires !Free(picks, x) || x in picks
    ensures i < |picks| && (picks[i].ti == x.ti || picks[i].di == x.di)
  {
    if x in picks {
      i :| 0 <= i < |picks| && picks[i] == x;
    } else {
      i :| 0 <= i < |picks| && picks[i].Conflicts(x);
    }
  }

  lemma HighPairIsUsed(c: Config, before: seq<TrackState>, high: seq<Candidate>, dets: seq<Box>, t: nat, d: nat) returns (i: nat)
    requires t < |before| && d < |dets| && dets[d].score >= c.highThresh && BoxIou(Predicted(before[t]).box, dets[d]) >= c.matchIou
    requires IsGreedy(high, PredictAll(before), EveryIndex(|before|), dets, HighOf(c, dets, |dets|), c.matchIou)
    ensures i < |high| && (high[i].ti == t || high[i].di == d)
  {
    var highs, x := HighOf(c, dets, |dets|), Candidate(t, d, BoxIou(Predicted(before[t]).box, dets[d]));
    HighOfHolds(c, dets, |dets|, d);
    GreedyIsMaximal(high, PredictAll(before), EveryIndex(|before|), dets, highs, c.matchIou);
    assert EveryIndex(|before|)[t] == t;
    assert Eligible(x, PredictAll(before), EveryIndex(|before|), dets, highs, c.matchIou);
    hide *;
    i := TakenPair(high, x);
  }

  lemma LowPairIsUsed(c: Config, before: seq<TrackState>, high: seq<Candidate>, low: seq<Candidate>, dets: seq<Box>, t: nat, d: nat)
    returns (i: nat)
    requires t < |before| && d < |dets| && c.highThresh > dets[d].score >= c.lowThresh
    requires BoxIou(Predicted(before[t]).box, dets[d]) >= c.lowMatchIou && !TrackPicked(high, t)
    requires OneToOne(high) && InRange(high, |before|, |dets|)
    requires var ts := EveryIndex(|before|);
      IsSecondPass(c, Applied(PredictAll(before), high, dets), TracksLeft(ts, high, |ts|), dets, LowOf(c, dets, |dets|), low)
    ensures i < |low| && (low[i].ti == t || low[i].di == d)
  {
    var ts, lows, x := EveryIndex(|before|), LowOf(c, dets, |dets|), Candidate(t, d, BoxIou(Predicted(before[t]).box, dets[d]));
    var left, once := TracksLeft(ts, high, |ts|), Applied(PredictAll(before), high, dets);
    LowOfHolds(c, dets, |dets|, d);
    AppliedOnce(PredictAll(before), high, dets);
    assert forall k :: 0 <= k < |high| ==> high[k].ti != t;
    assert once[t] == Predicted(before[t]);
    GreedyIsMaximal(low, once, left, dets, lows, c.lowMatchIou);
    assert ts[t] == t && ts[..|ts|] == ts;
    assert t in left;
    assert Eligible(x, once, left, dets, lows, c.lowMatchIou);
    hide *;
    i := TakenPair(low, x);
  }

  /** Neither pass leaves a pair open that overlaps enough. */
  lemma PairIsUsed(c: Config, before: seq<TrackState>, id: int, dets: seq<Box>, high: seq<Candidate>, low: seq<Candidate>,
                   after: seq<TrackState>, next: int, t: nat, d: nat)
    requires IsUpdate(c, before, id, dets, high, low, after, next) && c.maxMissed >= 0
    requires t < |before| && d < |dets| && dets[d].score >= c.lowThresh
    requires BoxIou(Predicted(before[t]).box, dets[d]) >= EnoughFor(c, dets[d])
    ensures IsFound(after, before[t].id) || IsHeld(before, after, dets, d)
  {
    var predicted, ts, highs, lows := PredictAll(before), EveryIndex(|before|), HighOf(c, dets, |dets|), LowOf(c, dets, |dets|);
    var once := Applied(predicted, high, dets);
    var twice, born := Applied(once, low, dets), BornAll(dets, DetsLeft(highs, high, |highs|), id);
    assert after == Kept(twice + born, c.maxMissed, |twice + born|);
    GreedyIsMaximal(high, predicted, ts, dets, highs, c.matchIou);
    SecondPassApart(c, once, ts, high, dets, lows, low);
    hide IsUpdate, IsGreedy, IsSecondPass, Applied, Predicted, Kept, BornAll, HighOf, LowOf, EveryIndex, TracksLeft, DetsLeft, OneToOne,
      InRange, Free, IsFound, IsHeld, IsAt, BoxIou, Eligible, PredictAll;
    if dets[d].score >= c.highThresh {
      var i := HighPairIsUsed(c, before, high, dets, t, d);
      HighPickIsAt(before, high, low, dets, i);
      KeptIsAt(c, before, twice, born, dets, high[i].ti, high[i].di);
    } else if TrackPicked(high, t) {
      var i :| 0 <= i < |high| && high[i].ti == t;
      HighPickIsAt(before, high, low, dets, i);
      KeptIsAt(c, before, twice, born, dets, high[i].ti, high[i].di);
    } else {
      hide TrackPicked;
      var i := LowPairIsUsed(c, before, high, low, dets, t, d);
      LowPickIsAt(before, high, low, dets, i);
      KeptIsAt(c, before, twice, born, dets, low[i].ti, low[i].di);
    }
  }

  lemma NoneIsLeftOpen(c: Config, before: seq<TrackState>, id: int, dets: seq<Box>, high: seq<Candidate>, low: seq<Candidate>,
                       after: seq<TrackState>, next: int)
    requires IsUpdate(c, before, id, dets, high, low, after, next) && c.maxMissed >= 0
    ensures LeavesNoneOpen(c, before, dets, after)
  {
    hide IsUpdate, BoxIou, Predicted, EnoughFor, IsFound, IsHeld;
    forall t, d | 0 <= t < |before| && 0 <= d < |dets|
      ensures IsOpen(c, before[t], dets[d]) ==> IsFound(after, before[t].id) || IsHeld(before, after, dets, d)
    {
      if IsOpen(c, before[t], dets[d]) {
        PairIsUsed(c, before, id, dets, high, low, after, next, t, d);
      }
    }
  }

  // ---------------------------------------------------------------- the speed of a track

  /** A track that is detected in each of n frames, each time this much farther on. */
  function Led(t: TrackState, dx: real, dy: real, n: nat): TrackState
  {
    if n == 0 then t
    else
      var last := Led(t, dx, dy, n - 1);
      Updated(Predicted(last), last.box.(x := last.box.x + dx, y := last.box.y + dy))
  }

  function Power(x: real, n: nat): real { if n == 0 then 1.0 else x * Power(x, n - 1) }

  /** The share of a steady speed that is learned in the end. */
  const LEARNED := 35.0 / 76.0

  /** What lacks to the target is this part of what lacked at first. */
  predicate Tends(now: real, first: real, part: real, target: real)
  {
    now - target == part * (first - target)
  }

  /** The speed of a track that is detected at a steady pace tends to 35/76 of it: what lacks shrinks to 24 percent each frame. */
  lemma {:induction false} SpeedIsLearned(t: TrackState, dx: real, dy: real, n: nat)
    requires t.missed == 0
    ensures var r := Led(t, dx, dy, n);
      && r.missed == 0 && r.hits == t.hits + n && r.age == t.age + n && r.id == t.id
      && Tends(r.vx, t.vx, Power(0.24, n), LEARNED * dx)
      && Tends(r.vy, t.vy, Power(0.24, n), LEARNED * dy)
  {
    if n == 0 {
    } else {
      var r, last, p, q := Led(t, dx, dy, n), Led(t, dx, dy, n - 1), Power(0.24, n), Power(0.24, n - 1);
      hide Updated, Predicted, Tends;
      assert r == Updated(Predicted(last), last.box.(x := last.box.x + dx, y := last.box.y + dy)) && p == 0.24 * q;
      hide *;
      SpeedIsLearned(t, dx, dy, n - 1);
      SpeedStep(last, dx, dy);
      TendsStep(r.vx, last.vx, t.vx, p, q, LEARNED * dx);
      TendsStep(r.vy, last.vy, t.vy, p, q, LEARNED * dy);
    }
  }

  lemma TendsStep(now: real, before: real, first: real, p: real, q: real, target: real)
    requires p == 0.24 * q && Tends(before, first, q, target) && now - target == 0.24 * (before - target)
    ensures Tends(now, first, p, target)
  {
  }

  lemma SpeedStep(last: TrackState, dx: real, dy: real)
    requires last.missed == 0
    ensures var r := Updated(Predicted(last), last.box.(x := last.box.x + dx, y := last.box.y + dy));
      && r.missed == 0 && r.hits == last.hits + 1 && r.age == last.age + 1 && r.id == last.id
      && r.vx - LEARNED * dx == 0.24 * (last.vx - LEARNED * dx)
      && r.vy - LEARNED * dy == 0.24 * (last.vy - LEARNED * dy)
  {
  }

  class DemoTracker {
    const c: Config
    var nextTrackId: int
    var tracks: seq<TrackState>

    constructor (c: Config)
      ensures Valid() && tracks == [] && nextTrackId == 1 && this.c == c
    {
      this.c := c;
      nextTrackId := 1;
      tracks := [];
    }

    ghost predicate Valid()
      reads this
    {
      IdsInOrder(tracks, nextTrackId) && Counted(tracks)
    }

    method MatchGreedy(ts: seq<nat>, ds: seq<nat>, dets: seq<Box>, thresh: real)
      returns (unmatchedTracks: seq<nat>, unmatchedDets: seq<nat>, ghost picks: seq<Candidate>)
      requires Indices(ts, |tracks|) && Indices(ds, |dets|)
      modifies this`tracks
      ensures IsGreedy(picks, old(tracks), ts, dets, ds, thresh)
      ensures InRange(picks, |old(tracks)|, |dets|)
      ensures tracks == Applied(old(tracks), picks, dets)
      ensures unmatchedTracks == TracksLeft(ts, picks, |ts|) && unmatchedDets == DetsLeft(ds, picks, |ds|)
    {
      var candidates := FindCandidates(ts, ds, dets, thresh);
      var sorted := Sorted(candidates);
      SortedIsEligible(candidates, tracks, ts, dets, ds, thresh);
      hide Sorted, Picked, IsGreedy, TrackPicked, DetPicked, Applied, Descending, ExactlyEligible;
      var trackTaken, detTaken;
      trackTaken, detTaken, picks := PickGreedily(sorted, dets);
      PickedIsGreedy(sorted, old(tracks), ts, dets, ds, thresh);
      unmatchedTracks := Untaken(ts, trackTaken);
      unmatchedDets := Untaken(ds, detTaken);
      UntakenTracks(ts, trackTaken[..], picks, |ts|);
      UntakenDets(ds, detTaken[..], picks, |ds|);
    }

    static method Untaken(s: seq<nat>, taken: array<bool>) returns (left: seq<nat>)
      requires Indices(s, taken.Length)
      ensures left == NotTaken(s, taken[..], |s|)
    {
      left := [];
      for i := 0 to |s|
        invariant left == NotTaken(s, taken[..], i)
      {
        if !taken[s[i]] {
          left := left + [s[i]];
        }
      }
    }

    /** The greedy scan over the sorted candidates. */
    method PickGreedily(sorted: seq<Candidate>, dets: seq<Box>)
      returns (trackTaken: array<bool>, detTaken: array<bool>, ghost picks: seq<Candidate>)
      requires InRange(sorted, |tracks|, |dets|)
      modifies this`tracks
      ensures picks == Picked(sorted, |sorted|) && InRange(picks, |old(tracks)|, |dets|)
      ensures tracks == Applied(old(tracks), picks, dets)
      ensures trackTaken.Length == |tracks| && detTaken.Length == |dets|
      ensures forall t :: 0 <= t < trackTaken.Length ==> (trackTaken[t] <==> TrackPicked(picks, t))
      ensures forall d :: 0 <= d < detTaken.Length ==> (detTaken[d] <==> DetPicked(picks, d))
    {
      hide Updated, TrackPicked, DetPicked, Free, Picked, Applied;
      trackTaken, detTaken := new bool[|tracks|](_ => false), new bool[|dets|](_ => false);
      picks := [];
      NothingPicked(tracks, sorted, dets);
      for k := 0 to |sorted|
        invariant picks == Picked(sorted, k) && InRange(picks, |old(tracks)|, |dets|)
        invariant tracks == Applied(old(tracks), picks, dets)
        invariant forall t :: 0 <= t < trackTaken.Length ==> (trackTaken[t] <==> TrackPicked(picks, t))
        invariant forall d :: 0 <= d < detTaken.Length ==> (detTaken[d] <==> DetPicked(picks, d))
      {
        var x := sorted[k];
        PickedOneMore(picks, x);
        PickedNext(sorted, k);
        AppliedOneMore(old(tracks), picks, x, dets);
        if trackTaken[x.ti] || detTaken[x.di] {
          continue;
        }
        trackTaken[x.ti], detTaken[x.di] := true, true;
        tracks := tracks[x.ti := Updated(tracks[x.ti], dets[x.di])];
        picks := picks + [x];
      }
    }

    method FindCandidates(ts: seq<nat>, ds: seq<nat>, dets: seq<Box>, thresh: real) returns (candidates: seq<Candidate>)
      requires Indices(ts, |tracks|) && Indices(ds, |dets|)
      ensures ExactlyEligible(candidates, tracks, ts, dets, ds, thresh)
    {
      candidates := [];
      for i := 0 to |ts|
        invariant forall x :: x in candidates <==> Eligible(x, tracks, ts, dets, ds, thresh) && x.ti in ts[..i]
      {
        ghost var before := candidates;
        for j := 0 to |ds|
          invariant forall x :: x in candidates <==>
            x in before || (Eligible(x, tracks, ts, dets, ds, thresh) && x.ti == ts[i] && x.di in ds[..j])
        {
          var iou := BoxIou(tracks[ts[i]].box, dets[ds[j]]);
          assert ds[..j + 1] == ds[..j] + [ds[j]];
          if iou >= thresh {
            candidates := candidates + [Candidate(ts[i], ds[j], iou)];
          }
        }
        assert ds[..|ds|] == ds;
        assert ts[..i + 1] == ts[..i] + [ts[i]];
      }
      assert ts[..|ts|] == ts;
    }

    method RemoveMissed()
      modifies this`tracks
      ensures tracks == Kept(old(tracks), c.maxMissed, |old(tracks)|)
    {
      var kept := [];
      for i := 0 to |tracks|
        invariant kept == Kept(tracks, c.maxMissed, i)
      {
        if tracks[i].missed <= c.maxMissed {
          kept := kept + [tracks[i]];
        }
      }
      tracks := kept;
    }

    method Show() returns (out: seq<Box>)
      ensures out == ShownAll(tracks, c.minHits, |tracks|)
    {
      out := [];
      for i := 0 to |tracks|
        invariant out == ShownAll(tracks, c.minHits, i)
      {
        if Hidden(tracks[i], c.minHits) {
          continue;
        }
        out := out + [Shown(tracks[i])];
      }
    }

    /** Births, deaths and what is shown. */
    method FinishFrame(dets: seq<Box>, left: seq<nat>) returns (out: seq<Box>)
      requires Indices(left, |dets|) && IdsInOrder(tracks, nextTrackId)
      modifies this
      ensures IdsInOrder(tracks, nextTrackId)
      ensures AfterMatching(c, old(tracks), dets, left, old(nextTrackId), tracks, nextTrackId)
      ensures forall i :: 0 <= i < |tracks| ==> tracks[i].missed <= c.maxMissed
      ensures forall i :: 0 <= i < |tracks| && tracks[i].id < old(nextTrackId) ==> IsTrackId(tracks[i].id, old(tracks))
      ensures out == ShownAll(tracks, c.minHits, |tracks|)
      ensures old(Anonymized(tracks)) && AllAnonymized(dets) ==> Anonymized(tracks) && AllAnonymized(out)
    {
      Finished(c, tracks, dets, left, nextTrackId);
      hide BornAll, Kept, IdsInOrder, IsTrackId, Anonymized, AllAnonymized, Shown;
      tracks := tracks + BornAll(dets, left, nextTrackId);
      nextTrackId := nextTrackId + |left|;
      RemoveMissed();
      if Anonymized(tracks) {
        ShownAnonymized(tracks, c.minHits, |tracks|);
      }
      out := Show();
    }

    /**
      One frame: every track moves on, high detections are matched first, then low ones to the tracks
      left over; unmatched high detections start tracks, and tracks missed for too long are dropped.
      What is shown as not occluded is a detection, and every high detection is shown so.
    */
    method Update(dets: seq<Box>)
      returns (out: seq<Box>, ghost high: seq<Candidate>, ghost low: seq<Candidate>)
      requires Valid()
      modifies this
      ensures Valid()
      ensures IsUpdate(c, old(tracks), old(nextTrackId), dets, high, low, tracks, nextTrackId)
      ensures forall i :: 0 <= i < |tracks| ==> tracks[i].missed <= c.maxMissed
      ensures forall i :: 0 <= i < |tracks| && tracks[i].id < old(nextTrackId) ==> IsTrackId(tracks[i].id, old(tracks))
      ensures out == ShownAll(tracks, c.minHits, |tracks|)
      ensures ShowsDetected(out, dets) && (c.maxMissed >= 0 ==> ShowsEveryHigh(c, out, dets))
      ensures c.maxMissed >= 0 ==> LeavesNoneOpen(c, old(tracks), dets, tracks)
      ensures old(Anonymized(tracks)) && AllAnonymized(dets) ==> Anonymized(tracks) && AllAnonymized(out)
    {
      hide HighOf, LowOf, EveryIndex, Predicted, Applied, IsGreedy, TracksLeft, DetsLeft, AfterMatching;
      var highs, lows := HighOf(c, dets, |dets|), LowOf(c, dets, |dets|);
      PredictedKeepsIds(tracks);
      tracks := PredictAll(tracks);
      var ts := EveryIndex(|tracks|);
      var left, leftDets, unusedTracks, unusedDets;
      left, leftDets, high := MatchGreedy(ts, highs, dets, c.matchIou);
      AppliedKeepsIds(PredictAll(old(tracks)), high, dets);
      TracksLeftAreIndices(ts, high, |ts|, |tracks|);
      DetsLeftAreIndices(highs, high, |highs|, |dets|);
      ghost var once := tracks;
      unusedTracks, unusedDets, low := MatchGreedy(left, lows, dets, c.lowMatchIou);
      AppliedKeepsIds(once, low, dets);
      SameIdsInOrder(old(tracks), tracks, nextTrackId);
      out := FinishFrame(dets, leftDets);
      hide ShownAll, ShowsDetected, ShowsEveryHigh, LeavesNoneOpen;
      UpdateMissedOrSeen(c, old(tracks), old(nextTrackId), dets, high, low, tracks, nextTrackId);
      ShownAreDetected(tracks, c.minHits, nextTrackId, dets);
      if c.maxMissed >= 0 {
        EveryHighIsShown(c, old(tracks), old(nextTrackId), dets, high, low, tracks, nextTrackId);
        NoneIsLeftOpen(c, old(tracks), old(nextTrackId), dets, high, low, tracks, nextTrackId);
      }
    }
  }
}
